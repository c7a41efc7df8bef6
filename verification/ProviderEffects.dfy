/** What each mutation of `ProviderConfig` leaves behind, told from the state before and the state after. */
module ProviderEffects {
  import opened Sequences
  import opened Wrappers
  import opened ProviderConfig

  // The mutation builds a candidate that the validator accepts.
  ghost predicate Accepted(c: Config, op: Op) {
    Draft(c, op).Candidate? && Valid(Draft(c, op).config)
  }

  lemma SavedIs(c: Config, op: Op)
    ensures Apply(c, op) == if Accepted(c, op) then Saved(Draft(c, op).config) else c
  {
    hide Draft, Valid, Saved;
  }

  // ---------------------------------------------------------------- the default profile

  // A live profile of the default provider, for the runner that provider uses.
  ghost predicate Serves(c: Config, f: Profile) {
    && f in c.profiles && f.Live() && Some(f.providerId) == c.defaultProvider
    && exists p :: p in c.providers && p.id == f.providerId && p.runner == f.runner
  }

  // The default profile before is still one of the default provider's.
  ghost predicate StillServes(before: Option<Id>, c: Config) {
    exists f :: f in c.profiles && Some(f.id) == before && f.Live() && Some(f.providerId) == c.defaultProvider
  }

  // The default profile stays while it is live and of the default provider. Otherwise it is one that
  // serves, and there is none only if no profile does.
  ghost predicate Rederived(before: Option<Id>, c: Config) {
    if StillServes(before, c) then c.defaultProfile == before
    else if c.defaultProfile.None? then forall f :: f in c.profiles ==> !Serves(c, f)
    else exists f :: Serves(c, f) && f.id == c.defaultProfile.value
  }

  lemma ReconcileRederives(c: Config)
    requires ProvidersOk(c.providers) && ProfilesOk(c.profiles, Ids(c.providers))
    ensures Rederived(c.defaultProfile, Reconcile(c))
  {
    var r := Reconcile(c);
    ReconcileKeeps(c);
    var i := FirstIndex(c.profiles, (f: Profile) => Some(f.id) == c.defaultProfile);
    if i < |c.profiles| && c.profiles[i].Live() && Some(c.profiles[i].providerId) == c.defaultProvider {
      assert c.profiles[i] in r.profiles && StillServes(c.defaultProfile, r);
    } else {
      assert !StillServes(c.defaultProfile, r);
      ReplacementServes(c);
    }
    hide Reconcile;
  }

  lemma ReplacementServes(c: Config)
    requires ProvidersOk(c.providers)
    requires var i := FirstIndex(c.profiles, (f: Profile) => Some(f.id) == c.defaultProfile);
             i == |c.profiles| || !c.profiles[i].Live() || Some(c.profiles[i].providerId) != c.defaultProvider
    ensures var r := Reconcile(c);
            if r.defaultProfile.None? then forall f :: f in r.profiles ==> !Serves(r, f)
            else exists f :: Serves(r, f) && f.id == r.defaultProfile.value
  {
    var r := Reconcile(c);
    if c.defaultProvider.Some? {
      var d := c.defaultProvider.value;
      var p := ProviderIndex(c.providers, d);
      if p < |c.providers| {
        var runner := c.providers[p].runner;
        assert c.providers[p] in r.providers;
        assert forall q :: q in r.providers && q.id == d ==> q == c.providers[p];
        var j := FirstIndex(c.profiles, (f: Profile) => f.providerId == d && f.runner == runner && f.Live());
        if j < |c.profiles| {
          assert Serves(r, c.profiles[j]);
        }
      }
    }
  }

  // Serving does not look at revisions, nor at graves.
  lemma SameServing(c: Config, c': Config, before: Option<Id>)
    requires Rederived(before, c) && |c'.providers| == |c.providers|
    requires forall k :: 0 <= k < |c.providers| ==> Advanced(c.providers[k], c'.providers[k])
    requires c'.profiles == c.profiles
    requires c'.defaultProvider == c.defaultProvider && c'.defaultProfile == c.defaultProfile
    ensures Rederived(before, c')
  {
    assert StillServes(before, c) <==> StillServes(before, c');
    forall f ensures Serves(c, f) <==> Serves(c', f) {
      if Serves(c, f) {
        var k :| 0 <= k < |c.providers| && c.providers[k].id == f.providerId && c.providers[k].runner == f.runner;
        assert c'.providers[k] in c'.providers;
      }
      if Serves(c', f) {
        var k :| 0 <= k < |c.providers| && c'.providers[k].id == f.providerId && c'.providers[k].runner == f.runner;
        assert c.providers[k] in c.providers;
      }
    }
    hide Serves, StillServes, Advanced;
  }

  lemma SavedRederived(c: Config, before: Option<Id>)
    requires Rederived(before, c)
    ensures Rederived(before, Saved(c))
  {
    SameServing(c, Saved(c), before);
  }

  /** The default profile follows the default provider: whenever a mutation moves that, or an import replaces
      the providers, the default profile is re-derived; every other mutation leaves it, but for activation. */
  lemma DefaultProfileAfter(c: Config, op: Op)
    requires Inv(c) && WellSupplied(c, op) && Accepted(c, op) && !op.ActivateProfile?
    ensures var c' := Apply(c, op);
            if op.ImportSync? || c'.defaultProvider != c.defaultProvider then Rederived(c.defaultProfile, c')
            else c'.defaultProfile == c.defaultProfile
  {
    SavedIs(c, op);
    var d := Draft(c, op).config;
    if op.ImportSync? || d.defaultProvider != c.defaultProvider {
      MovedRederives(c, op);
      SavedRederived(d, c.defaultProfile);
    } else {
      UnmovedKeeps(c, op);
    }
    hide Draft, Valid, Rederived, Disjoint, Inv;
  }

  // The default profile after a mutation, accepted or not.
  ghost predicate Follows(c: Config, c': Config) {
    if c'.defaultProvider != c.defaultProvider then Rederived(c.defaultProfile, c')
    else c'.defaultProfile == c.defaultProfile
  }

  lemma DefaultProfileFollows(c: Config, op: Op)
    requires Inv(c) && WellSupplied(c, op) && !op.ActivateProfile?
    ensures op.ImportSync? || Follows(c, Apply(c, op))
    ensures op.ImportSync? && Accepted(c, op) ==> Rederived(c.defaultProfile, Apply(c, op))
  {
    hide Apply, Accepted, Rederived, Inv;
    SavedIs(c, op);
    if Accepted(c, op) {
      DefaultProfileAfter(c, op);
    }
  }

  lemma UnmovedKeeps(c: Config, op: Op)
    requires Draft(c, op).Candidate? && !op.ActivateProfile? && !op.ImportSync?
    requires Draft(c, op).config.defaultProvider == c.defaultProvider
    requires Inv(c)
    ensures Draft(c, op).config.defaultProfile == c.defaultProfile
  {
    hide Advance, Bury, Without, TombstoneOrphans, Patched, ProfilesOk, GravesOk;
    if op.UpdateProvider? && op.patch.suspended == Some(true) && c.defaultProvider == Some(op.id) {
      UpdateShape(c, op.id, op.patch, op.keyChanged);
      HeirOnlyIfLost(c, op.id, op.patch);
    }
    hide Reconcile;
  }

  lemma MovedRederives(c: Config, op: Op)
    requires Inv(c) && WellSupplied(c, op) && Accepted(c, op) && !op.ActivateProfile?
    requires op.ImportSync? || Draft(c, op).config.defaultProvider != c.defaultProvider
    ensures Rederived(c.defaultProfile, Draft(c, op).config)
  {
    hide Rederived, Valid;
    match op
    case UpdateProvider(id, patch, k) => UpdateRederives(c, id, patch, k);
    case SetDefault(id) => SetRederives(c, id);
    case ImportSync(ps, d, now) => ImportRederives(c, ps, d, now);
    case SelectInstallation(kind, make, r) => SelectRederives(c, kind, make, r);
    case _ => OthersStay(c, op);
  }

  lemma OthersStay(c: Config, op: Op)
    requires op.AddProvider? || op.DeleteProvider? || op.AddProfile? || op.UpdateProfile? || op.DeleteProfile?
    requires Draft(c, op).Candidate?
    ensures Draft(c, op).config.defaultProvider == c.defaultProvider
  {
  }

  // The patched providers with the heir as the default, before anything is re-derived.
  function Handed(c: Config, id: Id, patch: Patch): Config
    requires id in Ids(c.providers)
  {
    var i := ProviderIndex(c.providers, id);
    c.(providers := c.providers[i := Patched(c.providers[i], patch)], defaultProvider := Heir(c, id, patch))
  }

  lemma HandedOver(c: Config, id: Id, patch: Patch, keyChanged: bool)
    requires UpdateDraft(c, id, patch, keyChanged).Candidate?
    requires UpdateDraft(c, id, patch, keyChanged).config.defaultProvider != c.defaultProvider
    ensures id in Ids(c.providers)
    ensures var c1, c' := Handed(c, id, patch), UpdateDraft(c, id, patch, keyChanged).config;
            && c' == Reconcile(c1).(providers := c'.providers)
            && c'.providers == Advance(Advance(c1.providers, Some(id)), c1.defaultProvider)
  {
    var i := ProviderIndex(c.providers, id);
    assert c.providers[i] in c.providers;
    UpdateShape(c, id, patch, keyChanged);
    ReconcileKeeps(Handed(c, id, patch));
    hide Reconcile, Advance, Patched, Heir, FirstIndex;
  }

  lemma HandedOk(c: Config, id: Id, patch: Patch)
    requires ProvidersOk(c.providers) && id in Ids(c.providers)
    ensures ProvidersOk(Handed(c, id, patch).providers) && Ids(Handed(c, id, patch).providers) == Ids(c.providers)
  {
    hide Heir;
    var i := ProviderIndex(c.providers, id);
    assert Patched(c.providers[i], patch).id == c.providers[i].id;
    hide Patched, FirstIndex;
    SameIds(c.providers, Handed(c, id, patch).providers);
  }

  lemma UpdateRederives(c: Config, id: Id, patch: Patch, keyChanged: bool)
    requires Inv(c) && UpdateDraft(c, id, patch, keyChanged).Candidate?
    requires UpdateDraft(c, id, patch, keyChanged).config.defaultProvider != c.defaultProvider
    ensures Rederived(c.defaultProfile, UpdateDraft(c, id, patch, keyChanged).config)
  {
    hide UpdateDraft, Reconcile, Rederived, Patched, Heir, Advance, FirstIndex, ProvidersOk, ProfilesOk, Ids, Advanced;
    HandedOver(c, id, patch, keyChanged);
    HandedOk(c, id, patch);
    var c1, c' := Handed(c, id, patch), UpdateDraft(c, id, patch, keyChanged).config;
    ReconcileRederives(c1);
    ReconcileKeeps(c1);
    AdvancedTwice(c1.providers, Some(id), c1.defaultProvider);
    SameServing(Reconcile(c1), c', c.defaultProfile);
  }

  lemma AdvancedTwice(ps: seq<Provider>, a: Option<Id>, b: Option<Id>)
    ensures var qs := Advance(Advance(ps, a), b);
            |qs| == |ps| && forall k :: 0 <= k < |ps| ==> Advanced(ps[k], qs[k])
  {
    hide Advance;
    AdvanceShape(ps, a);
    AdvanceShape(Advance(ps, a), b);
  }

  lemma SetRederives(c: Config, id: Id)
    requires Inv(c) && SetDefaultDraft(c, id).Candidate?
    ensures Rederived(c.defaultProfile, SetDefaultDraft(c, id).config)
  {
    hide Rederived, Advance, Reconcile, ProfilesOk, ProvidersOk, Ids;
    AdvanceKeeps(c.providers, c.defaultProvider, None);
    AdvanceKeeps(Advance(c.providers, c.defaultProvider), Some(id), None);
    var ps := Advance(Advance(c.providers, c.defaultProvider), Some(id));
    ReconcileRederives(c.(providers := ps, defaultProvider := Some(id)));
  }

  lemma ImportRederives(c: Config, ps: seq<Provider>, d: Option<Id>, now: string)
    requires Inv(c) && now != "" && ImportDraft(c, ps, d, now).Candidate?
    ensures Rederived(c.defaultProfile, ImportDraft(c, ps, d, now).config)
  {
    hide Rederived, Reconcile, ProfilesOk, ProvidersOk, Ids, TombstoneOrphans, Bury, Without;
    TombstoneKeeps(c.profiles, Ids(c.providers), Ids(ps), now);
    ReconcileRederives(c.(providers := ps, defaultProvider := d,
                          graveyard := Bury(c.graveyard, Without(c.providers, Ids(ps)), now),
                          profiles := TombstoneOrphans(c.profiles, Ids(ps), now)));
  }

  lemma MoreKnown(fs: seq<Profile>, known: set<Id>, more: set<Id>)
    requires ProfilesOk(fs, known) && known <= more
    ensures ProfilesOk(fs, more)
  {
  }

  lemma SelectRederives(c: Config, kind: string, makeDefault: bool, record: Provider)
    requires Inv(c) && WellSupplied(c, SelectInstallation(kind, makeDefault, record))
    requires SelectDraft(c, kind, makeDefault, record).Candidate?
    requires SelectDraft(c, kind, makeDefault, record).config.defaultProvider != c.defaultProvider
    ensures Rederived(c.defaultProfile, SelectDraft(c, kind, makeDefault, record).config)
  {
    hide Rederived, Reconcile, Advance, MadeAvailable, SelectDraft, ProvidersOk, ProfilesOk, Ids, DefaultOk;
    SelectMoves(c, kind, makeDefault, record);
    AvailableOk(c, kind, record);
    var (ps, i) := MadeAvailable(c, kind, record);
    var prev, id := c.defaultProvider, Some(ps[i].id);
    AdvanceKeeps(ps, prev, None);
    AdvanceKeeps(Advance(ps, prev), id, None);
    MoreKnown(c.profiles, Ids(c.providers), Ids(ps));
    var qs := if i == |c.providers| then Advance(ps, prev) else Advance(Advance(ps, prev), id);
    ReconcileRederives(c.(providers := qs, defaultProvider := id));
  }

  // ---------------------------------------------------------------- what each mutation changes

  lemma {:induction false} DisjointSame(gs: seq<Grave>, known: set<Id>)
    requires forall i :: 0 <= i < |gs| ==> gs[i].id !in known
    ensures Disjoint(gs, known) == gs
  {
    if gs != [] {
      DisjointSame(gs[1..], known);
      assert [gs[0]] + gs[1..] == gs;
    }
  }

  // The same graves: none of a provider that is in the configuration.
  lemma SavedSame(c: Config, d: Config)
    requires Inv(c) && d.graveyard == c.graveyard && Ids(d.providers) == Ids(c.providers)
    ensures Saved(d) == d
  {
    DisjointSame(d.graveyard, Ids(d.providers));
    hide Valid, PairsUnique, Ids, Disjoint;
  }

  // The same providers, up to revisions that do not fall.
  ghost predicate SameProviders(ps: seq<Provider>, qs: seq<Provider>) {
    |qs| == |ps| && forall k :: 0 <= k < |ps| ==> Advanced(ps[k], qs[k])
  }

  // Live profiles of providers that are gone get a tombstone; nothing else changes.
  ghost predicate Withdrawn(fs: seq<Profile>, gs: seq<Profile>, known: set<Id>, now: string) {
    && |gs| == |fs|
    && forall i :: 0 <= i < |fs| ==>
         gs[i] == if fs[i].deletedAt.None? && fs[i].providerId !in known
                  then fs[i].(deletedAt := Some(now), updatedAt := now) else fs[i]
  }

  /** Adding a provider appends it, and takes it out of the graveyard. */
  lemma AddProviderLeaves(c: Config, op: Op)
    requires Inv(c) && op.AddProvider? && Accepted(c, op)
    ensures var c' := Apply(c, op);
            && c' == c.(providers := c.providers + [op.record], graveyard := c'.graveyard)
            && forall g :: g in c'.graveyard <==> g in c.graveyard && g.id != op.record.id
  {
    SavedIs(c, op);
    DisjointShape(c.graveyard, Ids(c.providers + [op.record]));
    assert forall id :: id in Ids(c.providers + [op.record]) <==> id in Ids(c.providers) || id == op.record.id;
    hide Valid, Disjoint, Ids, PairsUnique;
  }

  // A field of a patch that is given replaces the field; a name must not become empty, and an empty kind
  // is the first one there was.
  ghost predicate PatchedTo(p: Provider, patch: Patch, q: Provider) {
    && q.id == p.id
    && q.name == (if patch.name.None? || patch.name == Some("") then p.name else patch.name.value)
    && q.nickname == (if patch.nickname.None? then p.nickname else patch.nickname.value)
    && q.kind == (if patch.kind.None? then p.kind else if patch.kind == Some("") then "claude" else patch.kind.value)
    && q.runner == (if patch.runner.None? then p.runner else patch.runner.value)
    && q.suspended == (if patch.suspended.None? then p.suspended else patch.suspended.value)
    && q.settings == (if patch.settings.None? then p.settings else patch.settings.value)
  }

  // The first other provider that is available.
  ghost predicate FirstOther(ps: seq<Provider>, id: Id, heir: Option<Id>) {
    if heir.None? then forall k :: 0 <= k < |ps| ==> ps[k].id == id || ps[k].suspended
    else exists j :: && 0 <= j < |ps| && ps[j].id == heir.value && heir != Some(id) && !ps[j].suspended
                     && forall k :: 0 <= k < j ==> ps[k].id == id || ps[k].suspended
  }

  // The patch is in the provider it names, and the others are the same up to revisions.
  ghost predicate PatchedOne(ps: seq<Provider>, id: Id, patch: Patch, qs: seq<Provider>) {
    && |qs| == |ps|
    && forall k :: 0 <= k < |ps| ==> if ps[k].id == id then PatchedTo(ps[k], patch, qs[k]) else Advanced(ps[k], qs[k])
  }

  lemma PatchReaches(ps: seq<Provider>, i: nat, patch: Patch, a: Option<Id>, b: Option<Id>)
    requires ProvidersOk(ps) && i < |ps|
    ensures PatchedOne(ps, ps[i].id, patch, Advance(Advance(ps[i := Patched(ps[i], patch)], a), b))
    ensures Ids(Advance(Advance(ps[i := Patched(ps[i], patch)], a), b)) == Ids(ps)
  {
    var q := Patched(ps[i], patch);
    var qs := ps[i := q];
    var rs := Advance(Advance(qs, a), b);
    assert PatchedTo(ps[i], patch, q);
    hide Patched, Advance;
    AdvancedTwice(qs, a, b);
    assert qs[i] == q && forall k :: 0 <= k < |qs| && k != i ==> qs[k] == ps[k];
    SameIds(ps, rs);
  }

  /** A patch goes into the provider it names and into no other; a default that it suspends passes to
      the first other provider that is available. */
  lemma UpdateProviderLeaves(c: Config, op: Op)
    requires Inv(c) && op.UpdateProvider? && Accepted(c, op)
    ensures var c' := Apply(c, op);
            && c' == c.(providers := c'.providers,
                        defaultProvider := c'.defaultProvider, defaultProfile := c'.defaultProfile)
            && PatchedOne(c.providers, op.id, op.patch, c'.providers)
            && if op.patch.suspended == Some(true) && c.defaultProvider == Some(op.id)
               then FirstOther(c.providers, op.id, c'.defaultProvider) else c'.defaultProvider == c.defaultProvider
  {
    SavedIs(c, op);
    UpdateShape(c, op.id, op.patch, op.keyChanged);
    UpdateKeeps(c, op.id, op.patch, op.keyChanged);
    var d, i := UpdateDraft(c, op.id, op.patch, op.keyChanged).config, ProviderIndex(c.providers, op.id);
    if op.patch.suspended == Some(true) && c.defaultProvider == Some(op.id) {
      HeirIsFirst(c, op.id, op.patch);
    }
    assert Draft(c, op).config == d;
    hide Draft, UpdateDraft, Valid, Patched, Heir, Advance, FirstIndex, Saved, FirstOther, PatchedOne, Ids;
    PatchReaches(c.providers, i, op.patch, Some(op.id), Heir(c, op.id, op.patch));
    SavedSame(c, d);
  }

  lemma UpdateKeeps(c: Config, id: Id, patch: Patch, keyChanged: bool)
    requires UpdateDraft(c, id, patch, keyChanged).Candidate?
    ensures var d := UpdateDraft(c, id, patch, keyChanged).config;
            d == c.(providers := d.providers, defaultProvider := d.defaultProvider, defaultProfile := d.defaultProfile)
  {
    hide FirstIndex, Advance, Heir, Patched;
  }

  lemma HeirIsFirst(c: Config, id: Id, patch: Patch)
    requires patch.suspended == Some(true) && c.defaultProvider == Some(id) && ProvidersOk(c.providers)
    requires ProviderIndex(c.providers, id) < |c.providers|
    ensures FirstOther(c.providers, id, Heir(c, id, patch))
  {
    var i := ProviderIndex(c.providers, id);
    var qs := c.providers[i := Patched(c.providers[i], patch)];
    var j := FirstIndex(qs, (p: Provider) => p.id != id && !p.suspended);
    assert Patched(c.providers[i], patch).id == id;
    assert forall k :: 0 <= k < |qs| && k != i ==> qs[k] == c.providers[k];
    hide Patched, FirstIndex;
  }

  lemma {:induction false} WithoutOne(ps: seq<Provider>, i: nat)
    requires ProvidersOk(ps) && i < |ps|
    ensures Without(ps, {ps[i].id}) == ps[..i] + ps[i + 1..]
  {
    var r := ps[1..];
    if i == 0 {
      WithoutNone(r, ps[0].id);
    } else {
      assert ProvidersOk(r) && ps[0].id != ps[i].id;
      WithoutOne(r, i - 1);
      assert r[..i - 1] == ps[1..i] && r[i..] == ps[i + 1..] && [ps[0]] + ps[1..i] == ps[..i];
      Associate([ps[0]], r[..i - 1], r[i..]);
    }
  }

  lemma {:induction false} WithoutNone(ps: seq<Provider>, id: Id)
    requires forall k :: 0 <= k < |ps| ==> ps[k].id != id
    ensures Without(ps, {id}) == ps
  {
    if ps != [] {
      WithoutNone(ps[1..], id);
    }
  }

  /** Deleting takes the provider out, buries what is to be remembered of it, and puts a tombstone on
      each of its live profiles. */
  lemma DeleteProviderLeaves(c: Config, op: Op)
    requires Inv(c) && op.DeleteProvider? && Accepted(c, op)
    ensures var c' := Apply(c, op);
            && c' == c.(providers := c'.providers, profiles := c'.profiles, graveyard := c'.graveyard)
            && c.defaultProvider != Some(op.id)
            && (exists i :: && 0 <= i < |c.providers| && c.providers[i].id == op.id
                            && c'.providers == c.providers[..i] + c.providers[i + 1..]
                            && c'.graveyard == c.graveyard + [Epitaph(c.providers[i], op.now)])
            && Withdrawn(c.profiles, c'.profiles, Ids(c'.providers), op.now)
  {
    hide Valid, Without, FirstIndex, Bury, Apply, Ids, Disjoint;
    SavedIs(c, op);
    assert Draft(c, op) == DeleteDraft(c, op.id, op.now);
    hide Draft;
    var d, i := DeleteDraft(c, op.id, op.now).config, ProviderIndex(c.providers, op.id);
    assert d.providers == Without(c.providers, {c.providers[i].id});
    DeleteParts(c, i, op.now);
    DisjointSame(d.graveyard, Ids(d.providers));
  }

  lemma DeleteParts(c: Config, i: nat, now: string)
    requires Inv(c) && i < |c.providers|
    ensures var ps, gs := Without(c.providers, {c.providers[i].id}), Bury(c.graveyard, [c.providers[i]], now);
            && ps == c.providers[..i] + c.providers[i + 1..]
            && gs == c.graveyard + [Epitaph(c.providers[i], now)]
            && forall k :: 0 <= k < |gs| ==> gs[k].id !in Ids(ps)
  {
    hide Without, Bury, Ids;
    WithoutOne(c.providers, i);
    BuriedAlone(c, i, now);
  }

  // What is remembered of a provider.
  function Epitaph(p: Provider, now: string): Grave {
    Grave(p.id, p.name, p.nickname, if p.kind == "" then "claude" else p.kind, now)
  }

  lemma NotBuried(c: Config, p: Provider)
    requires Inv(c) && p in c.providers
    ensures p.id !in GraveIds(c.graveyard)
  {
    hide Valid, PairsUnique;
    assert p.id in Ids(c.providers);
    forall g | g in c.graveyard ensures g.id != p.id {
      var k :| 0 <= k < |c.graveyard| && c.graveyard[k] == g;
    }
  }

  lemma BuriedAlone(c: Config, i: nat, now: string)
    requires Inv(c) && i < |c.providers|
    ensures Bury(c.graveyard, [c.providers[i]], now) == c.graveyard + [Epitaph(c.providers[i], now)]
    ensures var gs, ps := Bury(c.graveyard, [c.providers[i]], now), Without(c.providers, {c.providers[i].id});
            forall k :: 0 <= k < |gs| ==> gs[k].id !in Ids(ps)
  {
    var p := c.providers[i];
    NotBuried(c, p);
    assert [p][1..] == [];
    assert Graves([p], GraveIds(c.graveyard), now) == [Epitaph(p, now)];
    hide Graves, GraveIds, Valid, PairsUnique;
    WithoutShape(c.providers, {p.id});
  }

  /** Setting the default moves it, and touches nothing but revisions and the default profile. */
  lemma SetDefaultLeaves(c: Config, op: Op)
    requires Inv(c) && op.SetDefault? && Accepted(c, op)
    ensures var c' := Apply(c, op);
            && c' == c.(providers := c'.providers, defaultProvider := Some(op.id), defaultProfile := c'.defaultProfile)
            && SameProviders(c.providers, c'.providers)
  {
    var d := SetDefaultDraft(c, op.id).config;
    SavedIs(c, op);
    assert Draft(c, op).config == d;
    hide Draft, Valid, Advance, Reconcile, FirstIndex, Saved;
    var ps := Advance(Advance(c.providers, c.defaultProvider), Some(op.id));
    ReconcileKeeps(c.(providers := ps, defaultProvider := Some(op.id)));
    AdvancedTwice(c.providers, c.defaultProvider, Some(op.id));
    SameIds(c.providers, ps);
    SavedSame(c, d);
  }

  /** Activating makes the profile and its provider the defaults, and touches nothing but revisions. */
  lemma ActivateLeaves(c: Config, op: Op)
    requires Inv(c) && op.ActivateProfile? && Accepted(c, op)
    ensures var c' := Apply(c, op);
            && c' == c.(providers := c'.providers, defaultProvider := c'.defaultProvider, defaultProfile := Some(op.id))
            && SameProviders(c.providers, c'.providers)
            && exists f :: f in c.profiles && f.id == op.id && f.Live() && c'.defaultProvider == Some(f.providerId)
  {
    hide ActivateDraft, Valid, Saved, Ids, SameProviders, Apply;
    var d := ActivateDraft(c, op.id).config;
    SavedIs(c, op);
    assert Draft(c, op) == ActivateDraft(c, op.id);
    hide Draft;
    ActivateTakes(c, op.id);
    SavedSame(c, d);
  }

  lemma ActivateTakes(c: Config, id: Id)
    requires ActivateDraft(c, id).Candidate?
    ensures var d := ActivateDraft(c, id).config;
            && d == c.(providers := d.providers, defaultProvider := d.defaultProvider, defaultProfile := Some(id))
            && SameProviders(c.providers, d.providers) && Ids(d.providers) == Ids(c.providers)
            && exists f :: f in c.profiles && f.id == id && f.Live() && d.defaultProvider == Some(f.providerId)
  {
    var d := ActivateDraft(c, id).config;
    var i := ProfileIndex(c.profiles, id);
    assert c.profiles[i] in c.profiles && d.defaultProvider == Some(c.profiles[i].providerId);
    hide Advance, FirstIndex;
    AdvancedTwice(c.providers, c.defaultProvider, d.defaultProvider);
    SameIds(c.providers, d.providers);
  }

  // Nothing but the profile at i, which may be a new one at the end.
  ghost predicate OneProfile(fs: seq<Profile>, gs: seq<Profile>, i: nat) {
    && i <= |fs| && |gs| == (if i == |fs| then |fs| + 1 else |fs|)
    && forall k :: 0 <= k < |fs| && k != i ==> gs[k] == fs[k]
  }

  /** Adding a profile appends it, or revives the record there is of its pair: that keeps its id and
      its time of creation, and its name unless a new one is given. */
  lemma AddProfileLeaves(c: Config, op: Op)
    requires Inv(c) && op.AddProfile? && Accepted(c, op)
    ensures var c' := Apply(c, op);
            && c' == c.(profiles := c'.profiles)
            && exists i: nat :: && OneProfile(c.profiles, c'.profiles, i)
                           && AddedAt(c.profiles, i, op, c'.profiles[i])
  {
    var d := AddProfileDraft(c, op).config;
    SavedIs(c, op);
    AddTakes(c, op);
    assert Draft(c, op).config == d;
    hide Draft, AddProfileDraft, Valid, Saved, Ids, OneProfile, AddedAt;
    SavedSame(c, d);
  }

  lemma AddTakes(c: Config, op: Op)
    requires Inv(c) && op.AddProfile? && AddProfileDraft(c, op).Candidate?
    ensures var d := AddProfileDraft(c, op).config;
            && d == c.(profiles := d.profiles)
            && exists i: nat :: && OneProfile(c.profiles, d.profiles, i) && AddedAt(c.profiles, i, op, d.profiles[i])
  {
    var d := AddProfileDraft(c, op).config;
    var i := FirstIndex(c.profiles, (f: Profile) => f.providerId == op.providerId && f.runner == op.runner);
    assert i < |c.profiles| ==> c.profiles[i].name != "";
    hide Inv;
    assert OneProfile(c.profiles, d.profiles, i) && AddedAt(c.profiles, i, op, d.profiles[i]);
  }

  ghost predicate AddedAt(fs: seq<Profile>, i: nat, op: Op, f: Profile)
    requires i <= |fs| && op.AddProfile?
  {
    && f.providerId == op.providerId && f.runner == op.runner && f.Live()
    && f.model == op.model && f.effort == op.effort && f.updatedAt == op.now
    && if i == |fs| then
         && f.id == op.newId && f.createdAt == op.now && f.name == (if op.name == "" then op.caption else op.name)
         && forall k :: 0 <= k < |fs| ==> !SamePair(fs[k], f)
       else
         && f.id == fs[i].id && f.createdAt == fs[i].createdAt && !fs[i].Live()
         && f.name == if op.name == "" then fs[i].name else op.name
  }

  /** Patching a profile sets its name, model and effort, and touches no other. */
  lemma UpdateProfileLeaves(c: Config, op: Op)
    requires Inv(c) && op.UpdateProfile? && Accepted(c, op)
    ensures var c' := Apply(c, op);
            && c' == c.(profiles := c'.profiles)
            && exists i: nat :: && OneProfile(c.profiles, c'.profiles, i) && i < |c.profiles|
                           && c.profiles[i].id == op.id && c.profiles[i].Live()
                           && PatchedProfile(c.profiles[i], op, c'.profiles[i])
  {
    var d, i := UpdateProfileDraft(c, op).config, ProfileIndex(c.profiles, op.id);
    SavedIs(c, op);
    assert Draft(c, op).config == d;
    assert OneProfile(c.profiles, d.profiles, i) && PatchedProfile(c.profiles[i], op, d.profiles[i]);
    hide Draft, UpdateProfileDraft, Valid, FirstIndex, Saved;
    SavedSame(c, d);
  }

  ghost predicate PatchedProfile(f: Profile, op: Op, g: Profile)
    requires op.UpdateProfile?
  {
    && g.model == op.model && g.effort == op.effort && g.updatedAt == op.now
    && g.name == (if op.newName.None? then f.name else if op.newName == Some("") then op.caption else op.newName.value)
    && g.id == f.id && SamePair(f, g) && g.createdAt == f.createdAt && g.deletedAt == f.deletedAt
  }

  /** Deleting a profile puts a tombstone on it, and touches no other. */
  lemma DeleteProfileLeaves(c: Config, op: Op)
    requires Inv(c) && op.DeleteProfile? && Accepted(c, op)
    ensures var c' := Apply(c, op);
            && c' == c.(profiles := c'.profiles)
            && exists i: nat :: && OneProfile(c.profiles, c'.profiles, i) && i < |c.profiles|
                           && c.profiles[i].id == op.id && c.profiles[i].Live()
                           && c'.profiles[i] == c.profiles[i].(deletedAt := Some(op.now), updatedAt := op.now)
  {
    var d, i := DeleteProfileDraft(c, op.id, op.now).config, ProfileIndex(c.profiles, op.id);
    SavedIs(c, op);
    assert Draft(c, op).config == d;
    assert OneProfile(c.profiles, d.profiles, i);
    hide Draft, DeleteProfileDraft, Valid, FirstIndex, Saved;
    SavedSame(c, d);
  }

  /** An import replaces the providers and the default, buries the providers it withdraws, brings
      back those it has, and puts a tombstone on the live profiles of the ones withdrawn. */
  lemma ImportLeaves(c: Config, op: Op)
    requires Inv(c) && op.ImportSync? && op.now != "" && Accepted(c, op)
    ensures var c' := Apply(c, op);
            && c'.providers == op.incoming && c'.defaultProvider == op.incomingDefault
            && Withdrawn(c.profiles, c'.profiles, Ids(op.incoming), op.now)
            && forall g :: g in c'.graveyard <==>
                 && g.id !in Ids(op.incoming)
                 && (g in c.graveyard || exists p :: p in c.providers && g == Epitaph(p, op.now))
  {
    var known := Ids(op.incoming);
    var d := ImportDraft(c, op.incoming, op.incomingDefault, op.now).config;
    var ws := Without(c.providers, known);
    var gs := Bury(c.graveyard, ws, op.now);
    SavedIs(c, op);
    assert Draft(c, op).config == d;
    ReconcileKeeps(c.(providers := op.incoming, defaultProvider := op.incomingDefault, graveyard := gs,
                      profiles := TombstoneOrphans(c.profiles, known, op.now)));
    hide Draft, Valid, Reconcile;
    DisjointShape(gs, known);
    WithoutShape(c.providers, known);
    BuriedAre(c, ws, op.now);
    hide Disjoint, Bury, Without, TombstoneOrphans, Ids, Inv;
  }

  lemma BuriedAre(c: Config, ws: seq<Provider>, now: string)
    requires Inv(c) && ProvidersOk(ws) && now != "" && forall w :: w in ws ==> w in c.providers
    ensures forall g :: g in Bury(c.graveyard, ws, now) <==>
              g in c.graveyard || exists p :: p in ws && g == Epitaph(p, now)
  {
    GravesShape(ws, GraveIds(c.graveyard), now);
    forall p | p in ws ensures p.id !in GraveIds(c.graveyard) && GraveOf(p, now) == Epitaph(p, now) {
      NotBuried(c, p);
    }
    hide Graves, GraveIds, Valid, PairsUnique, GraveOf;
  }

  // ---------------------------------------------------------------- the installer's selection

  ghost predicate UpToRevisions(ps: seq<Provider>, qs: seq<Provider>) {
    exists a, b :: qs == Advance(Advance(ps, a), b)
  }

  // What the selection leaves to save: the providers made available, up to revisions, and the
  // default, which stays or becomes the choice.
  lemma SelectDraftShape(c: Config, kind: string, makeDefault: bool, record: Provider)
    requires Inv(c) && WellSupplied(c, Op.SelectInstallation(kind, makeDefault, record))
    ensures var (ps, i), d := MadeAvailable(c, kind, record), SelectDraft(c, kind, makeDefault, record);
            var c' := if d.Candidate? then d.config else c;
            && UpToRevisions(ps, c'.providers)
            && c'.defaultProvider
               == if makeDefault || c.defaultProvider.None? then Some(ps[i].id) else c.defaultProvider
  {
    var (ps, i) := MadeAvailable(c, kind, record);
    var prev, id := c.defaultProvider, Some(ps[i].id);
    AvailableOk(c, kind, record);
    hide Advance, MadeAvailable, WellSupplied, Ids, Inv, Valid;
    if id != prev && (makeDefault || prev.None?) {
      var qs := if i == |c.providers| then Advance(ps, prev) else Advance(Advance(ps, prev), id);
      ReconcileKeeps(c.(providers := qs, defaultProvider := id));
      AdvanceNone(Advance(ps, prev));
      assert qs == Advance(Advance(ps, prev), if i == |c.providers| then None else id);
    } else {
      AdvanceNone(ps);
      AdvanceNone(Advance(ps, id));
      assert Advance(Advance(ps, id), None) == Advance(ps, id) && Advance(Advance(ps, None), None) == ps;
      if i < |c.providers| && !c.providers[i].suspended {
        NothingToWake(c, kind, record);
      }
    }
  }

  lemma SelectShape(c: Config, kind: string, makeDefault: bool, record: Provider)
    requires Inv(c) && WellSupplied(c, Op.SelectInstallation(kind, makeDefault, record))
    ensures var (ps, i) := MadeAvailable(c, kind, record);
            var c' := Apply(c, Op.SelectInstallation(kind, makeDefault, record));
            && UpToRevisions(ps, c'.providers)
            && c'.defaultProvider
               == if makeDefault || c.defaultProvider.None? then Some(ps[i].id) else c.defaultProvider
  {
    SelectDraftShape(c, kind, makeDefault, record);
    OnSelect(c, Op.SelectInstallation(kind, makeDefault, record));
    hide MadeAvailable, SelectDraft, UpToRevisions, Valid, PairsUnique, Disjoint;
  }

  lemma AdvanceNone(qs: seq<Provider>)
    ensures Advance(qs, None) == qs
  {
  }

  lemma NothingToWake(c: Config, kind: string, record: Provider)
    requires var i := MadeAvailable(c, kind, record).1; i < |c.providers| && !c.providers[i].suspended
    ensures MadeAvailable(c, kind, record).0 == c.providers
  {
    var i := MadeAvailable(c, kind, record).1;
    assert c.providers[i].(suspended := false) == c.providers[i];
  }

  // The first provider of the kind, or the end of the list.
  ghost predicate FirstOfKind(ps: seq<Provider>, kind: string, i: nat) {
    && i <= |ps| && (i < |ps| ==> ps[i].kind == kind)
    && forall k :: 0 <= k < i ==> ps[k].kind != kind
  }

  // The provider at i is available, appended as given if it is new; the others are as they were, up to revisions.
  ghost predicate SelectedAt(ps: seq<Provider>, i: nat, record: Provider, qs: seq<Provider>) {
    && i <= |ps| && |qs| == (if i == |ps| then |ps| + 1 else |ps|)
    && Advanced(if i == |ps| then record else ps[i].(suspended := false), qs[i])
    && forall k :: 0 <= k < |ps| && k != i ==> Advanced(ps[k], qs[k])
  }

  lemma SelectTakes(ps: seq<Provider>, i: nat, record: Provider, qs: seq<Provider>)
    requires i <= |ps| && !record.suspended
    requires var all := if i == |ps| then ps + [record] else ps;
             UpToRevisions(all[i := all[i].(suspended := false)], qs)
    ensures SelectedAt(ps, i, record, qs)
  {
    var all := if i == |ps| then ps + [record] else ps;
    var rs := all[i := all[i].(suspended := false)];
    hide Advance;
    var a, b :| qs == Advance(Advance(rs, a), b);
    AdvancedTwice(rs, a, b);
    assert forall k :: 0 <= k < |ps| && k != i ==> rs[k] == ps[k];
    assert record.(suspended := false) == record;
  }

  /** Selecting makes the first provider of the kind available, creating it only if there is none, and the
      default when that is asked for or there was none; it touches no other provider and no profile. */
  lemma SelectLeaves(c: Config, op: Op)
    requires Inv(c) && WellSupplied(c, op) && op.SelectInstallation? && Accepted(c, op)
    ensures var c' := Apply(c, op);
            && c'.profiles == c.profiles
            && (exists i: nat ::
                  && FirstOfKind(c.providers, op.kind, i) && SelectedAt(c.providers, i, op.record, c'.providers)
                  && c'.defaultProvider == if op.makeDefault || c.defaultProvider.None?
                                           then Some(c'.providers[i].id) else c.defaultProvider)
            && forall g :: g in c'.graveyard <==> g in c.graveyard && g.id !in Ids(c'.providers)
  {
    hide Draft, SelectDraft, MadeAvailable, Apply, Valid, Disjoint, Ids;
    hide UpToRevisions, FirstIndex, FirstOfKind, SelectedAt;
    SavedIs(c, op);
    DraftOfSelect(c, op);
    var i := MadeAvailable(c, op.kind, op.record).1;
    var d := SelectDraft(c, op.kind, op.makeDefault, op.record).config;
    SelectKeeps(c, op.kind, op.makeDefault, op.record);
    SelectDraftShape(c, op.kind, op.makeDefault, op.record);
    AvailableAt(c, op.kind, op.record, d.providers);
    DisjointShape(d.graveyard, Ids(d.providers));
  }

  lemma DraftOfSelect(c: Config, op: Op)
    requires op.SelectInstallation?
    ensures Draft(c, op) == SelectDraft(c, op.kind, op.makeDefault, op.record)
  {
    hide SelectDraft;
  }

  lemma AvailableAt(c: Config, kind: string, record: Provider, qs: seq<Provider>)
    requires !record.suspended && UpToRevisions(MadeAvailable(c, kind, record).0, qs)
    ensures var (ps, i) := MadeAvailable(c, kind, record);
            FirstOfKind(c.providers, kind, i) && SelectedAt(c.providers, i, record, qs) && ps[i].id == qs[i].id
  {
    hide UpToRevisions, FirstIndex, SelectedAt;
    var (ps, i) := MadeAvailable(c, kind, record);
    SelectTakes(c.providers, i, record, qs);
    hide MadeAvailable;
    SameIdAt(c.providers, i, record, qs);
  }

  lemma SameIdAt(ps: seq<Provider>, i: nat, record: Provider, qs: seq<Provider>)
    requires SelectedAt(ps, i, record, qs)
    ensures qs[i].id == if i == |ps| then record.id else ps[i].id
  {
  }

  lemma SelectKeeps(c: Config, kind: string, makeDefault: bool, record: Provider)
    requires SelectDraft(c, kind, makeDefault, record).Candidate?
    ensures var d := SelectDraft(c, kind, makeDefault, record).config;
            d.profiles == c.profiles && d.graveyard == c.graveyard
  {
    hide Advance, MadeAvailable, FirstIndex, Ids;
  }

  // ---------------------------------------------------------------- when there is something to save

  // A known provider that the patch, or a new key, changes.
  ghost predicate PatchChanges(c: Config, id: Id, patch: Patch, keyChanged: bool) {
    exists p :: p in c.providers && p.id == id && (keyChanged || !PatchedTo(p, patch, p))
  }

  lemma UpdatesExactly(c: Config, id: Id, patch: Patch, keyChanged: bool)
    requires ProvidersOk(c.providers)
    ensures UpdateDraft(c, id, patch, keyChanged).Candidate? <==> PatchChanges(c, id, patch, keyChanged)
  {
    var i := ProviderIndex(c.providers, id);
    if i < |c.providers| {
      assert c.providers[i] in c.providers;
      assert Patched(c.providers[i], patch) == c.providers[i] <==> PatchedTo(c.providers[i], patch, c.providers[i]);
    }
    hide Patched, PatchedTo, Advance, Reconcile, Heir, FirstIndex;
  }

  // A live profile whose name, model or effort changes.
  ghost predicate ProfileChanges(c: Config, op: Op)
    requires op.UpdateProfile?
  {
    exists f :: && f in c.profiles && f.id == op.id && f.Live()
                && !(f.model == op.model && f.effort == op.effort
                     && f.name == (if op.newName.None? then f.name
                                   else if op.newName == Some("") then op.caption else op.newName.value))
  }

  lemma UpdatesProfileExactly(c: Config, op: Op)
    requires Inv(c) && op.UpdateProfile?
    ensures UpdateProfileDraft(c, op).Candidate? <==> ProfileChanges(c, op)
  {
    var i := ProfileIndex(c.profiles, op.id);
    if i < |c.profiles| {
      assert c.profiles[i] in c.profiles;
      if c.profiles[i].Live() {
        var k :| 0 <= k < |c.providers| && c.providers[k].id == c.profiles[i].providerId;
        assert ProviderIndex(c.providers, c.profiles[i].providerId) <= k;
      }
    }
    hide FirstIndex, PairsUnique;
  }

  /** A selection is saved exactly when the kind is new, or its first provider was not available, or the
      default moves to it. */
  lemma SelectsExactly(c: Config, kind: string, makeDefault: bool, record: Provider)
    requires Inv(c) && WellSupplied(c, SelectInstallation(kind, makeDefault, record))
    ensures SelectDraft(c, kind, makeDefault, record).Candidate? <==>
              exists i: nat :: FirstOfKind(c.providers, kind, i)
                && (i == |c.providers| || c.providers[i].suspended
                    || (c.defaultProvider != Some(c.providers[i].id) && (makeDefault || c.defaultProvider.None?)))
  {
    AvailableOk(c, kind, record);
    var (ps, i) := MadeAvailable(c, kind, record);
    assert FirstOfKind(c.providers, kind, i);
    assert forall k: nat :: FirstOfKind(c.providers, kind, k) ==> k == i;
    assert i < |c.providers| ==> ps[i].id == c.providers[i].id;
    hide MadeAvailable, FirstOfKind, Advance, Reconcile, Ids, Inv;
  }
}
