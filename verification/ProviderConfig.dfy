/** The provider configuration of `config_store.py`: providers, the default provider, runtime
    profiles with tombstones, and the graveyard of deleted providers.

    `Valid` is what `_normalize_loaded_state` accepts. Every mutation builds a candidate state,
    asks that validator, and saves; `Draft` is the candidate, `Apply` the whole mutation. */
module ProviderConfig {
  import opened Sequences
  import opened Wrappers

  type Id = string

  // `settings` stands for the fields no rule below looks at (mode, urls, models, permissions).
  datatype Provider = Provider(id: Id, name: string, nickname: string, kind: string, runner: string,
                               suspended: bool, settings: string, revision: nat)

  datatype Profile = Profile(id: Id, providerId: Id, runner: string, name: string, model: string,
                             effort: string, createdAt: string, updatedAt: string, deletedAt: Option<string>) {
    predicate Live() {
      deletedAt.None?
    }
  }

  datatype Grave = Grave(id: Id, name: string, nickname: string, kind: string, deletedAt: string)

  datatype Config = Config(providers: seq<Provider>, defaultProvider: Option<Id>,
                           profiles: seq<Profile>, defaultProfile: Option<Id>, graveyard: seq<Grave>)

  function ProviderIndex(ps: seq<Provider>, id: Id): nat {
    FirstIndex(ps, (p: Provider) => p.id == id)
  }

  function ProfileIndex(fs: seq<Profile>, id: Id): nat {
    FirstIndex(fs, (f: Profile) => f.id == id)
  }

  function Ids(ps: seq<Provider>): set<Id> {
    set p | p in ps :: p.id
  }

  // ---------------------------------------------------------------- the validator's conditions

  ghost predicate ProvidersOk(ps: seq<Provider>) {
    && (forall i :: 0 <= i < |ps| ==> ps[i].id != "")
    && (forall i, j :: 0 <= i < j < |ps| ==> ps[i].id != ps[j].id)
  }

  // The default exists and is not suspended, or there is none and nothing is available.
  ghost predicate DefaultOk(ps: seq<Provider>, d: Option<Id>) {
    match d
    case Some(id) => exists i :: 0 <= i < |ps| && ps[i].id == id && !ps[i].suspended
    case None => forall i :: 0 <= i < |ps| ==> ps[i].suspended
  }

  ghost predicate ProfileFieldsOk(f: Profile) {
    && f.id != "" && f.providerId != "" && f.runner != "" && f.name != ""
    && f.createdAt != "" && f.updatedAt != "" && f.deletedAt != Some("")
  }

  ghost predicate SamePair(f: Profile, g: Profile) {
    f.providerId == g.providerId && f.runner == g.runner
  }

  ghost predicate ProfilesOk(fs: seq<Profile>, known: set<Id>) {
    && (forall i :: 0 <= i < |fs| ==> ProfileFieldsOk(fs[i]) && (fs[i].Live() ==> fs[i].providerId in known))
    && (forall i, j :: 0 <= i < j < |fs| ==> fs[i].id != fs[j].id)
    && (forall i, j :: 0 <= i < j < |fs| && fs[i].Live() && fs[j].Live() ==> !SamePair(fs[i], fs[j]))
  }

  ghost predicate DefaultProfileOk(fs: seq<Profile>, df: Option<Id>, d: Option<Id>) {
    df.Some? ==> exists i :: 0 <= i < |fs| && fs[i].id == df.value && fs[i].Live() && Some(fs[i].providerId) == d
  }

  ghost predicate GravesOk(gs: seq<Grave>, known: set<Id>) {
    && (forall i :: 0 <= i < |gs| ==>
          gs[i].id != "" && (gs[i].id !in known ==> gs[i].kind != "" && gs[i].deletedAt != ""))
    && GravesDistinct(gs)
  }

  ghost predicate GravesDistinct(gs: seq<Grave>) {
    forall i, j :: 0 <= i < j < |gs| ==> gs[i].id != gs[j].id
  }

  ghost predicate Valid(c: Config) {
    && ProvidersOk(c.providers)
    && DefaultOk(c.providers, c.defaultProvider)
    && ProfilesOk(c.profiles, Ids(c.providers))
    && DefaultProfileOk(c.profiles, c.defaultProfile, c.defaultProvider)
    && GravesOk(c.graveyard, Ids(c.providers))
  }

  // Saving drops the graves of providers that are live again.
  function Disjoint(gs: seq<Grave>, known: set<Id>): seq<Grave> {
    if gs == [] then []
    else (if gs[0].id in known then [] else [gs[0]]) + Disjoint(gs[1..], known)
  }

  function Saved(c: Config): Config {
    c.(graveyard := Disjoint(c.graveyard, Ids(c.providers)))
  }

  // What the mutations keep: the validator's conditions, at most one profile record per
  // (provider, runner) pair, live or not, and a graveyard apart from the live providers.
  ghost predicate PairsUnique(fs: seq<Profile>) {
    forall i, j :: 0 <= i < j < |fs| ==> !SamePair(fs[i], fs[j])
  }

  ghost predicate Inv(c: Config) {
    && Valid(c)
    && PairsUnique(c.profiles)
    && (forall i :: 0 <= i < |c.graveyard| ==> c.graveyard[i].id !in Ids(c.providers))
  }

  // ---------------------------------------------------------------- building candidates

  function Tombstone(f: Profile, now: string): Profile {
    f.(deletedAt := Some(now), updatedAt := now)
  }

  function TombstoneOrphans(fs: seq<Profile>, known: set<Id>, now: string): (r: seq<Profile>)
    ensures |r| == |fs|
    ensures forall i :: 0 <= i < |fs| ==>
              r[i] == if fs[i].Live() && fs[i].providerId !in known then Tombstone(fs[i], now) else fs[i]
  {
    seq(|fs|, i requires 0 <= i < |fs| =>
      if fs[i].Live() && fs[i].providerId !in known then Tombstone(fs[i], now) else fs[i])
  }

  function Or(s: string, default: string): string {
    if s == "" then default else s
  }

  function GraveOf(p: Provider, now: string): Grave {
    Grave(p.id, p.name, p.nickname, Or(p.kind, "claude"), now)
  }

  function Graves(withdrawn: seq<Provider>, buried: set<Id>, now: string): seq<Grave> {
    if withdrawn == [] then []
    else (if withdrawn[0].id in buried then [] else [GraveOf(withdrawn[0], now)])
         + Graves(withdrawn[1..], buried, now)
  }

  function GraveIds(gs: seq<Grave>): set<Id> {
    set g | g in gs :: g.id
  }

  function Bury(gs: seq<Grave>, withdrawn: seq<Provider>, now: string): seq<Grave> {
    gs + Graves(withdrawn, GraveIds(gs), now)
  }

  function Without(ps: seq<Provider>, drop: set<Id>): seq<Provider> {
    if ps == [] then []
    else (if ps[0].id in drop then [] else [ps[0]]) + Without(ps[1..], drop)
  }

  // Re-derive the default profile after the default provider or the profiles changed.
  function Reconcile(c: Config): Config {
    var i := FirstIndex(c.profiles, (f: Profile) => Some(f.id) == c.defaultProfile);
    if i < |c.profiles| && c.profiles[i].Live() && Some(c.profiles[i].providerId) == c.defaultProvider then c
    else if c.defaultProvider.None? then c.(defaultProfile := None)
    else
      var d := c.defaultProvider.value;
      var p := ProviderIndex(c.providers, d);
      if p == |c.providers| then c.(defaultProfile := None)
      else
        var runner := c.providers[p].runner;
        var j := FirstIndex(c.profiles, (f: Profile) => f.providerId == d && f.runner == runner && f.Live());
        c.(defaultProfile := if j < |c.profiles| then Some(c.profiles[j].id) else None)
  }

  function Advance(ps: seq<Provider>, id: Option<Id>): seq<Provider> {
    if id.None? then ps
    else
      var i := ProviderIndex(ps, id.value);
      if i < |ps| then ps[i := ps[i].(revision := ps[i].revision + 1)] else ps
  }

  datatype Patch = Patch(name: Option<string>, nickname: Option<string>, kind: Option<string>,
                         runner: Option<string>, suspended: Option<bool>, settings: Option<string>)

  function Get<T>(o: Option<T>, default: T): T {
    if o.Some? then o.value else default
  }

  function Patched(p: Provider, patch: Patch): Provider {
    p.(name := Or(Get(patch.name, p.name), p.name),
       nickname := Get(patch.nickname, p.nickname),
       kind := if patch.kind.Some? then Or(patch.kind.value, "claude") else p.kind,
       runner := Get(patch.runner, p.runner),
       suspended := Get(patch.suspended, p.suspended),
       settings := Get(patch.settings, p.settings))
  }

  // The runner of an added profile is what the provider resolves the request to, empty if it is missing
  // or not supported.
  datatype Op =
    | AddProvider(record: Provider)
    | UpdateProvider(id: Id, patch: Patch, keyChanged: bool)
    | DeleteProvider(id: Id, now: string)
    | SetDefault(id: Id)
    | AddProfile(providerId: Id, runner: string, name: string, caption: string, model: string, effort: string,
                 newId: Id, now: string)
    | UpdateProfile(id: Id, newName: Option<string>, caption: string, model: string, effort: string, now: string)
    | DeleteProfile(id: Id, now: string)
    | ActivateProfile(id: Id)
    | ImportSync(incoming: seq<Provider>, incomingDefault: Option<Id>, now: string)
    | SelectInstallation(kind: string, makeDefault: bool, record: Provider)

  // Refused: missing, conflicting or forbidden. Unchanged: nothing to save.
  datatype Outcome = Refused | Unchanged | Candidate(config: Config)

  // Who becomes the default when this patch suspends the default provider.
  function Heir(c: Config, id: Id, patch: Patch): Option<Id> {
    var i := ProviderIndex(c.providers, id);
    if i == |c.providers| || patch.suspended != Some(true) || c.defaultProvider != Some(id) then None
    else
      var qs := c.providers[i := Patched(c.providers[i], patch)];
      var j := FirstIndex(qs, (p: Provider) => p.id != id && !p.suspended);
      if j < |qs| then Some(qs[j].id) else None
  }

  function UpdateDraft(c: Config, id: Id, patch: Patch, keyChanged: bool): Outcome {
    var i := ProviderIndex(c.providers, id);
    if i == |c.providers| then Refused
    else
      var target := Patched(c.providers[i], patch);
      var c1 := c.(providers := c.providers[i := target]);
      var losesDefault := patch.suspended == Some(true) && c.defaultProvider == Some(id);
      var heir := Heir(c, id, patch);
      var c2 := if losesDefault then Reconcile(c1.(defaultProvider := heir)) else c1;
      if target == c.providers[i] && !keyChanged then Unchanged
      else Candidate(c2.(providers := Advance(Advance(c2.providers, Some(id)), heir)))
  }

  function DeleteDraft(c: Config, id: Id, now: string): Outcome {
    var i := ProviderIndex(c.providers, id);
    if i == |c.providers| || c.defaultProvider == Some(id) then Refused
    else
      var ps := Without(c.providers, {id});
      Candidate(c.(providers := ps,
                   graveyard := Bury(c.graveyard, [c.providers[i]], now),
                   profiles := TombstoneOrphans(c.profiles, Ids(ps), now)))
  }

  function SetDefaultDraft(c: Config, id: Id): Outcome {
    var i := ProviderIndex(c.providers, id);
    if i == |c.providers| || c.providers[i].suspended then Refused
    else if c.defaultProvider == Some(id) then Unchanged
    else
      var ps := Advance(Advance(c.providers, c.defaultProvider), Some(id));
      Candidate(Reconcile(c.(providers := ps, defaultProvider := Some(id))))
  }

  function AddProfileDraft(c: Config, op: Op): Outcome
    requires op.AddProfile?
  {
    var p := ProviderIndex(c.providers, op.providerId);
    var i := FirstIndex(c.profiles, (f: Profile) => f.providerId == op.providerId && f.runner == op.runner);
    if p == |c.providers| || op.runner == "" then Refused
    else if i == |c.profiles| then
      var name := Or(op.name, op.caption);
      var f := Profile(op.newId, op.providerId, op.runner, name, op.model, op.effort, op.now, op.now, None);
      Candidate(c.(profiles := c.profiles + [f]))
    else if c.profiles[i].Live() then Refused
    else
      var f := c.profiles[i];
      var name := Or(op.name, Or(f.name, op.caption));
      var f' := f.(deletedAt := None, name := name, model := op.model, effort := op.effort, updatedAt := op.now);
      Candidate(c.(profiles := c.profiles[i := f']))
  }

  function UpdateProfileDraft(c: Config, op: Op): Outcome
    requires op.UpdateProfile?
  {
    var i := ProfileIndex(c.profiles, op.id);
    if i == |c.profiles| || !c.profiles[i].Live()
       || ProviderIndex(c.providers, c.profiles[i].providerId) == |c.providers| then Refused
    else
      var f := c.profiles[i];
      var name := if op.newName.Some? then Or(op.newName.value, op.caption) else f.name;
      var f' := f.(name := name, model := op.model, effort := op.effort);
      if f' == f then Unchanged
      else Candidate(c.(profiles := c.profiles[i := f'.(updatedAt := op.now)]))
  }

  function DeleteProfileDraft(c: Config, id: Id, now: string): Outcome {
    var i := ProfileIndex(c.profiles, id);
    if i == |c.profiles| || !c.profiles[i].Live() || c.defaultProfile == Some(id) then Refused
    else Candidate(c.(profiles := c.profiles[i := Tombstone(c.profiles[i], now)]))
  }

  function ActivateDraft(c: Config, id: Id): Outcome {
    var i := ProfileIndex(c.profiles, id);
    if i == |c.profiles| || !c.profiles[i].Live() then Refused
    else
      var d := c.profiles[i].providerId;
      var p := ProviderIndex(c.providers, d);
      if p == |c.providers| || c.providers[p].suspended then Refused
      else if c.defaultProfile == Some(id) && c.defaultProvider == Some(d) then Unchanged
      else
        var ps := if c.defaultProvider == Some(d) then c.providers
                  else Advance(Advance(c.providers, c.defaultProvider), Some(d));
        Candidate(c.(providers := ps, defaultProvider := Some(d), defaultProfile := Some(id)))
  }

  // The payload checks of `_canonical_provider_sync_snapshot`.
  ghost predicate SnapshotOk(ps: seq<Provider>, d: Option<Id>) {
    ProvidersOk(ps) && (d.Some? ==> exists i :: 0 <= i < |ps| && ps[i].id == d.value && !ps[i].suspended)
  }

  ghost function ImportDraft(c: Config, ps: seq<Provider>, d: Option<Id>, now: string): Outcome {
    if !SnapshotOk(ps, d) then Refused
    else
      Candidate(Reconcile(c.(providers := ps, defaultProvider := d,
                             graveyard := Bury(c.graveyard, Without(c.providers, Ids(ps)), now),
                             profiles := TombstoneOrphans(c.profiles, Ids(ps), now))))
  }

  // The installer's choice made available: created at the end, or un-suspended in place.
  function MadeAvailable(c: Config, kind: string, record: Provider): (r: (seq<Provider>, nat))
    ensures r.1 < |r.0|
  {
    var i := FirstIndex(c.providers, (p: Provider) => p.kind == kind);
    var all := if i == |c.providers| then c.providers + [record] else c.providers;
    (all[i := all[i].(suspended := false)], i)
  }

  function SelectDraft(c: Config, kind: string, makeDefault: bool, record: Provider): Outcome {
    var (ps, i) := MadeAvailable(c, kind, record);
    var created := i == |c.providers|;
    var id := ps[i].id;
    var prev := c.defaultProvider;
    if Some(id) != prev && (makeDefault || prev.None? || prev.value !in Ids(ps)) then
      var ps2 := Advance(ps, prev);
      Candidate(Reconcile(c.(providers := if created then ps2 else Advance(ps2, Some(id)),
                             defaultProvider := Some(id))))
    else if created then Candidate(c.(providers := ps))
    else if c.providers[i].suspended then Candidate(c.(providers := Advance(ps, Some(id))))
    else Unchanged
  }

  ghost function Draft(c: Config, op: Op): Outcome {
    match op
    case AddProvider(record) => Candidate(c.(providers := c.providers + [record]))
    case UpdateProvider(id, patch, keyChanged) => UpdateDraft(c, id, patch, keyChanged)
    case DeleteProvider(id, now) => DeleteDraft(c, id, now)
    case SetDefault(id) => SetDefaultDraft(c, id)
    case AddProfile(_, _, _, _, _, _, _, _) => AddProfileDraft(c, op)
    case UpdateProfile(_, _, _, _, _, _) => UpdateProfileDraft(c, op)
    case DeleteProfile(id, now) => DeleteProfileDraft(c, id, now)
    case ActivateProfile(id) => ActivateDraft(c, id)
    case ImportSync(ps, d, now) => ImportDraft(c, ps, d, now)
    case SelectInstallation(kind, makeDefault, record) => SelectDraft(c, kind, makeDefault, record)
  }

  // What the callers of a mutation supply: clocks that read something, labels that are not empty,
  // and uuids that occur nowhere else.
  ghost predicate WellSupplied(c: Config, op: Op) {
    match op
    case AddProvider(r) => r.id != "" && r.id !in Ids(c.providers)
    case SelectInstallation(kind, _, r) => r.id != "" && r.id !in Ids(c.providers) && r.kind == kind && !r.suspended
    case AddProfile(_, _, _, caption, _, _, newId, now) =>
      caption != "" && now != "" && newId != "" && forall i :: 0 <= i < |c.profiles| ==> c.profiles[i].id != newId
    case UpdateProfile(_, _, caption, _, _, now) => caption != "" && now != ""
    case DeleteProvider(_, now) => now != ""
    case DeleteProfile(_, now) => now != ""
    case ImportSync(_, _, now) => now != ""
    case _ => true
  }

  ghost function Apply(c: Config, op: Op): Config {
    match Draft(c, op)
    case Candidate(d) => if Valid(d) then Saved(d) else c
    case _ => c
  }

  // ---------------------------------------------------------------- the pieces

  // Same provider up to its revision, which does not fall.
  ghost predicate Advanced(p: Provider, q: Provider) {
    q == p.(revision := q.revision) && q.revision >= p.revision
  }

  lemma AdvanceShape(ps: seq<Provider>, id: Option<Id>)
    ensures |Advance(ps, id)| == |ps|
    ensures forall i :: 0 <= i < |ps| ==> Advanced(ps[i], Advance(ps, id)[i])
    ensures forall i :: 0 <= i < |ps| && Some(ps[i].id) != id ==> Advance(ps, id)[i] == ps[i]
    ensures ProvidersOk(ps) ==>
              forall i :: 0 <= i < |ps| && Some(ps[i].id) == id ==> Advance(ps, id)[i].revision == ps[i].revision + 1
  {
  }

  lemma SameIds(ps: seq<Provider>, qs: seq<Provider>)
    requires |ps| == |qs| && forall i :: 0 <= i < |ps| ==> ps[i].id == qs[i].id
    ensures Ids(ps) == Ids(qs)
  {
    forall id | id in Ids(ps) ensures id in Ids(qs) {
      var i :| 0 <= i < |ps| && ps[i].id == id;
      assert qs[i] in qs;
    }
    forall id | id in Ids(qs) ensures id in Ids(ps) {
      var i :| 0 <= i < |qs| && qs[i].id == id;
      assert ps[i] in ps;
    }
  }

  lemma AdvanceKeeps(ps: seq<Provider>, id: Option<Id>, d: Option<Id>)
    ensures Ids(Advance(ps, id)) == Ids(ps)
    ensures ProvidersOk(ps) ==> ProvidersOk(Advance(ps, id))
    ensures DefaultOk(ps, d) <==> DefaultOk(Advance(ps, id), d)
  {
    AdvanceShape(ps, id);
    SameIds(ps, Advance(ps, id));
  }

  lemma ReconcileKeeps(c: Config)
    ensures Reconcile(c) == c.(defaultProfile := Reconcile(c).defaultProfile)
    ensures DefaultProfileOk(c.profiles, Reconcile(c).defaultProfile, c.defaultProvider)
  {
  }

  lemma TombstoneKeeps(fs: seq<Profile>, before: set<Id>, known: set<Id>, now: string)
    requires ProfilesOk(fs, before) && now != ""
    ensures ProfilesOk(TombstoneOrphans(fs, known, now), known)
    ensures PairsUnique(fs) ==> PairsUnique(TombstoneOrphans(fs, known, now))
  {
  }

  lemma {:induction false} WithoutShape(ps: seq<Provider>, drop: set<Id>)
    ensures forall p :: p in Without(ps, drop) <==> p in ps && p.id !in drop
    ensures ProvidersOk(ps) ==> ProvidersOk(Without(ps, drop))
  {
    if ps != [] {
      WithoutShape(ps[1..], drop);
      var r := Without(ps[1..], drop);
      assert ps == [ps[0]] + ps[1..];
      if ProvidersOk(ps) {
        forall j | 0 <= j < |r| ensures r[j].id != ps[0].id {
          assert r[j] in ps[1..];
        }
      }
    }
  }

  lemma DistinctConcat(a: seq<Grave>, b: seq<Grave>)
    requires GravesDistinct(a) && GravesDistinct(b)
    requires forall i, j :: 0 <= i < |a| && 0 <= j < |b| ==> a[i].id != b[j].id
    ensures GravesDistinct(a + b)
  {
  }

  lemma {:induction false} GravesShape(ws: seq<Provider>, buried: set<Id>, now: string)
    requires ProvidersOk(ws) && now != ""
    ensures forall g :: g in Graves(ws, buried, now) <==>
              exists i :: 0 <= i < |ws| && ws[i].id !in buried && g == GraveOf(ws[i], now)
    ensures GravesDistinct(Graves(ws, buried, now))
  {
    if ws != [] {
      GravesShape(ws[1..], buried, now);
      GravesShapeCons(ws, buried, now, Graves(ws[1..], buried, now));
    }
  }

  lemma GravesShapeCons(ws: seq<Provider>, buried: set<Id>, now: string, r: seq<Grave>)
    requires ws != [] && ProvidersOk(ws) && now != "" && GravesDistinct(r)
    requires forall g :: g in r <==>
               exists i :: 0 <= i < |ws[1..]| && ws[1..][i].id !in buried && g == GraveOf(ws[1..][i], now)
    ensures var gs := (if ws[0].id in buried then [] else [GraveOf(ws[0], now)]) + r;
            GravesDistinct(gs)
            && forall g :: g in gs <==> exists i :: 0 <= i < |ws| && ws[i].id !in buried && g == GraveOf(ws[i], now)
  {
    var g := [GraveOf(ws[0], now)];
    forall j | 0 <= j < |r| ensures r[j].id != g[0].id {
      assert r[j] in r;
      var i :| 0 <= i < |ws[1..]| && r[j] == GraveOf(ws[1..][i], now);
      assert ws[i + 1].id != ws[0].id;
    }
    DistinctConcat(g, r);
    hide GraveOf, GravesDistinct, ProvidersOk;
    assert forall i :: 0 < i < |ws| ==> ws[1..][i - 1] == ws[i];
    assert [] + r == r;
  }

  lemma BuryKeeps(gs: seq<Grave>, ws: seq<Provider>, before: set<Id>, known: set<Id>, now: string)
    requires GravesOk(gs, before) && (forall i :: 0 <= i < |gs| ==> gs[i].id !in before)
    requires ProvidersOk(ws) && now != ""
    ensures GravesOk(Bury(gs, ws, now), known)
  {
    GravesShape(ws, GraveIds(gs), now);
    var more := Graves(ws, GraveIds(gs), now);
    forall j | 0 <= j < |more|
      ensures more[j].id !in GraveIds(gs) && more[j].id != "" && more[j].kind != "" && more[j].deletedAt != ""
    {
      assert more[j] in more;
    }
    forall i | 0 <= i < |gs| ensures gs[i].id in GraveIds(gs) && gs[i].kind != "" && gs[i].deletedAt != "" {
      assert gs[i] in gs && gs[i].id !in before;
    }
    DistinctConcat(gs, more);
  }

  lemma {:induction false} DisjointShape(gs: seq<Grave>, known: set<Id>)
    ensures forall g :: g in Disjoint(gs, known) <==> g in gs && g.id !in known
    ensures GravesOk(gs, known) ==> GravesOk(Disjoint(gs, known), known)
  {
    if gs != [] {
      DisjointShape(gs[1..], known);
      DisjointCons(gs, known, Disjoint(gs[1..], known));
      hide GravesOk;
    }
  }

  lemma DisjointCons(gs: seq<Grave>, known: set<Id>, r: seq<Grave>)
    requires gs != [] && forall g :: g in r <==> g in gs[1..] && g.id !in known
    requires GravesOk(gs[1..], known) ==> GravesOk(r, known)
    ensures var all := (if gs[0].id in known then [] else [gs[0]]) + r;
            && (forall g :: g in all <==> g in gs && g.id !in known)
            && (GravesOk(gs, known) ==> GravesOk(all, known))
  {
    assert gs == [gs[0]] + gs[1..];
    if GravesOk(gs, known) {
      forall j | 0 <= j < |r| ensures r[j].id != gs[0].id {
        assert r[j] in gs[1..];
      }
    }
  }

  lemma SavedInv(c: Config)
    requires Valid(c) && PairsUnique(c.profiles)
    ensures Inv(Saved(c))
  {
    var known := Ids(c.providers);
    DisjointShape(c.graveyard, known);
    forall i | 0 <= i < |Saved(c).graveyard| ensures Saved(c).graveyard[i].id !in known {
      assert Saved(c).graveyard[i] in Saved(c).graveyard;
    }
  }

  // ---------------------------------------------------------------- every mutation keeps the invariant

  // The guard under which the validator turns a candidate down: a provider becomes available
  // while no provider is the default.
  ghost predicate LeavesNoDefault(c: Config, op: Op) {
    match op
    case AddProvider(r) => c.defaultProvider.None? && !r.suspended
    case UpdateProvider(_, patch, _) => c.defaultProvider.None? && patch.suspended == Some(false)
    case ImportSync(ps, d, _) => d.None? && exists i :: 0 <= i < |ps| && !ps[i].suspended
    case _ => false
  }

  // If the mutation builds a candidate, the validator accepts it unless it leaves a provider available
  // without a default, and it has no two profile records of one pair.
  ghost predicate CandidateOk(c: Config, op: Op) {
    Draft(c, op).Candidate? ==>
      (Valid(Draft(c, op).config) <==> !LeavesNoDefault(c, op)) && PairsUnique(Draft(c, op).config.profiles)
  }

  // New provider records over at least the same ids: only the default can go wrong.
  lemma NewProviders(c: Config, ps: seq<Provider>, d: Option<Id>)
    requires Inv(c) && ProvidersOk(ps) && Ids(c.providers) <= Ids(ps)
    ensures d == c.defaultProvider ==> (Valid(c.(providers := ps)) <==> DefaultOk(ps, d))
    ensures var c' := Reconcile(c.(providers := ps, defaultProvider := d));
            c'.providers == ps && c'.profiles == c.profiles && (Valid(c') <==> DefaultOk(ps, d))
  {
    ReconcileKeeps(c.(providers := ps, defaultProvider := d));
  }

  lemma OnAddProvider(c: Config, op: Op)
    requires Inv(c) && WellSupplied(c, op) && op.AddProvider?
    ensures CandidateOk(c, op)
  {
    var ps := c.providers + [op.record];
    AppendRecord(c.providers, op.record);
    assert ps[|c.providers|] == op.record;
    NewProviders(c, ps, c.defaultProvider);
  }

  lemma OnDeleteProvider(c: Config, op: Op)
    requires Inv(c) && WellSupplied(c, op) && op.DeleteProvider?
    ensures CandidateOk(c, op)
  {
    hide Bury, Without, TombstoneOrphans, ProfilesOk, GravesOk, PairsUnique, Ids;
    var i := ProviderIndex(c.providers, op.id);
    if i < |c.providers| && c.defaultProvider != Some(op.id) {
      var ps := Without(c.providers, {op.id});
      WithoutShape(c.providers, {op.id});
      TombstoneKeeps(c.profiles, Ids(c.providers), Ids(ps), op.now);
      BuryKeeps(c.graveyard, [c.providers[i]], Ids(c.providers), Ids(ps), op.now);
      DefaultStays(c.providers, ps, op.id, c.defaultProvider);
      LiveStays(c, op.id, op.now);
    }
  }

  lemma DefaultStays(ps: seq<Provider>, qs: seq<Provider>, id: Id, d: Option<Id>)
    requires DefaultOk(ps, d) && d != Some(id) && forall p :: p in qs <==> p in ps && p.id != id
    ensures DefaultOk(qs, d)
  {
    if d.Some? {
      var k :| 0 <= k < |ps| && ps[k].id == d.value && !ps[k].suspended;
      assert ps[k] in qs;
    } else {
      assert forall k :: 0 <= k < |qs| ==> qs[k] in qs;
    }
  }

  // The default profile belongs to the default provider, which is not the one deleted.
  lemma LiveStays(c: Config, id: Id, now: string)
    requires Inv(c) && c.defaultProvider != Some(id)
    ensures var ps := Without(c.providers, {id});
            DefaultProfileOk(TombstoneOrphans(c.profiles, Ids(ps), now), c.defaultProfile, c.defaultProvider)
  {
    hide ProfilesOk, GravesOk, PairsUnique, ProvidersOk;
    var ps := Without(c.providers, {id});
    WithoutShape(c.providers, {id});
    DefaultStays(c.providers, ps, id, c.defaultProvider);
    InIds(ps, c.defaultProvider);
  }

  lemma SetDefaultOk(c: Config, id: Id)
    requires Inv(c) && SetDefaultDraft(c, id).Candidate?
    ensures Valid(SetDefaultDraft(c, id).config) && SetDefaultDraft(c, id).config.profiles == c.profiles
  {
    var ps := Advance(c.providers, c.defaultProvider);
    assert DefaultOk(c.providers, Some(id));
    hide Advance, Reconcile, ProvidersOk, DefaultOk, ProfilesOk, GravesOk, Ids, FirstIndex;
    AdvanceKeeps(c.providers, c.defaultProvider, Some(id));
    AdvanceKeeps(ps, Some(id), Some(id));
    ReconcileKeeps(c.(providers := Advance(ps, Some(id)), defaultProvider := Some(id)));
  }

  lemma OnSetDefault(c: Config, op: Op)
    requires Inv(c) && op.SetDefault?
    ensures CandidateOk(c, op)
  {
    hide SetDefaultDraft, Valid;
    if SetDefaultDraft(c, op.id).Candidate? {
      SetDefaultOk(c, op.id);
    }
  }

  lemma ActivateOk(c: Config, id: Id)
    requires Inv(c) && ActivateDraft(c, id).Candidate?
    ensures Valid(ActivateDraft(c, id).config) && ActivateDraft(c, id).config.profiles == c.profiles
  {
    var d := c.profiles[ProfileIndex(c.profiles, id)].providerId;
    assert DefaultOk(c.providers, Some(d)) && DefaultProfileOk(c.profiles, Some(id), Some(d));
    hide Advance, Valid, Inv, PairsUnique, DefaultOk, DefaultProfileOk, ProvidersOk, Ids, FirstIndex;
    AdvanceKeeps(c.providers, c.defaultProvider, Some(d));
    AdvanceKeeps(Advance(c.providers, c.defaultProvider), Some(d), Some(d));
    NewDefault(c, ActivateDraft(c, id).config.providers, d, id);
  }

  lemma OnActivate(c: Config, op: Op)
    requires Inv(c) && op.ActivateProfile?
    ensures CandidateOk(c, op)
  {
    hide ActivateDraft, Valid;
    if ActivateDraft(c, op.id).Candidate? {
      ActivateOk(c, op.id);
    }
  }

  lemma NewDefault(c: Config, ps: seq<Provider>, d: Id, df: Id)
    requires Inv(c) && (ProvidersOk(c.providers) ==> ProvidersOk(ps)) && Ids(ps) == Ids(c.providers)
    requires DefaultOk(ps, Some(d)) && DefaultProfileOk(c.profiles, Some(df), Some(d))
    ensures Valid(c.(providers := ps, defaultProvider := Some(d), defaultProfile := Some(df)))
  {
    hide ProvidersOk, DefaultOk, DefaultProfileOk, ProfilesOk, GravesOk, Ids;
  }

  lemma OnImport(c: Config, op: Op)
    requires Inv(c) && WellSupplied(c, op) && op.ImportSync?
    ensures CandidateOk(c, op)
  {
    var ps, d := op.incoming, op.incomingDefault;
    if SnapshotOk(ps, d) {
      var known := Ids(ps);
      var ws := Without(c.providers, known);
      WithoutShape(c.providers, known);
      BuryKeeps(c.graveyard, ws, Ids(c.providers), known, op.now);
      TombstoneKeeps(c.profiles, Ids(c.providers), known, op.now);
      ReconcileKeeps(c.(providers := ps, defaultProvider := d, graveyard := Bury(c.graveyard, ws, op.now),
                        profiles := TombstoneOrphans(c.profiles, known, op.now)));
    }
  }

  // Replacing one record under its id and pair keeps the list in order, as long as a record that
  // comes alive belongs to a known provider.
  lemma ReplaceKeeps(fs: seq<Profile>, known: set<Id>, i: nat, f: Profile)
    requires ProfilesOk(fs, known) && PairsUnique(fs) && i < |fs|
    requires f.id == fs[i].id && SamePair(f, fs[i]) && ProfileFieldsOk(f)
    requires f.Live() ==> f.providerId in known
    ensures ProfilesOk(fs[i := f], known) && PairsUnique(fs[i := f])
  {
  }

  lemma AppendKeeps(fs: seq<Profile>, known: set<Id>, f: Profile)
    requires ProfilesOk(fs, known) && ProfileFieldsOk(f) && f.providerId in known
    requires forall k :: 0 <= k < |fs| ==> fs[k].id != f.id && !SamePair(fs[k], f)
    ensures ProfilesOk(fs + [f], known) && (PairsUnique(fs) ==> PairsUnique(fs + [f]))
  {
  }

  lemma AddOk(c: Config, op: Op)
    requires Inv(c) && WellSupplied(c, op) && op.AddProfile? && AddProfileDraft(c, op).Candidate?
    ensures var c' := AddProfileDraft(c, op).config; Valid(c') && PairsUnique(c'.profiles)
  {
    var i := FirstIndex(c.profiles, (f: Profile) => f.providerId == op.providerId && f.runner == op.runner);
    var fs := AddProfileDraft(c, op).config.profiles;
    AddedProfile(c, op);
    AddKeepsDefault(c, op);
    hide FirstIndex, PairsUnique, ProfilesOk, ProvidersOk, GravesOk, DefaultProfileOk, DefaultOk, Ids, WellSupplied,
      ProfileFieldsOk;
    if i == |c.profiles| {
      AppendKeeps(c.profiles, Ids(c.providers), fs[i]);
    } else {
      ReplaceKeeps(c.profiles, Ids(c.providers), i, fs[i]);
    }
  }

  // A revived record keeps its id and pair, a new one has an id and pair of its own; all its fields
  // are filled in.
  lemma AddedProfile(c: Config, op: Op)
    requires Valid(c) && WellSupplied(c, op) && op.AddProfile? && AddProfileDraft(c, op).Candidate?
    ensures var i := FirstIndex(c.profiles, (f: Profile) => f.providerId == op.providerId && f.runner == op.runner);
            var fs := AddProfileDraft(c, op).config.profiles;
            && i < |fs| && fs[i].providerId == op.providerId && fs[i].runner == op.runner
            && fs[i].Live() && ProfileFieldsOk(fs[i]) && op.providerId in Ids(c.providers)
            && if i < |c.profiles| then
                 && !c.profiles[i].Live() && fs == c.profiles[i := fs[i]]
                 && fs[i].id == c.profiles[i].id && SamePair(fs[i], c.profiles[i])
               else
                 && fs == c.profiles + [fs[i]]
                 && forall k :: 0 <= k < |c.profiles| ==>
                      c.profiles[k].id != fs[i].id && !SamePair(c.profiles[k], fs[i])
  {
    var p := ProviderIndex(c.providers, op.providerId);
    assert c.providers[p] in c.providers;
  }

  lemma OnAddProfile(c: Config, op: Op)
    requires Inv(c) && WellSupplied(c, op) && op.AddProfile?
    ensures CandidateOk(c, op)
  {
    hide AddProfileDraft, Valid, PairsUnique;
    if AddProfileDraft(c, op).Candidate? {
      AddOk(c, op);
    }
  }

  lemma OnUpdateProfile(c: Config, op: Op)
    requires Inv(c) && WellSupplied(c, op) && op.UpdateProfile?
    ensures CandidateOk(c, op)
  {
    if UpdateProfileDraft(c, op).Candidate? {
      var i := ProfileIndex(c.profiles, op.id);
      var fs := UpdateProfileDraft(c, op).config.profiles;
      ReplaceKeeps(c.profiles, Ids(c.providers), i, fs[i]);
      assert DefaultProfileOk(fs, c.defaultProfile, c.defaultProvider) by {
        assert forall k :: 0 <= k < |c.profiles| && k != i ==> fs[k] == c.profiles[k];
        assert fs[i].id == c.profiles[i].id && fs[i].providerId == c.profiles[i].providerId;
      }
    }
  }

  lemma OnDeleteProfile(c: Config, op: Op)
    requires Inv(c) && WellSupplied(c, op) && op.DeleteProfile?
    ensures CandidateOk(c, op)
  {
    if DeleteProfileDraft(c, op.id, op.now).Candidate? {
      var i := ProfileIndex(c.profiles, op.id);
      var fs := DeleteProfileDraft(c, op.id, op.now).config.profiles;
      ReplaceKeeps(c.profiles, Ids(c.providers), i, fs[i]);
      assert forall k :: 0 <= k < |fs| && k != i ==> fs[k] == c.profiles[k];
    }
  }

  lemma KeepDefault(c: Config, i: nat, q: Provider)
    requires Inv(c) && i < |c.providers| && q.id == c.providers[i].id
    requires !(q.suspended && !c.providers[i].suspended && c.defaultProvider == Some(q.id))
    ensures var c' := c.(providers := Advance(c.providers[i := q], Some(q.id)));
            Valid(c') <==> !(c.defaultProvider.None? && !q.suspended)
  {
    var ps, d := c.providers, c.defaultProvider;
    var qs := ps[i := q];
    SameIds(ps, qs);
    assert forall k :: 0 <= k < |ps| && k != i ==> qs[k] == ps[k];
    assert DefaultOk(qs, d) <==> !(d.None? && !q.suspended) by {
      assert qs[i] == q;
      if d.Some? {
        var k :| 0 <= k < |ps| && ps[k].id == d.value && !ps[k].suspended;
        assert qs[k].id == d.value && !qs[k].suspended;
      }
    }
    AdvanceKeeps(qs, Some(q.id), d);
    NewProviders(c, Advance(qs, Some(q.id)), d);
  }

  lemma LoseDefault(c: Config, i: nat, q: Provider, heir: Option<Id>)
    requires Inv(c) && i < |c.providers| && q.id == c.providers[i].id && q.suspended
    requires var ps := c.providers;
             if heir.Some? then exists j :: 0 <= j < |ps| && j != i && ps[j].id == heir.value && !ps[j].suspended
             else forall j :: 0 <= j < |ps| && j != i ==> ps[j].suspended
    ensures var c2 := Reconcile(c.(providers := c.providers[i := q], defaultProvider := heir));
            Valid(c2.(providers := Advance(Advance(c2.providers, Some(q.id)), heir)))
            && c2.profiles == c.profiles
  {
    var ps := c.providers;
    var qs := ps[i := q];
    SameIds(ps, qs);
    assert forall k :: 0 <= k < |ps| && k != i ==> qs[k] == ps[k];
    assert qs[i] == q && ProvidersOk(qs) && DefaultOk(qs, heir);
    hide Reconcile, Advance, ProvidersOk, DefaultOk, ProfilesOk, DefaultProfileOk, GravesOk, Ids;
    ReconcileKeeps(c.(providers := qs, defaultProvider := heir));
    AdvanceKeeps(qs, Some(q.id), heir);
    AdvanceKeeps(Advance(qs, Some(q.id)), heir, heir);
  }

  lemma UpdateOk(c: Config, id: Id, patch: Patch, keyChanged: bool)
    requires Inv(c) && UpdateDraft(c, id, patch, keyChanged).Candidate?
    ensures var c' := UpdateDraft(c, id, patch, keyChanged).config;
            && c'.profiles == c.profiles
            && (Valid(c') <==> !(c.defaultProvider.None? && patch.suspended == Some(false)))
  {
    var ps := c.providers;
    var i := ProviderIndex(ps, id);
    var q := Patched(ps[i], patch);
    assert q.id == id && q.suspended == Get(patch.suspended, ps[i].suspended);
    assert c.defaultProvider.None? ==> ps[i].suspended;
    if patch.suspended == Some(true) && c.defaultProvider == Some(id) {
      HeirStandsIn(c, id, patch);
      hide Valid, Reconcile, Advance, Heir, Patched, FirstIndex, Inv;
      LoseDefault(c, i, q, Heir(c, id, patch));
    } else {
      assert Heir(c, id, patch) == None;
      hide Valid, Reconcile, Advance, Heir, Patched, FirstIndex;
      KeepDefault(c, i, q);
      hide Inv;
    }
  }

  // The first other provider that is not suspended, if there is one.
  lemma HeirStandsIn(c: Config, id: Id, patch: Patch)
    requires ProvidersOk(c.providers) && patch.suspended == Some(true) && c.defaultProvider == Some(id)
    requires id in Ids(c.providers)
    ensures var ps, i, heir := c.providers, ProviderIndex(c.providers, id), Heir(c, id, patch);
            i < |ps|
            && if heir.Some? then exists j :: 0 <= j < |ps| && j != i && ps[j].id == heir.value && !ps[j].suspended
               else forall j :: 0 <= j < |ps| && j != i ==> ps[j].suspended
  {
    var ps, i := c.providers, ProviderIndex(c.providers, id);
    var qs := ps[i := Patched(ps[i], patch)];
    var j := FirstIndex(qs, (p: Provider) => p.id != id && !p.suspended);
    assert qs[i].id == id && forall k :: 0 <= k < |ps| && k != i ==> qs[k] == ps[k] && ps[k].id != id;
    assert Heir(c, id, patch) == if j < |qs| then Some(qs[j].id) else None;
    hide Heir, Patched;
  }

  lemma OnUpdateProvider(c: Config, op: Op)
    requires Inv(c) && op.UpdateProvider?
    ensures CandidateOk(c, op)
  {
    hide UpdateDraft, Valid;
    if UpdateDraft(c, op.id, op.patch, op.keyChanged).Candidate? {
      UpdateOk(c, op.id, op.patch, op.keyChanged);
    }
  }

  lemma AppendRecord(ps: seq<Provider>, r: Provider)
    requires ProvidersOk(ps) && r.id != "" && r.id !in Ids(ps)
    ensures ProvidersOk(ps + [r]) && Ids(ps + [r]) == Ids(ps) + {r.id}
    ensures forall d: Option<Id> :: d.Some? && DefaultOk(ps, d) ==> DefaultOk(ps + [r], d)
  {
    var qs := ps + [r];
    assert forall k :: 0 <= k < |ps| ==> ps[k] in ps && qs[k] == ps[k];
    assert qs[|ps|] == r;
  }

  lemma Unsuspend(ps: seq<Provider>, i: nat)
    requires ProvidersOk(ps) && i < |ps|
    ensures var qs := ps[i := ps[i].(suspended := false)];
            ProvidersOk(qs) && Ids(qs) == Ids(ps) && DefaultOk(qs, Some(ps[i].id))
            && forall d: Option<Id> :: d.Some? && DefaultOk(ps, d) ==> DefaultOk(qs, d)
  {
    var qs := ps[i := ps[i].(suspended := false)];
    SameIds(ps, qs);
    assert !qs[i].suspended;
  }

  lemma InIds(ps: seq<Provider>, d: Option<Id>)
    requires DefaultOk(ps, d)
    ensures d.Some? ==> d.value in Ids(ps)
  {
  }

  lemma AvailableOk(c: Config, kind: string, record: Provider)
    requires Inv(c) && WellSupplied(c, SelectInstallation(kind, false, record))
    ensures var (ps, i) := MadeAvailable(c, kind, record);
            && ProvidersOk(ps) && Ids(c.providers) <= Ids(ps) && DefaultOk(ps, Some(ps[i].id))
            && (c.defaultProvider.Some? ==> DefaultOk(ps, c.defaultProvider) && c.defaultProvider.value in Ids(ps))
    ensures var (ps, i) := MadeAvailable(c, kind, record);
            |c.providers| <= |ps| && forall k :: 0 <= k < |c.providers| ==>
              && ps[k].id == c.providers[k].id && ps[k].revision == c.providers[k].revision
              && (k != i ==> ps[k] == c.providers[k])
  {
    var i := FirstIndex(c.providers, (p: Provider) => p.kind == kind);
    AppendRecord(c.providers, record);
    Unsuspend(if i == |c.providers| then c.providers + [record] else c.providers, i);
    InIds(c.providers, c.defaultProvider);
  }

  lemma OnSelect(c: Config, op: Op)
    requires Inv(c) && WellSupplied(c, op) && op.SelectInstallation?
    ensures CandidateOk(c, op)
  {
    var (ps, i) := MadeAvailable(c, op.kind, op.record);
    var prev, id := c.defaultProvider, Some(ps[i].id);
    AvailableOk(c, op.kind, op.record);
    var draft := SelectDraft(c, op.kind, op.makeDefault, op.record);
    if draft.Candidate? {
      if id != prev && (op.makeDefault || prev.None?) {
        AdvanceKeeps(ps, prev, id);
        AdvanceKeeps(Advance(ps, prev), id, id);
        NewProviders(c, if i == |c.providers| then Advance(ps, prev) else Advance(Advance(ps, prev), id), id);
      } else {
        AdvanceKeeps(ps, id, prev);
        NewProviders(c, if i == |c.providers| then ps else Advance(ps, id), prev);
      }
    }
  }

  /** The validator turns a mutation's candidate down exactly when a provider becomes available
      while there is no default provider; and pairs stay unique. */
  lemma {:induction false} ValidatorAcceptsCandidates(c: Config, op: Op)
    requires Inv(c) && WellSupplied(c, op)
    ensures CandidateOk(c, op)
  {
    match op
    case AddProvider(_) => OnAddProvider(c, op);
    case UpdateProvider(_, _, _) => OnUpdateProvider(c, op);
    case DeleteProvider(_, _) => OnDeleteProvider(c, op);
    case SetDefault(_) => OnSetDefault(c, op);
    case AddProfile(_, _, _, _, _, _, _, _) => OnAddProfile(c, op);
    case UpdateProfile(_, _, _, _, _, _) => OnUpdateProfile(c, op);
    case DeleteProfile(_, _) => OnDeleteProfile(c, op);
    case ActivateProfile(_) => OnActivate(c, op);
    case ImportSync(_, _, _) => OnImport(c, op);
    case SelectInstallation(_, _, _) => OnSelect(c, op);
  }

  lemma {:induction false} ApplyInv(c: Config, op: Op)
    requires Inv(c) && WellSupplied(c, op)
    ensures Inv(Apply(c, op))
  {
    if Draft(c, op).Candidate? {
      ValidatorAcceptsCandidates(c, op);
      if Valid(Draft(c, op).config) {
        SavedInv(Draft(c, op).config);
      }
    }
  }

  lemma AddKeepsDefault(c: Config, op: Op)
    requires Valid(c) && op.AddProfile? && AddProfileDraft(c, op).Candidate?
    ensures DefaultProfileOk(AddProfileDraft(c, op).config.profiles, c.defaultProfile, c.defaultProvider)
  {
    var i := FirstIndex(c.profiles, (f: Profile) => f.providerId == op.providerId && f.runner == op.runner);
    var fs := AddProfileDraft(c, op).config.profiles;
    assert forall k :: 0 <= k < |c.profiles| && k != i ==> fs[k] == c.profiles[k];
  }

  ghost predicate LivePairElsewhere(fs: seq<Profile>, i: nat, f: Profile) {
    exists k :: 0 <= k < |fs| && k != i && fs[k].Live() && SamePair(fs[k], f)
  }

  lemma ReviveInPlace(fs: seq<Profile>, known: set<Id>, i: nat, f: Profile)
    requires ProfilesOk(fs, known) && i < |fs| && !fs[i].Live()
    requires f.id == fs[i].id && SamePair(f, fs[i]) && ProfileFieldsOk(f) && f.Live() && f.providerId in known
    ensures ProfilesOk(fs[i := f], known) <==> !LivePairElsewhere(fs, i, f)
  {
    var gs := fs[i := f];
    assert forall k :: 0 <= k < |fs| && k != i ==> gs[k] == fs[k];
    if LivePairElsewhere(fs, i, f) {
      var k :| 0 <= k < |fs| && k != i && fs[k].Live() && SamePair(fs[k], f);
      assert gs[k] == fs[k] && gs[i] == f;
    }
  }

  /** Uniqueness of pairs cannot be dropped: in a state the validator accepts, a tombstone may
      stand before a live record of its pair, and `add_runtime_profile` then revives the tombstone
      beside it. The candidate is accepted exactly when the pair has no live record. */
  lemma AddNeedsUniquePairs(c: Config, op: Op)
    requires Valid(c) && WellSupplied(c, op) && op.AddProfile? && AddProfileDraft(c, op).Candidate?
    ensures Valid(AddProfileDraft(c, op).config) <==>
            forall k :: 0 <= k < |c.profiles| && c.profiles[k].Live() ==>
              c.profiles[k].providerId != op.providerId || c.profiles[k].runner != op.runner
  {
    var i := FirstIndex(c.profiles, (f: Profile) => f.providerId == op.providerId && f.runner == op.runner);
    var fs := AddProfileDraft(c, op).config.profiles;
    AddedProfile(c, op);
    AddKeepsDefault(c, op);
    hide FirstIndex, ProvidersOk, GravesOk, DefaultProfileOk, DefaultOk, Ids, WellSupplied, ProfileFieldsOk, ProfilesOk;
    if i < |c.profiles| {
      ReviveInPlace(c.profiles, Ids(c.providers), i, fs[i]);
    } else {
      AppendKeeps(c.profiles, Ids(c.providers), fs[i]);
    }
  }

  /** Such a state, which the validator accepts: the tombstone of a pair stands before its live record,
      and the profile added is refused. */
  lemma TombstoneFirstRefused(p: Provider, id: Id, runner: string, now: string)
    requires p.id != "" && !p.suspended && runner != "" && now != "" && id != ""
    ensures var live := Profile(id, p.id, runner, "live", "", "", now, now, None);
            var dead := Profile(id + "0", p.id, runner, "dead", "", "", now, now, Some(now));
            var c := Config([p], Some(p.id), [dead, live], None, []);
            var op := AddProfile(p.id, runner, "new", "new", "", "", id + "00", now);
            && Valid(c) && WellSupplied(c, op)
            && AddProfileDraft(c, op).Candidate? && !Valid(AddProfileDraft(c, op).config)
  {
    var live := Profile(id, p.id, runner, "live", "", "", now, now, None);
    var dead := Profile(id + "0", p.id, runner, "dead", "", "", now, now, Some(now));
    var c := Config([p], Some(p.id), [dead, live], None, []);
    var op := AddProfile(p.id, runner, "new", "new", "", "", id + "00", now);
    assert |id + "0"| == |id| + 1 && |id + "00"| == |id| + 2;
    assert c.providers[0] == p && p in c.providers && p.id in Ids(c.providers);
    assert ProfilesOk(c.profiles, Ids(c.providers)) && DefaultOk(c.providers, Some(p.id));
    assert ProviderIndex(c.providers, p.id) == 0;
    assert FirstIndex(c.profiles, (f: Profile) => f.providerId == op.providerId && f.runner == op.runner) == 0;
    AddNeedsUniquePairs(c, op);
    assert c.profiles[1] == live && c.profiles[1].Live();
    hide Valid, ProfilesOk, DefaultOk, AddProfileDraft, Ids;
  }

  // ---------------------------------------------------------------- identity and revisions

  // Profile records are never removed, reordered or given to another pair.
  ghost predicate ExtendsProfiles(fs: seq<Profile>, gs: seq<Profile>) {
    |fs| <= |gs| && forall i :: 0 <= i < |fs| ==>
      gs[i].id == fs[i].id && SamePair(gs[i], fs[i]) && gs[i].createdAt == fs[i].createdAt
  }

  lemma ProfileOpsExtend(c: Config, op: Op)
    requires (op.AddProfile? || op.UpdateProfile? || op.DeleteProfile?) && Draft(c, op).Candidate?
    ensures ExtendsProfiles(c.profiles, Draft(c, op).config.profiles)
  {
    if op.AddProfile? {
      AddExtends(c, op);
    } else if op.UpdateProfile? {
      UpdateExtends(c, op);
    }
  }

  lemma AddExtends(c: Config, op: Op)
    requires op.AddProfile? && AddProfileDraft(c, op).Candidate?
    ensures ExtendsProfiles(c.profiles, AddProfileDraft(c, op).config.profiles)
  {
  }

  lemma UpdateExtends(c: Config, op: Op)
    requires op.UpdateProfile? && UpdateProfileDraft(c, op).Candidate?
    ensures ExtendsProfiles(c.profiles, UpdateProfileDraft(c, op).config.profiles)
  {
  }

  lemma ProviderOpsExtend(c: Config, op: Op)
    requires op.UpdateProvider? || op.SetDefault? || op.ActivateProfile? || op.SelectInstallation? || op.AddProvider?
    requires Draft(c, op).Candidate?
    ensures Draft(c, op).config.profiles == c.profiles
  {
    hide FirstIndex, Advance, Heir, Patched;
  }

  lemma WithdrawalsExtend(c: Config, op: Op)
    requires (op.DeleteProvider? || op.ImportSync?) && Draft(c, op).Candidate?
    ensures ExtendsProfiles(c.profiles, Draft(c, op).config.profiles)
  {
    hide FirstIndex, Bury, Without, Ids, SnapshotOk;
  }

  lemma ApplyKeepsIdentities(c: Config, op: Op)
    ensures ExtendsProfiles(c.profiles, Apply(c, op).profiles)
  {
    hide Draft, Valid, Disjoint;
    if Draft(c, op).Candidate? {
      if op.DeleteProvider? || op.ImportSync? {
        WithdrawalsExtend(c, op);
      } else if op.AddProfile? || op.UpdateProfile? || op.DeleteProfile? {
        ProfileOpsExtend(c, op);
      } else {
        ProviderOpsExtend(c, op);
      }
    }
  }

  // A provider record that changed, that gained or lost the default, or that was named.
  ghost predicate Touched(c: Config, c': Config, p: Provider, q: Provider, named: Option<Id>) {
    || q != p.(revision := q.revision) || named == Some(p.id)
    || (c.defaultProvider == Some(p.id)) != (c'.defaultProvider == Some(p.id))
  }

  // The revision of what is touched rises by one, so a writer that still holds the old revision is found
  // stale; the others keep theirs.
  ghost predicate RevisionTells(c: Config, c': Config, named: Option<Id>) {
    forall p, q :: p in c.providers && q in c'.providers && p.id == q.id ==>
      q.revision == p.revision + if Touched(c, c', p, q, named) then 1 else 0
  }

  ghost predicate TellsAt(c: Config, c': Config, i: nat, named: Option<Id>)
    requires i < |c.providers| && i < |c'.providers|
  {
    var p, q := c.providers[i], c'.providers[i];
    q.id == p.id && q.revision == p.revision + if Touched(c, c', p, q, named) then 1 else 0
  }

  lemma TellsByIndex(c: Config, c': Config, named: Option<Id>)
    requires ProvidersOk(c.providers) && ProvidersOk(c'.providers) && |c.providers| <= |c'.providers|
    requires forall i :: 0 <= i < |c.providers| ==> TellsAt(c, c', i, named)
    ensures RevisionTells(c, c', named)
  {
    hide Touched;
    forall p, q | p in c.providers && q in c'.providers && p.id == q.id
      ensures q.revision == p.revision + if Touched(c, c', p, q, named) then 1 else 0
    {
      var i :| 0 <= i < |c.providers| && c.providers[i] == p;
      var j :| 0 <= j < |c'.providers| && c'.providers[j] == q;
      assert TellsAt(c, c', i, named);
      assert c'.providers[i].id == c'.providers[j].id;
      assert i == j;
    }
  }

  // Records qs, of which exactly those touched are advanced, each once.
  ghost predicate Touches(c: Config, c': Config, qs: seq<Provider>, a: Option<Id>, b: Option<Id>, named: Option<Id>) {
    && |c.providers| <= |qs| && ProvidersOk(qs) && (a != b || a.None?)
    && c'.providers == Advance(Advance(qs, a), b)
    && forall k :: 0 <= k < |c.providers| ==>
         var p, q := c.providers[k], qs[k];
         && q.id == p.id && q.revision == p.revision
         && (Touched(c, c', p, q, named) <==> a == Some(p.id) || b == Some(p.id))
  }

  // Every changed record, and both sides of a moved default, are advanced.
  lemma TouchedTells(c: Config, c': Config, qs: seq<Provider>, a: Option<Id>, b: Option<Id>, named: Option<Id>)
    requires ProvidersOk(c.providers) && Touches(c, c', qs, a, b, named)
    ensures RevisionTells(c, c', named)
  {
    hide Advance;
    var rs := Advance(qs, a);
    AdvanceShape(qs, a);
    AdvanceKeeps(qs, a, None);
    AdvanceShape(rs, b);
    AdvanceKeeps(rs, b, None);
    forall k | 0 <= k < |c.providers| ensures TellsAt(c, c', k, named) {
      var p, q, r := c.providers[k], qs[k], rs[k];
      assert Advanced(q, r) && Advanced(r, c'.providers[k]);
      assert Touched(c, c', p, q, named) <==> Touched(c, c', p, c'.providers[k], named);
      hide ProvidersOk, Touched, Advanced;
    }
    TellsByIndex(c, c', named);
  }

  lemma UpdateShape(c: Config, id: Id, patch: Patch, keyChanged: bool)
    requires UpdateDraft(c, id, patch, keyChanged).Candidate?
    ensures var i := ProviderIndex(c.providers, id);
            var qs := c.providers[i := Patched(c.providers[i], patch)];
            var c' := UpdateDraft(c, id, patch, keyChanged).config;
            && c.providers[i].id == id && c'.providers == Advance(Advance(qs, Some(id)), Heir(c, id, patch))
            && c'.defaultProvider == if patch.suspended == Some(true) && c.defaultProvider == Some(id)
                                     then Heir(c, id, patch) else c.defaultProvider
  {
    var i := ProviderIndex(c.providers, id);
    var qs := c.providers[i := Patched(c.providers[i], patch)];
    ReconcileKeeps(c.(providers := qs, defaultProvider := Heir(c, id, patch)));
  }

  // One record replaced; the default stays, or moves from that one to the second one advanced.
  lemma OneTouched(c: Config, c': Config, i: nat, q: Provider, a: Option<Id>, b: Option<Id>)
    requires ProvidersOk(c.providers) && i < |c.providers|
    requires q.id == c.providers[i].id && q.revision == c.providers[i].revision && a == Some(q.id)
    requires c'.providers == Advance(Advance(c.providers[i := q], a), b)
    requires a != b
    requires (c'.defaultProvider == c.defaultProvider && b.None?) || (c.defaultProvider == a && c'.defaultProvider == b)
    ensures RevisionTells(c, c', a)
  {
    hide Advance;
    var qs := c.providers[i := q];
    assert forall k :: 0 <= k < |qs| ==> qs[k].id == c.providers[k].id && qs[k].revision == c.providers[k].revision;
    assert forall k :: 0 <= k < |qs| && k != i ==> qs[k] == c.providers[k];
    TouchedTells(c, c', qs, a, b, a);
  }

  lemma HeirOnlyIfLost(c: Config, id: Id, patch: Patch)
    ensures Heir(c, id, patch) != Some(id)
    ensures patch.suspended != Some(true) || c.defaultProvider != Some(id) ==> Heir(c, id, patch).None?
  {
    hide Patched;
  }

  lemma UpdateTells(c: Config, id: Id, patch: Patch, keyChanged: bool)
    requires Inv(c) && UpdateDraft(c, id, patch, keyChanged).Candidate?
    ensures RevisionTells(c, UpdateDraft(c, id, patch, keyChanged).config, Some(id))
  {
    UpdateShape(c, id, patch, keyChanged);
    var ps, i := c.providers, ProviderIndex(c.providers, id);
    var q := Patched(ps[i], patch);
    assert q.id == id && q.revision == ps[i].revision;
    hide UpdateDraft, Patched, Heir, Advance, FirstIndex, RevisionTells, PairsUnique;
    HeirOnlyIfLost(c, id, patch);
    OneTouched(c, UpdateDraft(c, id, patch, keyChanged).config, i, q, Some(id), Heir(c, id, patch));
  }

  lemma SetDefaultTells(c: Config, id: Id)
    requires Inv(c) && SetDefaultDraft(c, id).Candidate?
    ensures RevisionTells(c, SetDefaultDraft(c, id).config, None)
  {
    hide RevisionTells, Advance, Reconcile, FirstIndex, ProfilesOk, DefaultOk, DefaultProfileOk, GravesOk;
    var c' := SetDefaultDraft(c, id).config;
    var ps := Advance(Advance(c.providers, c.defaultProvider), Some(id));
    ReconcileKeeps(c.(providers := ps, defaultProvider := Some(id)));
    TouchedTells(c, c', c.providers, c.defaultProvider, Some(id), None);
  }

  lemma ActivateTells(c: Config, id: Id)
    requires Inv(c) && ActivateDraft(c, id).Candidate?
    ensures RevisionTells(c, ActivateDraft(c, id).config, None)
  {
    var c' := ActivateDraft(c, id).config;
    if c'.defaultProvider == c.defaultProvider {
      TouchedTells(c, c', c.providers, None, None, None);
    } else {
      TouchedTells(c, c', c.providers, c.defaultProvider, c'.defaultProvider, None);
    }
  }

  lemma SelectMoves(c: Config, kind: string, makeDefault: bool, record: Provider)
    requires SelectDraft(c, kind, makeDefault, record).Candidate?
    requires SelectDraft(c, kind, makeDefault, record).config.defaultProvider != c.defaultProvider
    ensures var (ps, i) := MadeAvailable(c, kind, record);
            var prev, id := c.defaultProvider, Some(ps[i].id);
            var qs := if i == |c.providers| then Advance(ps, prev) else Advance(Advance(ps, prev), id);
            SelectDraft(c, kind, makeDefault, record).config == Reconcile(c.(providers := qs, defaultProvider := id))
  {
    hide Reconcile, Advance, MadeAvailable, Ids;
  }

  // What becomes available, beside what was there.
  lemma AvailableIs(c: Config, kind: string, record: Provider)
    requires Inv(c) && WellSupplied(c, SelectInstallation(kind, false, record))
    ensures var (ps, i) := MadeAvailable(c, kind, record); OneAvailable(c, ps, i)
  {
    AvailableOk(c, kind, record);
    hide Valid, PairsUnique, Ids, DefaultOk;
  }

  lemma SelectTells(c: Config, kind: string, makeDefault: bool, record: Provider)
    requires Inv(c) && WellSupplied(c, SelectInstallation(kind, makeDefault, record))
    requires SelectDraft(c, kind, makeDefault, record).Candidate?
    ensures RevisionTells(c, SelectDraft(c, kind, makeDefault, record).config, None)
  {
    hide SelectDraft, MadeAvailable, Reconcile, Inv, OneAvailable, Advance, RevisionTells;
    AvailableIs(c, kind, record);
    var c' := SelectDraft(c, kind, makeDefault, record).config;
    var (ps, i) := MadeAvailable(c, kind, record);
    var created, prev, id := i == |c.providers|, c.defaultProvider, Some(ps[i].id);
    if c'.defaultProvider != prev {
      SelectMoves(c, kind, makeDefault, record);
      ReconcileKeeps(c.(providers := if created then Advance(ps, prev) else Advance(Advance(ps, prev), id),
                        defaultProvider := id));
      NoAdvance(Advance(ps, prev));
      MovedTells(c, c', ps, i);
    } else {
      SelectStays(c, kind, makeDefault, record);
      WokenTells(c, c', ps, i);
    }
  }

  // The records ps are those of c with one made available at i, or added there.
  ghost predicate OneAvailable(c: Config, ps: seq<Provider>, i: nat) {
    && |c.providers| <= |ps| && i <= |c.providers| && i < |ps| && ProvidersOk(c.providers) && ProvidersOk(ps)
    && (forall k :: 0 <= k < |c.providers| && k != i ==> ps[k] == c.providers[k] && ps[k].id != ps[i].id)
    && (i < |c.providers| ==> ps[i] == c.providers[i].(suspended := false))
  }

  lemma MovedTells(c: Config, c': Config, ps: seq<Provider>, i: nat)
    requires OneAvailable(c, ps, i) && c'.defaultProvider == Some(ps[i].id) && c'.defaultProvider != c.defaultProvider
    requires c'.providers
             == Advance(Advance(ps, c.defaultProvider), if i == |c.providers| then None else Some(ps[i].id))
    ensures RevisionTells(c, c', None)
  {
    hide Advance, ProvidersOk, RevisionTells, Touched;
    MovedTouches(c, c', ps, i);
    TouchedTells(c, c', ps, c.defaultProvider, if i == |c.providers| then None else Some(ps[i].id), None);
  }

  lemma MovedTouches(c: Config, c': Config, ps: seq<Provider>, i: nat)
    requires OneAvailable(c, ps, i) && c'.defaultProvider == Some(ps[i].id) && c'.defaultProvider != c.defaultProvider
    ensures forall k :: 0 <= k < |c.providers| ==>
              (Touched(c, c', c.providers[k], ps[k], None) <==>
                c.defaultProvider == Some(ps[k].id) || (i < |c.providers| && ps[k].id == ps[i].id))
  {
    hide ProvidersOk;
  }

  lemma WokenTells(c: Config, c': Config, ps: seq<Provider>, i: nat)
    requires OneAvailable(c, ps, i) && c'.defaultProvider == c.defaultProvider
    requires c'.providers == Advance(Advance(ps, if i == |c.providers| then None else Some(ps[i].id)), None)
    requires i < |c.providers| ==> c.providers[i].suspended
    ensures RevisionTells(c, c', None)
  {
    hide Advance, ProvidersOk, RevisionTells, Touched;
    WokenTouches(c, c', ps, i);
    TouchedTells(c, c', ps, if i == |c.providers| then None else Some(ps[i].id), None, None);
  }

  lemma WokenTouches(c: Config, c': Config, ps: seq<Provider>, i: nat)
    requires OneAvailable(c, ps, i) && c'.defaultProvider == c.defaultProvider
    requires i < |c.providers| ==> c.providers[i].suspended
    ensures forall k :: 0 <= k < |c.providers| ==>
              (Touched(c, c', c.providers[k], ps[k], None) <==> i < |c.providers| && ps[k].id == ps[i].id)
  {
    hide ProvidersOk;
  }

  lemma NoAdvance(ps: seq<Provider>)
    ensures Advance(ps, None) == ps
  {
  }

  lemma SelectStays(c: Config, kind: string, makeDefault: bool, record: Provider)
    requires Inv(c) && WellSupplied(c, SelectInstallation(kind, makeDefault, record))
    requires SelectDraft(c, kind, makeDefault, record).Candidate?
    requires SelectDraft(c, kind, makeDefault, record).config.defaultProvider == c.defaultProvider
    ensures var (ps, i) := MadeAvailable(c, kind, record);
            var c' := SelectDraft(c, kind, makeDefault, record).config;
            && c'.providers == Advance(Advance(ps, if i == |c.providers| then None else Some(ps[i].id)), None)
            && (i < |c.providers| ==> c.providers[i].suspended)
  {
    AvailableOk(c, kind, record);
    hide MadeAvailable, Inv, ProvidersOk, DefaultOk;
    var (ps, i) := MadeAvailable(c, kind, record);
    NoAdvance(ps);
    NoAdvance(Advance(ps, if i == |c.providers| then None else Some(ps[i].id)));
    ReconcileKeeps(c.(providers := if i == |c.providers| then Advance(ps, c.defaultProvider)
                                   else Advance(Advance(ps, c.defaultProvider), Some(ps[i].id)),
                      defaultProvider := Some(ps[i].id)));
    hide Advance, Reconcile, Ids;
  }

  lemma ProfileOpsTell(c: Config, op: Op)
    requires Inv(c) && (op.AddProfile? || op.UpdateProfile? || op.DeleteProfile?) && Draft(c, op).Candidate?
    ensures RevisionTells(c, Draft(c, op).config, None)
  {
    hide RevisionTells, FirstIndex;
    UntouchedTells(c, Draft(c, op).config);
  }

  lemma UntouchedTells(c: Config, c': Config)
    requires ProvidersOk(c.providers) && c'.providers == c.providers && c'.defaultProvider == c.defaultProvider
    ensures RevisionTells(c, c', None)
  {
    TouchedTells(c, c', c.providers, None, None, None);
  }

  lemma AddTells(c: Config, r: Provider)
    requires ProvidersOk(c.providers) && r.id != "" && r.id !in Ids(c.providers)
    ensures RevisionTells(c, c.(providers := c.providers + [r]), None)
  {
    AppendRecord(c.providers, r);
    hide RevisionTells, ProvidersOk, Ids;
    TouchedTells(c, c.(providers := c.providers + [r]), c.providers + [r], None, None, None);
  }

  lemma DeleteTells(c: Config, id: Id, now: string)
    requires ProvidersOk(c.providers) && DeleteDraft(c, id, now).Candidate?
    ensures RevisionTells(c, DeleteDraft(c, id, now).config, None)
  {
    WithoutShape(c.providers, {id});
    forall p, q | p in c.providers && q in c.providers && p.id == q.id ensures p == q {
      var i, j :| 0 <= i < |c.providers| && 0 <= j < |c.providers| && c.providers[i] == p && c.providers[j] == q;
    }
    hide Without, Bury, TombstoneOrphans, FirstIndex, ProvidersOk;
  }

  /** Every local mutation advances what it touches. (A sync import brings its own revisions.) */
  lemma {:induction false} RevisionsTell(c: Config, op: Op)
    requires Inv(c) && WellSupplied(c, op) && !op.ImportSync? && Draft(c, op).Candidate?
    ensures RevisionTells(c, Draft(c, op).config, if op.UpdateProvider? then Some(op.id) else None)
  {
    hide RevisionTells;
    match op
    case AddProvider(r) => AddTells(c, r);
    case DeleteProvider(id, now) => DeleteTells(c, id, now);
    case SetDefault(id) => SetDefaultTells(c, id);
    case ActivateProfile(id) => ActivateTells(c, id);
    case UpdateProvider(id, patch, k) => UpdateTells(c, id, patch, k);
    case SelectInstallation(kind, make, r) => SelectTells(c, kind, make, r);
    case ImportSync(_, _, _) =>
    case AddProfile(_, _, _, _, _, _, _, _) => ProfileOpsTell(c, op);
    case UpdateProfile(_, _, _, _, _, _) => ProfileOpsTell(c, op);
    case DeleteProfile(_, _) => ProfileOpsTell(c, op);
  }

  // ---------------------------------------------------------------- runs

  ghost predicate Seed(c: Config) {
    && ProvidersOk(c.providers) && c.providers != []
    && (forall i :: 0 <= i < |c.providers| ==> !c.providers[i].suspended)
    && c == Config(c.providers, Some(c.providers[0].id), [], None, [])
  }

  // An ill-supplied mutation (a repeated uuid, an unset clock) does not occur.
  ghost function Run(c: Config, ops: seq<Op>): Config {
    if ops == [] then c
    else
      var c' := Run(c, ops[..|ops| - 1]);
      if WellSupplied(c', ops[|ops| - 1]) then Apply(c', ops[|ops| - 1]) else c'
  }

  /** From the seeded state every run keeps the full invariant. */
  lemma {:induction false} RunInv(c: Config, ops: seq<Op>)
    requires Seed(c)
    ensures Inv(Run(c, ops))
  {
    if ops != [] {
      var n := |ops| - 1;
      RunInv(c, ops[..n]);
      if WellSupplied(Run(c, ops[..n]), ops[n]) {
        ApplyInv(Run(c, ops[..n]), ops[n]);
      }
    }
  }

  lemma {:induction false} RunExtends(c: Config, ops: seq<Op>, more: seq<Op>)
    ensures ExtendsProfiles(Run(c, ops).profiles, Run(c, ops + more).profiles)
  {
    if more == [] {
      assert ops + more == ops;
    } else {
      var n := |more| - 1;
      RunExtends(c, ops, more[..n]);
      assert (ops + more)[..|ops + more| - 1] == ops + more[..n];
      var mid := Run(c, ops + more[..n]);
      if WellSupplied(mid, more[n]) {
        ApplyKeepsIdentities(mid, more[n]);
      }
    }
  }

  /** Over any run of adds, deletes, provider deletions and imports, the profile id of a
      (provider, runner) pair never changes once it is assigned. */
  lemma PairKeepsItsId(c: Config, ops: seq<Op>, more: seq<Op>, f: Profile, g: Profile)
    requires Seed(c)
    requires f in Run(c, ops).profiles && g in Run(c, ops + more).profiles && SamePair(f, g)
    ensures f.id == g.id && f.createdAt == g.createdAt
  {
    RunExtends(c, ops, more);
    RunInv(c, ops + more);
    var fs, gs := Run(c, ops).profiles, Run(c, ops + more).profiles;
    var i :| 0 <= i < |fs| && fs[i] == f;
    var j :| 0 <= j < |gs| && gs[j] == g;
    assert SamePair(gs[i], gs[j]);
    assert i == j;
  }
}
