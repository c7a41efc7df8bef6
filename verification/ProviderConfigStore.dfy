/** The mutations of `config_store.py` as it runs them: loops over the loaded state, the validator,
    the save. Each is proved against the functions of `ProviderConfig`. */
module ProviderConfigStore {
  import opened Sequences
  import opened Wrappers
  import opened ProviderConfig
  import opened ProviderEffects

  /** The id pass of the validator: non-empty, no repeats. */
  method CheckProviderIds(ps: seq<Provider>) returns (ok: bool, known: set<Id>)
    ensures ok <==> ProvidersOk(ps)
    ensures ok ==> known == Ids(ps)
  {
    known := {};
    for i := 0 to |ps|
      invariant ProvidersOk(ps[..i])
      invariant known == Ids(ps[..i])
    {
      assert ps[..i + 1] == ps[..i] + [ps[i]];
      if ps[i].id == "" || ps[i].id in known {
        if ps[i].id != "" {
          var j :| 0 <= j < i && ps[..i][j].id == ps[i].id;
          assert ps[j].id == ps[i].id;
        }
        return false, known;
      }
      assert forall j :: 0 <= j < i ==> ps[j] in ps[..i];
      known := known + {ps[i].id};
    }
    assert ps[..|ps|] == ps;
    return true, known;
  }

  function Pair(f: Profile): (Id, string) {
    (f.providerId, f.runner)
  }

  // What the pass over the profiles has collected after i of them.
  ghost predicate Collected(fs: seq<Profile>, i: nat, seen: set<Id>, live: set<(Id, string)>)
    requires i <= |fs|
  {
    && (forall id :: id in seen <==> exists j :: 0 <= j < i && fs[j].id == id)
    && (forall p :: p in live <==> exists j :: 0 <= j < i && fs[j].Live() && Pair(fs[j]) == p)
  }

  // The next profile fits after the ones before it.
  ghost predicate Fits(f: Profile, known: set<Id>, seen: set<Id>, live: set<(Id, string)>) {
    && ProfileFieldsOk(f) && f.id !in seen
    && (f.Live() ==> f.providerId in known && Pair(f) !in live)
  }

  ghost predicate Apart(fs: seq<Profile>, i: nat, f: Profile)
    requires i <= |fs|
  {
    forall j :: 0 <= j < i ==> fs[j].id != f.id && (fs[j].Live() && f.Live() ==> !SamePair(fs[j], f))
  }

  lemma ApartExactly(fs: seq<Profile>, i: nat, f: Profile, seen: set<Id>, live: set<(Id, string)>)
    requires i <= |fs| && Collected(fs, i, seen, live)
    ensures Apart(fs, i, f) <==> f.id !in seen && (f.Live() ==> Pair(f) !in live)
  {
  }

  lemma ProfilesOkSnoc(fs: seq<Profile>, f: Profile, known: set<Id>)
    requires ProfilesOk(fs, known)
    ensures ProfilesOk(fs + [f], known) <==>
            ProfileFieldsOk(f) && (f.Live() ==> f.providerId in known) && Apart(fs, |fs|, f)
  {
    var after := fs + [f];
    hide ProfileFieldsOk, SamePair;
    assert forall j :: 0 <= j < |fs| ==> after[j] == fs[j];
    assert after[|fs|] == f;
  }

  lemma ProfilesSnoc(fs: seq<Profile>, i: nat, known: set<Id>, seen: set<Id>, live: set<(Id, string)>)
    requires i < |fs| && Collected(fs, i, seen, live) && ProfilesOk(fs[..i], known)
    ensures ProfilesOk(fs[..i + 1], known) <==> Fits(fs[i], known, seen, live)
  {
    hide Collected, ProfilesOk, ProfileFieldsOk, SamePair;
    assert fs[..i + 1] == fs[..i] + [fs[i]];
    ProfilesOkSnoc(fs[..i], fs[i], known);
    ApartExactly(fs, i, fs[i], seen, live);
    assert forall j :: 0 <= j < i ==> fs[..i][j] == fs[j];
  }

  lemma CollectedSnoc(fs: seq<Profile>, i: nat, seen: set<Id>, live: set<(Id, string)>)
    requires i < |fs| && Collected(fs, i, seen, live)
    ensures Collected(fs, i + 1, seen + {fs[i].id}, if fs[i].Live() then live + {Pair(fs[i])} else live)
  {
  }

  lemma ProfilesPrefix(fs: seq<Profile>, i: nat, known: set<Id>)
    requires i <= |fs| && ProfilesOk(fs, known)
    ensures ProfilesOk(fs[..i], known)
  {
  }

  /** `_normalize_runtime_profiles`. */
  method CheckProfiles(fs: seq<Profile>, known: set<Id>) returns (ok: bool)
    ensures ok <==> ProfilesOk(fs, known)
  {
    var seen: set<Id> := {};
    var live: set<(Id, string)> := {};
    assert ProfilesOk(fs[..0], known) && Collected(fs, 0, seen, live);
    hide ProfilesOk, Collected;
    for i := 0 to |fs|
      invariant ProfilesOk(fs[..i], known) && Collected(fs, i, seen, live)
    {
      ProfilesSnoc(fs, i, known, seen, live);
      CollectedSnoc(fs, i, seen, live);
      var f := fs[i];
      var fieldsOk := f.id != "" && f.providerId != "" && f.runner != "" && f.name != ""
                      && f.createdAt != "" && f.updatedAt != "" && f.deletedAt != Some("");
      if !fieldsOk || f.id in seen || (f.deletedAt.None? && (f.providerId !in known || Pair(f) in live)) {
        if ProfilesOk(fs, known) {
          ProfilesPrefix(fs, i + 1, known);
        }
        return false;
      }
      if f.deletedAt.None? {
        live := live + {Pair(f)};
      }
      seen := seen + {f.id};
    }
    assert fs[..|fs|] == fs;
    return true;
  }

  lemma {:induction false} DisjointSnoc(gs: seq<Grave>, g: Grave, known: set<Id>)
    ensures Disjoint(gs + [g], known) == Disjoint(gs, known) + if g.id in known then [] else [g]
  {
    if gs == [] {
      assert [] + [g] == [g];
    } else {
      assert (gs + [g])[1..] == gs[1..] + [g];
      DisjointSnoc(gs[1..], g, known);
    }
  }

  /** `_normalize_deleted_providers`: a grave of a provider that is live again is dropped. */
  method NormalizeGraves(gs: seq<Grave>, known: set<Id>) returns (ok: bool, out: seq<Grave>)
    ensures ok <==> GravesOk(gs, known)
    ensures ok ==> out == Disjoint(gs, known)
  {
    var seen: set<Id> := {};
    out := [];
    for i := 0 to |gs|
      invariant GravesOk(gs[..i], known)
      invariant forall id :: id in seen <==> exists j :: 0 <= j < i && gs[j].id == id
      invariant out == Disjoint(gs[..i], known)
    {
      var g := gs[i];
      assert gs[..i + 1] == gs[..i] + [g];
      DisjointSnoc(gs[..i], g, known);
      if g.id == "" || g.id in seen {
        return false, out;
      }
      seen := seen + {g.id};
      if g.id in known {
        continue;
      }
      if g.kind == "" || g.deletedAt == "" {
        return false, out;
      }
      out := out + [g];
    }
    assert gs[..|gs|] == gs;
    return true, out;
  }

  /** `_normalize_loaded_state`: it accepts the valid states and returns them as they are saved. */
  method NormalizeLoadedState(raw: Config) returns (r: Result<Config, string>)
    ensures r.Ok? <==> Valid(raw)
    ensures r.Ok? ==> r.value == Saved(raw)
  {
    var idsOk, known := CheckProviderIds(raw.providers);
    if !idsOk {
      return Err("invalid provider id");
    }
    var ps := raw.providers;
    var a := FirstIndex(ps, (p: Provider) => Some(p.id) == raw.defaultProvider);
    var available := FirstIndex(ps, (p: Provider) => !p.suspended);
    if a == |ps| || ps[a].suspended {
      if raw.defaultProvider.Some? || available < |ps| {
        return Err("invalid default provider");
      }
    }
    var profilesOk := CheckProfiles(raw.profiles, known);
    if !profilesOk {
      return Err("invalid runtime profile");
    }
    if raw.defaultProfile.Some? {
      var f := ProfileIndex(raw.profiles, raw.defaultProfile.value);
      if f == |raw.profiles| || !raw.profiles[f].Live() || Some(raw.profiles[f].providerId) != raw.defaultProvider {
        return Err("invalid default runtime profile");
      }
    }
    var gravesOk, graves := NormalizeGraves(raw.graveyard, known);
    if !gravesOk {
      return Err("invalid deleted provider");
    }
    return Ok(raw.(graveyard := graves));
  }

  /** `_tombstone_orphaned_runtime_profiles`. */
  method TombstoneLoop(fs: seq<Profile>, known: set<Id>, now: string) returns (out: seq<Profile>)
    ensures out == TombstoneOrphans(fs, known, now)
  {
    out := fs;
    for i := 0 to |fs|
      invariant |out| == |fs|
      invariant forall k :: 0 <= k < i ==> out[k] == TombstoneOrphans(fs, known, now)[k]
      invariant forall k :: i <= k < |fs| ==> out[k] == fs[k]
    {
      if out[i].Live() && out[i].providerId !in known {
        out := out[i := out[i].(deletedAt := Some(now), updatedAt := now)];
      }
    }
  }

  lemma {:induction false} GravesSnoc(ws: seq<Provider>, w: Provider, buried: set<Id>, now: string)
    ensures Graves(ws + [w], buried, now) == Graves(ws, buried, now) + if w.id in buried then [] else [GraveOf(w, now)]
  {
    if ws == [] {
      assert [] + [w] == [w];
    } else {
      var first := if ws[0].id in buried then [] else [GraveOf(ws[0], now)];
      var last := if w.id in buried then [] else [GraveOf(w, now)];
      assert (ws + [w])[1..] == ws[1..] + [w] && (ws + [w])[0] == ws[0];
      GravesSnoc(ws[1..], w, buried, now);
      Associate(first, Graves(ws[1..], buried, now), last);
    }
  }

  /** `_bury_providers`; the buried ids are collected once, before the loop. */
  method BuryLoop(gs: seq<Grave>, withdrawn: seq<Provider>, now: string) returns (out: seq<Grave>)
    ensures out == Bury(gs, withdrawn, now)
  {
    out := gs;
    if withdrawn == [] {
      return;
    }
    var buried := GraveIds(gs);
    for i := 0 to |withdrawn|
      invariant out == gs + Graves(withdrawn[..i], buried, now)
    {
      assert withdrawn[..i + 1] == withdrawn[..i] + [withdrawn[i]];
      GravesSnoc(withdrawn[..i], withdrawn[i], buried, now);
      if withdrawn[i].id in buried {
        continue;
      }
      out := out + [GraveOf(withdrawn[i], now)];
    }
    assert withdrawn[..|withdrawn|] == withdrawn;
  }

  ghost predicate CanServe(c: Config, id: Id) {
    exists p :: p in c.providers && p.id == id && !p.suspended
  }

  // A live profile of a provider that is not suspended.
  ghost predicate CanActivate(c: Config, id: Id) {
    exists f, p :: f in c.profiles && f.id == id && f.Live() && p in c.providers && p.id == f.providerId && !p.suspended
  }

  // ---------------------------------------------------------------- the larger candidates

  method BuildUpdate(c: Config, id: Id, patch: Patch, keyChanged: bool) returns (draft: Outcome)
    ensures draft == UpdateDraft(c, id, patch, keyChanged)
  {
    hide Advance, Reconcile, Patched;
    var i := ProviderIndex(c.providers, id);
    if i == |c.providers| {
      return Outcome.Refused;
    }
    var s := c;
    var before := s.providers[i];
    s := s.(providers := s.providers[i := Patched(before, patch)]);
    var heir: Option<Id> := None;
    if patch.suspended == Some(true) && s.defaultProvider == Some(id) {
      var j := FirstIndex(s.providers, (p: Provider) => p.id != id && !p.suspended);
      heir := if j < |s.providers| then Some(s.providers[j].id) else None;
      s := Reconcile(s.(defaultProvider := heir));
    }
    if Patched(before, patch) == before && !keyChanged {
      return Unchanged;
    }
    draft := Candidate(s.(providers := Advance(Advance(s.providers, Some(id)), heir)));
  }

  method BuildSetDefault(c: Config, id: Id) returns (draft: Outcome)
    ensures draft == SetDefaultDraft(c, id)
  {
    var i := ProviderIndex(c.providers, id);
    if i == |c.providers| || c.providers[i].suspended {
      return Outcome.Refused;
    }
    if c.defaultProvider == Some(id) {
      return Unchanged;
    }
    var ps := Advance(Advance(c.providers, c.defaultProvider), Some(id));
    draft := Candidate(Reconcile(c.(providers := ps, defaultProvider := Some(id))));
  }

  method BuildAddProfile(c: Config, op: Op) returns (draft: Outcome)
    requires op.AddProfile?
    ensures draft == AddProfileDraft(c, op)
  {
    var p := ProviderIndex(c.providers, op.providerId);
    if p == |c.providers| || op.runner == "" {
      return Outcome.Refused;
    }
    var fs := c.profiles;
    var i := FirstIndex(fs, (f: Profile) => f.providerId == op.providerId && f.runner == op.runner);
    if i < |fs| && fs[i].Live() {
      return Outcome.Refused;
    }
    if i < |fs| {
      var f := fs[i].(deletedAt := None, name := Or(op.name, Or(fs[i].name, op.caption)));
      fs := fs[i := f.(model := op.model, effort := op.effort, updatedAt := op.now)];
    } else {
      var name := Or(op.name, op.caption);
      fs := fs + [Profile(op.newId, op.providerId, op.runner, name, op.model, op.effort, op.now, op.now, None)];
    }
    draft := Candidate(c.(profiles := fs));
  }

  method BuildActivate(c: Config, id: Id) returns (draft: Outcome)
    ensures draft == ActivateDraft(c, id)
  {
    hide Advance;
    var i := ProfileIndex(c.profiles, id);
    if i == |c.profiles| || !c.profiles[i].Live() {
      return Outcome.Refused;
    }
    var d := c.profiles[i].providerId;
    var p := ProviderIndex(c.providers, d);
    if p == |c.providers| || c.providers[p].suspended {
      return Outcome.Refused;
    }
    if c.defaultProfile == Some(id) && c.defaultProvider == Some(d) {
      return Unchanged;
    }
    var s := c;
    if s.defaultProvider != Some(d) {
      s := s.(providers := Advance(Advance(s.providers, s.defaultProvider), Some(d)), defaultProvider := Some(d));
    }
    draft := Candidate(s.(defaultProfile := Some(id)));
  }

  method BuildSelect(c: Config, kind: string, makeDefault: bool, record: Provider) returns (draft: Outcome)
    ensures draft == SelectDraft(c, kind, makeDefault, record)
  {
    hide Advance, Reconcile, Ids;
    var i := FirstIndex(c.providers, (p: Provider) => p.kind == kind);
    var created := i == |c.providers|;
    var s := c;
    if created {
      s := s.(providers := s.providers + [record]);
    }
    var woken := s.providers[i].suspended && !created;
    s := s.(providers := s.providers[i := s.providers[i].(suspended := false)]);
    var id, prev := s.providers[i].id, s.defaultProvider;
    if prev != Some(id) && (makeDefault || prev.None? || prev.value !in Ids(s.providers)) {
      s := s.(providers := Advance(s.providers, prev));
      if !created {
        s := s.(providers := Advance(s.providers, Some(id)));
      }
      return Candidate(Reconcile(s.(defaultProvider := Some(id))));
    }
    if woken {
      s := s.(providers := Advance(s.providers, Some(id)));
    }
    draft := if created || woken then Candidate(s) else Unchanged;
  }

  method BuildImport(c: Config, ps: seq<Provider>, d: Option<Id>, now: string) returns (draft: Outcome)
    ensures draft == ImportDraft(c, ps, d, now)
  {
    hide Bury, Without, TombstoneOrphans, Reconcile, Ids;
    var idsOk, known := CheckProviderIds(ps);
    if !idsOk {
      return Outcome.Refused;
    }
    if d.Some? {
      var a := ProviderIndex(ps, d.value);
      if a == |ps| || ps[a].suspended {
        return Outcome.Refused;
      }
    }
    var s := c.(providers := ps, defaultProvider := d);
    var graves := BuryLoop(s.graveyard, Without(c.providers, known), now);
    var profiles := TombstoneLoop(s.profiles, known, now);
    draft := Candidate(Reconcile(s.(graveyard := graves, profiles := profiles)));
  }

  // A provider of the chosen kind is available, and is the default when that is asked for or there was
  // none; otherwise the default stays. No provider is gone.
  ghost predicate Chosen(c: Config, c': Config, kind: string, makeDefault: bool) {
    && Ids(c.providers) <= Ids(c'.providers)
    && exists p :: p in c'.providers && p.kind == kind && !p.suspended
         && c'.defaultProvider == if makeDefault || c.defaultProvider.None? then Some(p.id) else c.defaultProvider
  }

  class ConfigStore {
    var state: Config

    constructor (seed: Config)
      requires Seed(seed)
      ensures state == seed && Inv(state)
    {
      state := seed;
      new;
      RunInv(seed, []);
    }

    /** `_validate_state_for_save` and `_save_state`: all of the candidate, or nothing. */
    method Save(candidate: Config) returns (saved: bool)
      modifies this
      ensures saved <==> Valid(candidate)
      ensures state == if saved then Saved(candidate) else old(state)
    {
      var r := NormalizeLoadedState(candidate);
      saved := r.Ok?;
      if saved {
        state := r.value;
      }
    }

    // What every mutation does with the candidate it has built.
    method Commit(draft: Outcome, ghost op: Op) returns (saved: bool)
      requires Inv(state) && WellSupplied(state, op) && draft == Draft(state, op)
      modifies this
      ensures state == Apply(old(state), op) && Inv(state)
      ensures saved <==> draft.Candidate? && !LeavesNoDefault(old(state), op)
    {
      hide Draft, Valid, Saved, LeavesNoDefault, PairsUnique, WellSupplied;
      ApplyInv(state, op);
      ValidatorAcceptsCandidates(state, op);
      hide Inv;
      saved := false;
      if draft.Candidate? {
        saved := Save(draft.config);
      }
    }

    method UpdateProvider(id: Id, patch: Patch, keyChanged: bool) returns (saved: bool)
      requires Inv(state)
      modifies this
      ensures state == Apply(old(state), Op.UpdateProvider(id, patch, keyChanged)) && Inv(state)
      ensures saved <==> PatchChanges(old(state), id, patch, keyChanged)
                         && !(old(state).defaultProvider.None? && patch.suspended == Some(false))
      ensures Follows(old(state), state)
    {
      UpdatesExactly(state, id, patch, keyChanged);
      hide UpdateDraft, Apply, Inv, Follows, PatchChanges;
      DefaultProfileFollows(state, Op.UpdateProvider(id, patch, keyChanged));
      var draft := BuildUpdate(state, id, patch, keyChanged);
      saved := Commit(draft, Op.UpdateProvider(id, patch, keyChanged));
    }

    method DeleteProvider(id: Id, now: string) returns (deleted: bool, reason: string)
      requires Inv(state) && now != ""
      modifies this
      ensures state == Apply(old(state), Op.DeleteProvider(id, now)) && Inv(state)
      ensures deleted <==> id in Ids(old(state).providers) && old(state).defaultProvider != Some(id)
      ensures reason == if id !in Ids(old(state).providers) then "missing" else if deleted then "ok" else "default"
      ensures deleted ==> id !in Ids(state.providers) && id in GraveIds(state.graveyard)
    {
      ApplyInv(state, Op.DeleteProvider(id, now));
      OnDeleteProvider(state, Op.DeleteProvider(id, now));
      var i := ProviderIndex(state.providers, id);
      if i == |state.providers| {
        return false, "missing";
      }
      assert state.providers[i] in state.providers;
      if state.defaultProvider == Some(id) {
        return false, "default";
      }
      var ps := Without(state.providers, {id});
      var graves := BuryLoop(state.graveyard, [state.providers[i]], now);
      var profiles := TombstoneLoop(state.profiles, Ids(ps), now);
      BuriedStays(state, id, now);
      deleted := Save(state.(providers := ps, graveyard := graves, profiles := profiles));
      reason := "ok";
    }

    method SetDefaultProvider(id: Id) returns (changed: bool)
      requires Inv(state)
      modifies this
      ensures state == Apply(old(state), SetDefault(id)) && Inv(state)
      ensures state.defaultProvider == Some(id) <==> CanServe(old(state), id)
      ensures changed <==> state.defaultProvider == Some(id) && old(state).defaultProvider != Some(id)
      ensures Follows(old(state), state)
    {
      hide Apply, Inv, SetDefaultDraft, CanServe, Follows;
      DefaultProfileFollows(state, SetDefault(id));
      DefaultSetExactly(state, id);
      var draft := BuildSetDefault(state, id);
      changed := Commit(draft, SetDefault(id));
    }

    method AddRuntimeProfile(op: Op) returns (added: bool)
      requires Inv(state) && op.AddProfile? && WellSupplied(state, op)
      modifies this
      ensures state == Apply(old(state), op) && Inv(state)
      ensures added <==> op.runner != "" && op.providerId in Ids(old(state).providers)
                         && !HasLive(old(state), op.providerId, op.runner)
      ensures added ==> HasLive(state, op.providerId, op.runner)
    {
      hide AddProfileDraft, Apply, Inv, WellSupplied, HasLive;
      AddedExactly(state, op);
      var draft := BuildAddProfile(state, op);
      added := Commit(draft, op);
    }

    method DeleteRuntimeProfile(id: Id, now: string) returns (deleted: bool, reason: string)
      requires Inv(state) && now != ""
      modifies this
      ensures state == Apply(old(state), DeleteProfile(id, now)) && Inv(state)
      ensures deleted <==> (exists f :: f in old(state).profiles && f.id == id && f.Live())
                           && old(state).defaultProfile != Some(id)
      ensures reason == if !exists f :: f in old(state).profiles && f.id == id then "missing"
                        else if deleted then "ok"
                        else if old(state).defaultProfile == Some(id) then "default"
                        else "already_deleted"
    {
      ApplyInv(state, DeleteProfile(id, now));
      OnDeleteProfile(state, DeleteProfile(id, now));
      var i := ProfileIndex(state.profiles, id);
      if i == |state.profiles| {
        return false, "missing";
      }
      assert state.profiles[i] in state.profiles;
      if !state.profiles[i].Live() {
        return false, "already_deleted";
      }
      if state.defaultProfile == Some(id) {
        return false, "default";
      }
      deleted := Save(state.(profiles := state.profiles[i := Tombstone(state.profiles[i], now)]));
      reason := "ok";
    }

    method ActivateRuntimeProfile(id: Id) returns (changed: bool)
      requires Inv(state)
      modifies this
      ensures state == Apply(old(state), ActivateProfile(id)) && Inv(state)
      ensures changed <==> CanActivate(old(state), id) && old(state).defaultProfile != Some(id)
      ensures changed ==> state.defaultProfile == Some(id)
    {
      ActivatedExactly(state, id);
      hide ActivateDraft, Apply, Inv, CanActivate;
      var draft := BuildActivate(state, id);
      changed := Commit(draft, ActivateProfile(id));
    }

    method AddProvider(record: Provider) returns (saved: bool)
      requires Inv(state) && record.id != "" && record.id !in Ids(state.providers)
      modifies this
      ensures state == Apply(old(state), Op.AddProvider(record)) && Inv(state)
      ensures saved <==> record.suspended || old(state).defaultProvider.Some?
    {
      ApplyInv(state, Op.AddProvider(record));
      OnAddProvider(state, Op.AddProvider(record));
      saved := Save(state.(providers := state.providers + [record]));
    }

    method UpdateRuntimeProfile(op: Op) returns (saved: bool)
      requires Inv(state) && op.UpdateProfile? && WellSupplied(state, op)
      modifies this
      ensures state == Apply(old(state), op) && Inv(state)
      ensures saved <==> ProfileChanges(old(state), op)
    {
      UpdatesProfileExactly(state, op);
      ApplyInv(state, op);
      OnUpdateProfile(state, op);
      var fs := state.profiles;
      var i := ProfileIndex(fs, op.id);
      if i == |fs| || !fs[i].Live() || ProviderIndex(state.providers, fs[i].providerId) == |state.providers| {
        return false;
      }
      var f := fs[i];
      if op.newName.Some? {
        f := f.(name := Or(op.newName.value, op.caption));
      }
      f := f.(model := op.model, effort := op.effort);
      if f == fs[i] {
        return false;
      }
      saved := Save(state.(profiles := fs[i := f.(updatedAt := op.now)]));
    }

    /** `apply_installation_profile_selection`: the chosen kind becomes available, and the default
        when it is a fresh choice or there is no default; nobody else is withdrawn. */
    method SelectInstallation(kind: string, makeDefault: bool, record: Provider) returns (saved: bool)
      requires Inv(state) && WellSupplied(state, Op.SelectInstallation(kind, makeDefault, record))
      modifies this
      ensures state == Apply(old(state), Op.SelectInstallation(kind, makeDefault, record)) && Inv(state)
      ensures Chosen(old(state), state, kind, makeDefault) && Follows(old(state), state)
    {
      hide SelectDraft, Apply, Inv, WellSupplied, Chosen, Follows;
      DefaultProfileFollows(state, Op.SelectInstallation(kind, makeDefault, record));
      SelectMakesAvailable(state, kind, makeDefault, record);
      var draft := BuildSelect(state, kind, makeDefault, record);
      saved := Commit(draft, Op.SelectInstallation(kind, makeDefault, record));
    }

    /** `_import_provider_sync_state`, for a payload whose authority may replace the current one. A payload
        of the current authority is validated like any other, but nothing is saved. */
    method ImportSyncState(ps: seq<Provider>, d: Option<Id>, now: string, sameAuthority: bool)
        returns (accepted: bool, saved: bool)
      requires Inv(state) && now != ""
      modifies this
      ensures state == (if sameAuthority then old(state) else Apply(old(state), ImportSync(ps, d, now))) && Inv(state)
      ensures accepted <==> SnapshotOk(ps, d) && !(d.None? && exists i :: 0 <= i < |ps| && !ps[i].suspended)
      ensures saved <==> accepted && !sameAuthority
      ensures saved ==> Rederived(old(state).defaultProfile, state)
    {
      hide ImportDraft, SnapshotOk, Apply, Inv, Saved, Valid, Rederived;
      DefaultProfileFollows(state, ImportSync(ps, d, now));
      ImportedExactly(state, ps, d, now);
      var draft := BuildImport(state, ps, d, now);
      accepted, saved := false, false;
      if draft.Candidate? {
        var r := NormalizeLoadedState(draft.config);
        accepted := r.Ok?;
      }
      if !sameAuthority {
        saved := Commit(draft, ImportSync(ps, d, now));
      }
    }
  }

  lemma SelectMakesAvailable(c: Config, kind: string, makeDefault: bool, record: Provider)
    requires Inv(c) && WellSupplied(c, Op.SelectInstallation(kind, makeDefault, record))
    ensures Chosen(c, Apply(c, Op.SelectInstallation(kind, makeDefault, record)), kind, makeDefault)
  {
    var (ps, i) := MadeAvailable(c, kind, record);
    var c' := Apply(c, Op.SelectInstallation(kind, makeDefault, record));
    assert ps[i].kind == kind && !ps[i].suspended;
    SelectShape(c, kind, makeDefault, record);
    AvailableOk(c, kind, record);
    hide MadeAvailable, Apply, WellSupplied, Inv;
    var a, b :| c'.providers == Advance(Advance(ps, a), b);
    AdvanceShape(ps, a);
    AdvanceShape(Advance(ps, a), b);
    AdvanceKeeps(ps, a, None);
    AdvanceKeeps(Advance(ps, a), b, None);
    assert Advanced(ps[i], Advance(ps, a)[i]) && Advanced(Advance(ps, a)[i], c'.providers[i]);
    assert c'.providers[i] in c'.providers;
    hide Advance, Ids;
  }

  lemma OnlyPair(fs: seq<Profile>, i: nat, providerId: Id, runner: string)
    requires PairsUnique(fs)
    requires i <= |fs| && (i < |fs| ==> Pair(fs[i]) == (providerId, runner) && !fs[i].Live())
    requires forall k :: 0 <= k < i ==> Pair(fs[k]) != (providerId, runner)
    ensures forall f :: f in fs && f.Live() ==> Pair(f) != (providerId, runner)
  {
    forall f | f in fs && f.Live() ensures Pair(f) != (providerId, runner) {
      var k :| 0 <= k < |fs| && fs[k] == f;
      assert k > i ==> !SamePair(fs[i], fs[k]);
    }
  }

  ghost predicate HasLive(c: Config, providerId: Id, runner: string) {
    exists f :: f in c.profiles && f.Live() && Pair(f) == (providerId, runner)
  }

  // A profile is added exactly when the pair is known and has no live one; then it has one.
  lemma AddedExactly(c: Config, op: Op)
    requires Inv(c) && op.AddProfile? && WellSupplied(c, op)
    ensures AddProfileDraft(c, op).Candidate? <==>
            op.runner != "" && op.providerId in Ids(c.providers) && !HasLive(c, op.providerId, op.runner)
    ensures AddProfileDraft(c, op).Candidate? ==> HasLive(Apply(c, op), op.providerId, op.runner)
  {
    if AddProfileDraft(c, op).Candidate? {
      AddedLives(c, op);
    }
    hide Apply;
    var p := ProviderIndex(c.providers, op.providerId);
    var i := FirstIndex(c.profiles, (f: Profile) => f.providerId == op.providerId && f.runner == op.runner);
    assert p < |c.providers| ==> c.providers[p] in c.providers;
    if i < |c.profiles| && c.profiles[i].Live() {
      assert c.profiles[i] in c.profiles;
    } else {
      OnlyPair(c.profiles, i, op.providerId, op.runner);
    }
    hide Inv, WellSupplied;
  }

  lemma AddedLives(c: Config, op: Op)
    requires Inv(c) && op.AddProfile? && WellSupplied(c, op) && AddProfileDraft(c, op).Candidate?
    ensures HasLive(Apply(c, op), op.providerId, op.runner)
  {
    var i := FirstIndex(c.profiles, (f: Profile) => f.providerId == op.providerId && f.runner == op.runner);
    AddOk(c, op);
    AddedProfile(c, op);
    AddedIsSaved(c, op);
    hide AddProfileDraft, Inv, ProfileFieldsOk, Valid, WellSupplied, FirstIndex;
    assert AddProfileDraft(c, op).config.profiles[i] in Apply(c, op).profiles;
    hide Apply;
  }

  lemma AddedIsSaved(c: Config, op: Op)
    requires op.AddProfile? && AddProfileDraft(c, op).Candidate? && Valid(AddProfileDraft(c, op).config)
    ensures Apply(c, op) == Saved(AddProfileDraft(c, op).config)
  {
    hide AddProfileDraft, Valid, Disjoint;
  }

  // A payload is accepted exactly when it is sound and names a default if something is available.
  lemma ImportedExactly(c: Config, ps: seq<Provider>, d: Option<Id>, now: string)
    requires Inv(c) && now != ""
    ensures ImportDraft(c, ps, d, now).Candidate? <==> SnapshotOk(ps, d)
    ensures SnapshotOk(ps, d) ==>
              (Valid(ImportDraft(c, ps, d, now).config) <==>
                !(d.None? && exists i :: 0 <= i < |ps| && !ps[i].suspended))
  {
    hide Valid, Reconcile, Bury, Without, TombstoneOrphans, Ids, SnapshotOk;
    OnImport(c, ImportSync(ps, d, now));
    hide Inv, PairsUnique;
  }

  // The default moves exactly to a provider that exists and is not suspended.
  lemma DefaultSetExactly(c: Config, id: Id)
    requires Inv(c)
    ensures SetDefaultDraft(c, id).Candidate? <==> CanServe(c, id) && c.defaultProvider != Some(id)
    ensures Apply(c, SetDefault(id)).defaultProvider == Some(id) <==> CanServe(c, id)
  {
    hide Advance, Disjoint;
    var i := ProviderIndex(c.providers, id);
    assert i < |c.providers| ==> c.providers[i] in c.providers;
    hide FirstIndex;
    if SetDefaultDraft(c, id).Candidate? {
      SetDefaultOk(c, id);
      var ps := Advance(Advance(c.providers, c.defaultProvider), Some(id));
      ReconcileKeeps(c.(providers := ps, defaultProvider := Some(id)));
    }
    hide Reconcile, Valid;
  }

  lemma ActivatedExactly(c: Config, id: Id)
    requires Inv(c)
    ensures ActivateDraft(c, id).Candidate? <==> CanActivate(c, id) && c.defaultProfile != Some(id)
    ensures ActivateDraft(c, id).Candidate? ==> Apply(c, ActivateProfile(id)).defaultProfile == Some(id)
  {
    hide Inv, Valid, CanActivate, Advance, FirstIndex;
    ActivatableExactly(c, id);
    if ActivateDraft(c, id).Candidate? {
      ActivateOk(c, id);
      ActivatedIsSaved(c, id);
    }
  }

  lemma ActivatedIsSaved(c: Config, id: Id)
    requires ActivateDraft(c, id).Candidate? && Valid(ActivateDraft(c, id).config)
    ensures Apply(c, ActivateProfile(id)) == Saved(ActivateDraft(c, id).config)
  {
    hide ActivateDraft, Valid, Disjoint;
  }

  // The first profile with the id, and the first provider it names, are the only ones.
  lemma ActivatableExactly(c: Config, id: Id)
    requires Inv(c)
    ensures var i := ProfileIndex(c.profiles, id);
            CanActivate(c, id) <==>
            && i < |c.profiles| && c.profiles[i].Live()
            && var p := ProviderIndex(c.providers, c.profiles[i].providerId);
               p < |c.providers| && !c.providers[p].suspended
    ensures c.defaultProfile == Some(id) ==>
              var i := ProfileIndex(c.profiles, id);
              i < |c.profiles| && c.defaultProvider == Some(c.profiles[i].providerId)
  {
    var i := ProfileIndex(c.profiles, id);
    if i < |c.profiles| {
      assert c.profiles[i] in c.profiles;
      var p := ProviderIndex(c.providers, c.profiles[i].providerId);
      assert p < |c.providers| ==> c.providers[p] in c.providers;
    }
  }

  // The deleted provider is in the saved graveyard.
  lemma BuriedStays(c: Config, id: Id, now: string)
    requires Inv(c) && id in Ids(c.providers) && now != ""
    ensures var ps := Without(c.providers, {id});
            var i := ProviderIndex(c.providers, id);
            i < |c.providers| && id !in Ids(ps)
            && id in GraveIds(Disjoint(Bury(c.graveyard, [c.providers[i]], now), Ids(ps)))
  {
    var ps := Without(c.providers, {id});
    WithoutShape(c.providers, {id});
    var k :| 0 <= k < |c.providers| && c.providers[k].id == id;
    var i := ProviderIndex(c.providers, id);
    var gs := Bury(c.graveyard, [c.providers[i]], now);
    DisjointShape(gs, Ids(ps));
    assert id !in GraveIds(c.graveyard);
    GravesShape([c.providers[i]], GraveIds(c.graveyard), now);
    var g := GraveOf(c.providers[i], now);
    assert [c.providers[i]][0] == c.providers[i];
    assert g in gs && g in Disjoint(gs, Ids(ps));
  }
}
