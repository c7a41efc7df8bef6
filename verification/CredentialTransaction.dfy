/** `_credential_transaction` of `config_store.py`: compare-and-set writes to a credential authority
    that other processes write too, rolled back in reverse when anything fails.

    The authority is a small assumed contract: it answers one request at a time, other writers act
    between any two requests, a request may be blocked, and a compare-set reports truthfully. */
module CredentialTransaction {
  import opened Wrappers
  import opened Sequences

  type Id = string

  type Change = (Id, string)

  datatype Write = Foreign(id: Id, value: string) | Ours(id: Id, replaced: string, value: string)

  datatype World = World(values: map<Id, string>, log: seq<Write>) {
    function Put(w: Write): World {
      World(values[w.id := w.value], log + [w])
    }

    // A missing credential reads as the empty string.
    // A missing credential reads as an empty one.
    function Val(id: Id): string {
      if id in values then values[id] else ""
    }
  }

  function Interfered(w: World, ws: seq<Change>): World
    decreases |ws|
  {
    if ws == [] then w else Interfered(w.Put(Foreign(ws[0].0, ws[0].1)), ws[1..])
  }

  // The last write to id at or after position start of the log came from another writer.
  predicate LastIsForeign(log: seq<Write>, start: nat, id: Id) {
    if |log| <= start then false
    else if log[|log| - 1].id == id then log[|log| - 1].Foreign?
    else LastIsForeign(log[..|log| - 1], start, id)
  }

  // Our writes since start, oldest first.
  function Own(log: seq<Write>, start: nat): seq<Write> {
    if |log| <= start then []
    else Own(log[..|log| - 1], start) + if log[|log| - 1].Ours? then [log[|log| - 1]] else []
  }

  ghost predicate OnlyOurs(log: seq<Write>, start: nat) {
    forall k :: start <= k < |log| ==> log[k].Ours?
  }

  // The credential has its home value (the snapshot), or another writer has had the last word.
  predicate Settled(w: World, start: nat, home: World, id: Id) {
    w.Val(id) == home.Val(id) || LastIsForeign(w.log, start, id)
  }

  // Every credential outside `pending` is settled, and these are our writes so far.
  ghost predicate Progress(w: World, start: nat, home: World, pending: set<Id>, own: seq<Write>) {
    && start <= |w.log|
    && Own(w.log, start) == own
    && forall id :: id !in pending ==> Settled(w, start, home, id)
  }

  lemma PutProgress(w: World, start: nat, home: World, pending: set<Id>, own: seq<Write>, x: Write)
    requires Progress(w, start, home, pending, own)
    ensures x.Foreign? ==> Progress(w.Put(x), start, home, pending, own)
    ensures x.Ours? ==> Progress(w.Put(x), start, home, pending + {x.id}, own + [x])
    ensures x.Ours? && x.value == home.Val(x.id) ==> Progress(w.Put(x), start, home, pending - {x.id}, own + [x])
  {
    assert w.Put(x).log[..|w.log|] == w.log;
    forall id | id !in pending && id != x.id ensures Settled(w.Put(x), start, home, id) {
      assert Settled(w, start, home, id);
    }
  }

  lemma {:induction false} InterferedProgress(w: World, ws: seq<Change>, start: nat, home: World, pending: set<Id>,
                                              own: seq<Write>)
    requires Progress(w, start, home, pending, own)
    ensures Progress(Interfered(w, ws), start, home, pending, own)
    decreases |ws|
  {
    if ws != [] {
      var x := Foreign(ws[0].0, ws[0].1);
      PutProgress(w, start, home, pending, own, x);
      InterferedProgress(w.Put(x), ws[1..], start, home, pending, own);
    }
  }

  // What others write just before request n, and whether it is answered.
  datatype Env = Env(foreign: nat -> seq<Change>, blocked: nat -> bool)

  // No other writer, and every request is answered.
  ghost predicate Quiet(env: Env) {
    forall n :: env.foreign(n) == [] && !env.blocked(n)
  }

  // The authority before its request `tick`.
  datatype Sys = Sys(w: World, tick: nat)

  function Asked(env: Env, s: Sys): Sys {
    Sys(Interfered(s.w, env.foreign(s.tick)), s.tick + 1)
  }

  function CompareSetOf(env: Env, s: Sys, id: Id, expected: string, value: string): (Sys, bool) {
    var t := Asked(env, s);
    if !env.blocked(s.tick) && t.w.Val(id) == expected then (t.(w := t.w.Put(Ours(id, expected, value))), true)
    else (t, false)
  }

  // The value the log leaves: of the last write to id, or the initial one.
  function LastValue(initial: map<Id, string>, log: seq<Write>, id: Id): string {
    if log == [] then World(initial, []).Val(id)
    else if log[|log| - 1].id == id then log[|log| - 1].value
    else LastValue(initial, log[..|log| - 1], id)
  }

  // The log explains the values, and each write of ours replaced what it says it did.
  ghost predicate Faithful(initial: map<Id, string>, w: World) {
    && (forall id :: w.Val(id) == LastValue(initial, w.log, id))
    && (forall p :: 0 <= p < |w.log| && w.log[p].Ours? ==>
          w.log[p].replaced == LastValue(initial, w.log[..p], w.log[p].id))
  }

  lemma PutFaithful(initial: map<Id, string>, w: World, x: Write)
    requires Faithful(initial, w) && (x.Ours? ==> x.replaced == w.Val(x.id))
    ensures Faithful(initial, w.Put(x))
  {
    var log := w.Put(x).log;
    assert log[..|w.log|] == w.log;
    forall p | 0 <= p < |log| && log[p].Ours?
      ensures log[p].replaced == LastValue(initial, log[..p], log[p].id)
    {
      if p < |w.log| {
        assert log[..p] == w.log[..p];
      }
    }
  }

  lemma {:induction false} InterferedFaithful(initial: map<Id, string>, w: World, ws: seq<Change>)
    requires Faithful(initial, w)
    ensures Faithful(initial, Interfered(w, ws))
    decreases |ws|
  {
    if ws != [] {
      var x := Foreign(ws[0].0, ws[0].1);
      PutFaithful(initial, w, x);
      InterferedFaithful(initial, w.Put(x), ws[1..]);
    }
  }

  class CredentialAuthority {
    const env: Env
    ghost const initial: map<Id, string>
    var values: map<Id, string>
    var tick: nat
    ghost var log: seq<Write>

    ghost predicate Valid() reads this {
      Faithful(initial, View())
    }

    constructor (values: map<Id, string>, env: Env)
      ensures Valid() && System() == Sys(World(values, []), 0) && this.env == env && initial == values
    {
      this.values, this.env, initial := values, env, values;
      tick, log := 0, [];
    }

    ghost function View(): World
      reads this
    {
      World(values, log)
    }

    ghost function System(): Sys
      reads this
    {
      Sys(View(), tick)
    }

    method Interfere()
      requires Valid()
      modifies this
      ensures Valid() && System() == Asked(env, old(System()))
    {
      var ws := env.foreign(tick);
      InterferedFaithful(initial, View(), ws);
      while ws != []
        invariant Interfered(View(), ws) == Interfered(old(View()), env.foreign(old(tick))) && tick == old(tick)
        decreases |ws|
      {
        var (id, value) := ws[0];
        values := values[id := value];
        log := log + [Foreign(id, value)];
        ws := ws[1..];
      }
      tick := tick + 1;
    }

    method Read(id: Id) returns (value: Option<string>)
      requires Valid()
      modifies this
      ensures Valid() && System() == Asked(env, old(System()))
      ensures value == if env.blocked(old(tick)) then None else Some(View().Val(id))
      ensures value.Some? ==> value.value == if id in values then values[id] else ""
    {
      var n := tick;
      Interfere();
      value := if env.blocked(n) then None else Some(if id in values then values[id] else "");
    }

    method CompareSet(id: Id, expected: string, value: string) returns (applied: bool)
      requires Valid()
      modifies this
      ensures Valid() && (System(), applied) == CompareSetOf(env, old(System()), id, expected, value)
    {
      var n := tick;
      Interfere();
      applied := !env.blocked(n) && (if id in values then values[id] else "") == expected;
      if applied {
        PutFaithful(initial, View(), Ours(id, expected, value));
        values := values[id := value];
        log := log + [Ours(id, expected, value)];
      }
    }
  }

  // ---------------------------------------------------------------- the transaction

  function ChangedIds(changes: seq<Change>): set<Id> {
    set c | c in changes :: c.0
  }

  // `dict(changes)`: the last value given for an id wins.
  function Desired(changes: seq<Change>): (m: map<Id, string>)
    ensures m.Keys == ChangedIds(changes)
  {
    if changes == [] then map[]
    else
      var n := |changes| - 1;
      assert changes == changes[..n] + [changes[n]];
      Desired(changes[..n])[changes[n].0 := changes[n].1]
  }

  // Changes of the same credential write the same value.
  predicate Consistent(changes: seq<Change>) {
    forall i, j :: 0 <= i < j < |changes| && changes[i].0 == changes[j].0 ==> changes[i].1 == changes[j].1
  }

  lemma {:induction false} DesiredOf(changes: seq<Change>, i: nat)
    requires i < |changes| && Consistent(changes)
    ensures Desired(changes)[changes[i].0] == changes[i].1
  {
    var n := |changes| - 1;
    if i < n && changes[i].0 != changes[n].0 {
      DesiredOf(changes[..n], i);
      assert changes[..n][i] == changes[i];
    }
  }

  // What applying all changes writes, in order; each replaces the snapshot.
  function Applied(changes: seq<Change>, snap: map<Id, string>): (r: seq<Write>)
    requires forall c :: c in changes ==> c.0 in snap
    ensures |r| == |changes|
  {
    seq(|changes|, i requires 0 <= i < |changes| => Ours(changes[i].0, snap[changes[i].0], changes[i].1))
  }

  // Home: the snapshot where one was taken, the value before the transaction elsewhere.
  function Home(before: map<Id, string>, snap: map<Id, string>): World {
    World(before + snap, [])
  }

  lemma SnapshotProgress(w: World, start: nat, before: map<Id, string>, snap: map<Id, string>, id: Id)
    requires Progress(w, start, Home(before, snap), {}, [])
    ensures Progress(w, start, Home(before, snap[id := w.Val(id)]), {}, [])
  {
    var home := Home(before, snap[id := w.Val(id)]);
    forall x ensures Settled(w, start, home, x) {
      assert Settled(w, start, Home(before, snap), x);
    }
  }

  // The snapshots, and whether they could all be read.
  function SnapshotsFrom(env: Env, s: Sys, changes: seq<Change>, i: nat, snap: map<Id, string>)
      : (Sys, bool, map<Id, string>)
    requires i <= |changes|
    decreases |changes| - i
  {
    if i == |changes| then (s, true, snap)
    else if env.blocked(s.tick) then (Asked(env, s), false, snap)
    else
      var t := Asked(env, s);
      SnapshotsFrom(env, t, changes, i + 1, snap[changes[i].0 := t.w.Val(changes[i].0)])
  }

  method TakeSnapshots(auth: CredentialAuthority, changes: seq<Change>)
      returns (ok: bool, snap: map<Id, string>)
    requires auth.Valid()
    modifies auth
    ensures auth.Valid() && (auth.System(), ok, snap) == SnapshotsFrom(auth.env, old(auth.System()), changes, 0, map[])
    ensures Progress(auth.View(), |old(auth.log)|, Home(old(auth.values), snap), {}, [])
    ensures ok ==> snap.Keys == ChangedIds(changes)
  {
    snap := map[];
    ghost var start, before := |auth.log|, auth.values;
    var i := 0;
    while i < |changes|
      invariant i <= |changes| && auth.Valid()
      invariant SnapshotsFrom(auth.env, old(auth.System()), changes, 0, map[])
                == SnapshotsFrom(auth.env, auth.System(), changes, i, snap)
      invariant snap.Keys == ChangedIds(changes[..i])
      invariant Progress(auth.View(), start, Home(before, snap), {}, [])
    {
      var id := changes[i].0;
      InterferedProgress(auth.View(), auth.env.foreign(auth.tick), start, Home(before, snap), {}, []);
      var v := auth.Read(id);
      if v.None? {
        return false, snap;
      }
      SnapshotProgress(auth.View(), start, before, snap, id);
      snap := snap[id := v.value];
      TakeOne(changes, i);
      i := i + 1;
    }
    assert changes[..|changes|] == changes;
    ok := true;
  }

  /** One compare-set, with the progress it makes. */
  method TrackedCompareSet(auth: CredentialAuthority, id: Id, expected: string, value: string,
                           ghost start: nat, ghost home: World, ghost pending: set<Id>, ghost own: seq<Write>)
      returns (applied: bool)
    requires auth.Valid() && Progress(auth.View(), start, home, pending, own)
    modifies auth
    ensures auth.Valid() && (auth.System(), applied) == CompareSetOf(auth.env, old(auth.System()), id, expected, value)
    ensures applied ==> Progress(auth.View(), start, home, pending + {id}, own + [Ours(id, expected, value)])
    ensures applied && value == home.Val(id) ==>
              Progress(auth.View(), start, home, pending - {id}, own + [Ours(id, expected, value)])
    ensures !applied ==> Progress(auth.View(), start, home, pending, own)
  {
    InterferedProgress(auth.View(), auth.env.foreign(auth.tick), start, home, pending, own);
    PutProgress(Asked(auth.env, auth.System()).w, start, home, pending, own, Ours(id, expected, value));
    applied := auth.CompareSet(id, expected, value);
  }

  lemma AppliedSnoc(changes: seq<Change>, snap: map<Id, string>, k: nat)
    requires k < |changes| && (forall c :: c in changes ==> c.0 in snap) && changes[k] in changes
    ensures Applied(changes, snap)[..k + 1]
            == Applied(changes, snap)[..k] + [Ours(changes[k].0, snap[changes[k].0], changes[k].1)]
  {
  }

  lemma TakeOne(changes: seq<Change>, k: nat)
    requires k < |changes|
    ensures changes[k] in changes && changes[k].0 in ChangedIds(changes)
    ensures ChangedIds(changes[..k + 1]) == ChangedIds(changes[..k]) + {changes[k].0}
  {
    assert changes[..k + 1] == changes[..k] + [changes[k]];
  }

  // Every changed credential has an entry.
  predicate Covers(m: map<Id, string>, changes: seq<Change>) {
    forall c :: c in changes ==> c.0 in m
  }

  // The apply loop from entry k on: where it stops, and at which entry.
  function ApplyFrom(env: Env, s: Sys, changes: seq<Change>, snap: map<Id, string>, k: nat): (r: (Sys, nat))
    requires k <= |changes| && Covers(snap, changes)
    ensures k <= r.1 <= |changes|
    decreases |changes| - k
  {
    if k == |changes| then (s, k)
    else
      assert changes[k] in changes;
      var (t, applied) := CompareSetOf(env, s, changes[k].0, snap[changes[k].0], changes[k].1);
      if applied then ApplyFrom(env, t, changes, snap, k + 1) else (t, k)
  }

  /** The apply loop; it stops at the first compare-set that fails. */
  method ApplyChanges(auth: CredentialAuthority, changes: seq<Change>, snap: map<Id, string>,
                      ghost start: nat, ghost home: World)
      returns (k: nat)
    requires auth.Valid() && Progress(auth.View(), start, home, {}, [])
    requires snap.Keys == ChangedIds(changes)
    modifies auth
    ensures auth.Valid() && k <= |changes|
    ensures (auth.System(), k) == ApplyFrom(auth.env, old(auth.System()), changes, snap, 0)
    ensures Progress(auth.View(), start, home, ChangedIds(changes[..k]), Applied(changes, snap)[..k])
  {
    k := 0;
    hide Progress, Interfered, Applied, CompareSetOf, Faithful;
    while k < |changes|
      invariant k <= |changes| && auth.Valid()
      invariant ApplyFrom(auth.env, old(auth.System()), changes, snap, 0)
                == ApplyFrom(auth.env, auth.System(), changes, snap, k)
      invariant Progress(auth.View(), start, home, ChangedIds(changes[..k]), Applied(changes, snap)[..k])
    {
      var (id, value) := changes[k];
      TakeOne(changes, k);
      AppliedSnoc(changes, snap, k);
      ghost var pending, own := ChangedIds(changes[..k]), Applied(changes, snap)[..k];
      var applied := TrackedCompareSet(auth, id, snap[id], value, start, home, pending, own);
      if !applied {
        return;
      }
      k := k + 1;
    }
  }

  // The undo of one entry: its desired value back to its snapshot.
  ghost predicate Undoes(w: Write, desired: map<Id, string>, snap: map<Id, string>) {
    w.Ours? && w.id in snap && w.id in desired && w.replaced == desired[w.id] && w.value == snap[w.id]
  }

  ghost predicate AllUndo(ws: seq<Write>, desired: map<Id, string>, snap: map<Id, string>) {
    forall j :: 0 <= j < |ws| ==> Undoes(ws[j], desired, snap)
  }

  lemma UndoneSnoc(undone: seq<Write>, desired: map<Id, string>, snap: map<Id, string>, id: Id)
    requires AllUndo(undone, desired, snap) && id in desired && id in snap
    ensures AllUndo(undone + [Ours(id, desired[id], snap[id])], desired, snap)
  {
  }

  // The rollback of the first i entries, newest first: whether every one succeeds.
  function UndoFrom(env: Env, s: Sys, changes: seq<Change>, desired: map<Id, string>, snap: map<Id, string>,
                    i: nat): (Sys, bool)
    requires i <= |changes| && Covers(snap, changes) && Covers(desired, changes)
    decreases i
  {
    if i == 0 then (s, true)
    else
      assert changes[i - 1] in changes;
      var id := changes[i - 1].0;
      var (t, applied) := CompareSetOf(env, s, id, desired[id], snap[id]);
      var (u, clean) := UndoFrom(env, t, changes, desired, snap, i - 1);
      (u, applied && clean)
  }

  /** The rollback loop: newest first, every entry tried. */
  method RollBack(auth: CredentialAuthority, changes: seq<Change>, k: nat, snap: map<Id, string>,
                  ghost start: nat, ghost home: World, ghost own: seq<Write>)
      returns (clean: bool, ghost undone: seq<Write>)
    requires auth.Valid() && k <= |changes| && snap.Keys == ChangedIds(changes)
    requires Progress(auth.View(), start, home, ChangedIds(changes[..k]), own)
    requires forall id :: id in snap ==> home.Val(id) == snap[id]
    modifies auth
    ensures auth.Valid()
    ensures (auth.System(), clean) == UndoFrom(auth.env, old(auth.System()), changes, Desired(changes), snap, k)
    ensures Progress(auth.View(), start, home, if clean then {} else ChangedIds(changes[..k]), own + undone)
    ensures AllUndo(undone, Desired(changes), snap)
  {
    clean, undone := true, [];
    var desired := Desired(changes);
    assert Covers(snap, changes) && Covers(desired, changes) && own + [] == own;
    ghost var whole := UndoFrom(auth.env, auth.System(), changes, desired, snap, k);
    assert Undoing(auth.env, whole, auth.System(), changes, desired, snap, k, k, true, start, home, own, []);
    var i: nat := k;
    hide Undoing, Faithful, Covers;
    while i > 0
      invariant i <= k && auth.Valid()
      invariant Undoing(auth.env, whole, auth.System(), changes, desired, snap, i, k, clean, start, home, own, undone)
    {
      i := i - 1;
      var applied;
      applied, undone := UndoOne(auth, whole, changes, i, k, clean, desired, snap, start, home, own, undone);
      clean := clean && applied;
    }
    Undone(auth.env, whole, auth.System(), changes, desired, snap, k, clean, start, home, own, undone);
  }

  // Where the rollback is before it undoes entry i: what is left of it, and its progress.
  ghost predicate Undoing(env: Env, whole: (Sys, bool), s: Sys, changes: seq<Change>, desired: map<Id, string>,
                          snap: map<Id, string>, i: nat, k: nat, clean: bool, start: nat, home: World,
                          own: seq<Write>, undone: seq<Write>)
    requires i <= k <= |changes| && Covers(snap, changes) && Covers(desired, changes)
  {
    var rest := UndoFrom(env, s, changes, desired, snap, i);
    && whole.0 == rest.0 && whole.1 == (clean && rest.1)
    && Progress(s.w, start, home, Pending(changes, clean, i, k), own + undone)
    && AllUndo(undone, desired, snap)
  }

  lemma Undone(env: Env, whole: (Sys, bool), s: Sys, changes: seq<Change>, desired: map<Id, string>,
               snap: map<Id, string>, k: nat, clean: bool, start: nat, home: World, own: seq<Write>, undone: seq<Write>)
    requires k <= |changes| && Covers(snap, changes) && Covers(desired, changes)
    requires Undoing(env, whole, s, changes, desired, snap, 0, k, clean, start, home, own, undone)
    ensures whole == (s, clean) && AllUndo(undone, desired, snap)
    ensures Progress(s.w, start, home, if clean then {} else ChangedIds(changes[..k]), own + undone)
  {
    assert Pending(changes, clean, 0, k) == if clean then {} else ChangedIds(changes[..k]);
    hide Progress, AllUndo, Pending;
  }

  // What is not settled yet: what is still to be undone, or everything once something failed.
  ghost function Pending(changes: seq<Change>, clean: bool, i: nat, k: nat): set<Id>
    requires i <= k <= |changes|
  {
    if clean then ChangedIds(changes[..i]) else ChangedIds(changes[..k])
  }

  lemma PendingOne(changes: seq<Change>, clean: bool, i: nat, k: nat)
    requires i < k <= |changes|
    ensures Pending(changes, clean, i + 1, k) - {changes[i].0} <= Pending(changes, clean, i, k)
    ensures Pending(changes, clean, i + 1, k) <= Pending(changes, false, i, k)
  {
    TakeOne(changes, i);
    assert forall j :: 0 <= j <= i ==> changes[..i + 1][j] == changes[..k][j];
  }

  // One turn of the rollback loop.
  method UndoOne(auth: CredentialAuthority, ghost whole: (Sys, bool), changes: seq<Change>, i: nat, ghost k: nat,
                 ghost clean: bool, desired: map<Id, string>, snap: map<Id, string>,
                 ghost start: nat, ghost home: World, ghost own: seq<Write>, ghost undone: seq<Write>)
      returns (applied: bool, ghost undone': seq<Write>)
    requires i < k <= |changes| && auth.Valid() && Covers(snap, changes) && Covers(desired, changes)
    requires forall id :: id in snap ==> home.Val(id) == snap[id]
    requires Undoing(auth.env, whole, auth.System(), changes, desired, snap, i + 1, k, clean, start, home, own, undone)
    modifies auth
    ensures auth.Valid()
    ensures Undoing(auth.env, whole, auth.System(), changes, desired, snap, i, k, clean && applied, start, home, own,
                    undone')
  {
    UndoStep(auth.env, auth.System(), changes, desired, snap, i + 1);
    hide Progress, Interfered, AllUndo, Undoes, CompareSetOf, Faithful, Pending, Covers, UndoFrom;
    var id := changes[i].0;
    ghost var pending := Pending(changes, clean, i + 1, k);
    PendingOne(changes, clean, i, k);
    applied := TrackedCompareSet(auth, id, desired[id], snap[id], start, home, pending, own + undone);
    undone' := undone;
    if applied {
      Associate(own, undone, [Ours(id, desired[id], snap[id])]);
      UndoneSnoc(undone, desired, snap, id);
      undone' := undone + [Ours(id, desired[id], snap[id])];
      MorePending(auth.View(), start, home, pending - {id}, Pending(changes, clean, i, k), own + undone');
    } else {
      MorePending(auth.View(), start, home, pending, Pending(changes, false, i, k), own + undone');
    }
  }

  lemma UndoStep(env: Env, s: Sys, changes: seq<Change>, desired: map<Id, string>, snap: map<Id, string>, i: nat)
    requires i <= |changes| && Covers(snap, changes) && Covers(desired, changes)
    ensures i == 0 ==> UndoFrom(env, s, changes, desired, snap, i) == (s, true)
    ensures i > 0 ==>
              && changes[i - 1] in changes && changes[i - 1].0 in snap && changes[i - 1].0 in desired
              && var id := changes[i - 1].0;
                 var (t, applied) := CompareSetOf(env, s, id, desired[id], snap[id]);
                 var (u, clean) := UndoFrom(env, t, changes, desired, snap, i - 1);
                 UndoFrom(env, s, changes, desired, snap, i) == (u, applied && clean)
  {
  }

  lemma MorePending(w: World, start: nat, home: World, pending: set<Id>, more: set<Id>, own: seq<Write>)
    requires Progress(w, start, home, pending, own) && pending <= more
    ensures Progress(w, start, home, more, own)
  {
  }

  // Aborted raises the original failure; RollbackFailed reports an incomplete rollback.
  datatype Outcome = Committed | Aborted | RollbackFailed

  // Every write of ours stood in for the snapshot, or put the snapshot back for the desired value.
  ghost predicate ReplacesExpected(own: seq<Write>, changes: seq<Change>, snap: map<Id, string>) {
    forall k :: 0 <= k < |own| ==>
      var w := own[k];
      && w.Ours? && w.id in snap && w.id in ChangedIds(changes)
      && (w.replaced == snap[w.id] || Undoes(w, Desired(changes), snap))
  }

  lemma AppliedIsOurs(changes: seq<Change>, snap: map<Id, string>, k: nat, undone: seq<Write>)
    requires k <= |changes| && snap.Keys == ChangedIds(changes)
    requires AllUndo(undone, Desired(changes), snap)
    ensures ReplacesExpected(Applied(changes, snap)[..k] + undone, changes, snap)
  {
    var own := Applied(changes, snap)[..k] + undone;
    forall j | 0 <= j < |own|
      ensures own[j].Ours? && own[j].id in snap
              && (own[j].replaced == snap[own[j].id] || Undoes(own[j], Desired(changes), snap))
    {
      if j < k {
        assert own[j] == Applied(changes, snap)[j] && changes[j] in changes;
      } else {
        assert own[j] == undone[j - k];
      }
    }
  }

  lemma {:induction false} OwnLogNotForeign(log: seq<Write>, start: nat, id: Id)
    requires OnlyOurs(log, start)
    ensures !LastIsForeign(log, start, id)
  {
    if |log| > start && log[|log| - 1].id != id {
      OwnLogNotForeign(log[..|log| - 1], start, id);
    }
  }

  /** With no other writer, a settled credential has the value it had before the transaction. */
  lemma QuietSettles(before: map<Id, string>, w: World, start: nat, snap: map<Id, string>, id: Id)
    requires OnlyOurs(w.log, start)
    requires forall x :: x in snap ==> snap[x] == World(before, []).Val(x)
    requires Settled(w, start, Home(before, snap), id)
    ensures w.Val(id) == World(before, []).Val(id)
  {
    OwnLogNotForeign(w.log, start, id);
  }

  lemma NothingPending(w: World, start: nat, home: World, own: seq<Write>)
    requires Progress(w, start, home, {}, own)
    ensures forall id :: Settled(w, start, home, id)
  {
  }

  lemma OwnIs(w: World, start: nat, home: World, pending: set<Id>, own: seq<Write>)
    requires Progress(w, start, home, pending, own)
    ensures Own(w.log, start) == own
  {
  }

  // `expected_values` agrees with every snapshot.
  predicate Matches(expected: map<Id, string>, snap: map<Id, string>) {
    forall id :: id in snap ==> id in expected && expected[id] == snap[id]
  }

  lemma {:induction false} SnapshotKeys(env: Env, s: Sys, changes: seq<Change>, i: nat, snap: map<Id, string>)
    requires i <= |changes| && snap.Keys == ChangedIds(changes[..i])
    ensures var r := SnapshotsFrom(env, s, changes, i, snap); r.1 ==> r.2.Keys == ChangedIds(changes)
    decreases |changes| - i
  {
    if i == |changes| {
      assert changes[..i] == changes;
    } else if !env.blocked(s.tick) {
      TakeOne(changes, i);
      var t := Asked(env, s);
      SnapshotKeys(env, t, changes, i + 1, snap[changes[i].0 := t.w.Val(changes[i].0)]);
    }
  }

  // From the snapshots on: the changes, the block they guard, and the rollback when either fails.
  function GuardedOf(env: Env, s: Sys, changes: seq<Change>, snap: map<Id, string>, bodyFails: bool): (Sys, Outcome)
    requires snap.Keys == ChangedIds(changes)
  {
    assert forall c :: c in changes ==> c.0 in ChangedIds(changes);
    var (t, k) := ApplyFrom(env, s, changes, snap, 0);
    if k == |changes| && !bodyFails then (t, Committed)
    else
      var (u, clean) := UndoFrom(env, t, changes, Desired(changes), snap, k);
      (u, if clean then Aborted else RollbackFailed)
  }

  // The whole transaction; `bodyFails` is the outcome of the block it guards.
  function TransactionOf(env: Env, s: Sys, changes: seq<Change>, expected: Option<map<Id, string>>, bodyFails: bool)
      : (Sys, Outcome, map<Id, string>)
  {
    var (t, ok, snap) := SnapshotsFrom(env, s, changes, 0, map[]);
    if !ok || (expected.Some? && !Matches(expected.value, snap)) then (t, Aborted, snap)
    else
      assert snap.Keys == ChangedIds(changes) by {
        SnapshotKeys(env, s, changes, 0, map[]);
      }
      var (u, outcome) := GuardedOf(env, t, changes, snap, bodyFails);
      (u, outcome, snap)
  }

  /** The changes, the block they guard, and the rollback when either fails. */
  method ApplyOrRollBack(auth: CredentialAuthority, changes: seq<Change>, snap: map<Id, string>, bodyFails: bool,
                         ghost start: nat, ghost home: World)
      returns (outcome: Outcome)
    requires auth.Valid() && Progress(auth.View(), start, home, {}, []) && snap.Keys == ChangedIds(changes)
    requires forall id :: id in snap ==> home.Val(id) == snap[id]
    modifies auth
    ensures auth.Valid() && (auth.System(), outcome)
            == GuardedOf(auth.env, old(auth.System()), changes, snap, bodyFails)
    ensures ReplacesExpected(Own(auth.log, start), changes, snap)
    ensures outcome == Committed ==> !bodyFails && Own(auth.log, start) == Applied(changes, snap)
    ensures outcome == Aborted ==> forall id :: Settled(auth.View(), start, home, id)
  {
    hide Progress, Own, Settled, Applied, ReplacesExpected, AllUndo, Desired, Faithful, ApplyFrom, UndoFrom;
    var k := ApplyChanges(auth, changes, snap, start, home);
    ghost var own := Applied(changes, snap)[..k];
    OwnIs(auth.View(), start, home, ChangedIds(changes[..k]), own);
    if k == |changes| && !bodyFails {
      assert own == Applied(changes, snap) && own + [] == own;
      NothingUndone(changes, snap);
      AppliedIsOurs(changes, snap, k, []);
      return Committed;
    }
    var clean, undone := RollBack(auth, changes, k, snap, start, home, own);
    AppliedIsOurs(changes, snap, k, undone);
    OwnIs(auth.View(), start, home, if clean then {} else ChangedIds(changes[..k]), own + undone);
    outcome := RollbackFailed;
    if clean {
      NothingPending(auth.View(), start, home, own + undone);
      outcome := Aborted;
    }
  }

  /** The whole transaction. Under any interference it writes only over the value it expects; and a
      credential that another writer has not touched ends at its snapshot after every failure that is
      not reported as an incomplete rollback. */
  method Transaction(auth: CredentialAuthority, changes: seq<Change>, expected: Option<map<Id, string>>,
                     bodyFails: bool)
      returns (outcome: Outcome, snap: map<Id, string>)
    requires auth.Valid()
    modifies auth
    ensures auth.Valid()
    ensures (auth.System(), outcome, snap) == TransactionOf(auth.env, old(auth.System()), changes, expected, bodyFails)
    ensures ReplacesExpected(Own(auth.log, |old(auth.log)|), changes, snap)
    ensures outcome == Committed ==> !bodyFails && snap.Keys == ChangedIds(changes)
                                     && Own(auth.log, |old(auth.log)|) == Applied(changes, snap)
    ensures outcome == Aborted ==>
              forall id :: Settled(auth.View(), |old(auth.log)|, Home(old(auth.values), snap), id)
    ensures Quiet(auth.env) && outcome == Aborted ==> forall id :: auth.View().Val(id) == old(auth.View()).Val(id)
    ensures Quiet(auth.env) && Consistent(changes) ==> outcome != RollbackFailed
    ensures Quiet(auth.env) ==>
              (outcome == Committed <==>
                 && !bodyFails && Replayable(changes, old(auth.View()))
                 && (expected.Some? ==>
                       forall id :: id in ChangedIds(changes) ==>
                         id in expected.value && expected.value[id] == old(auth.View()).Val(id)))
  {
    ghost var sys := auth.System();
    outcome, snap := TransactionSteps(auth, changes, expected, bodyFails);
    if Quiet(auth.env) {
      CommitsExactly(auth.env, sys, changes, expected, bodyFails);
      TransactionOnlyOurs(auth.env, sys, changes, expected, bodyFails);
      if Consistent(changes) {
        ConsistentRollsBack(auth.env, sys, changes, expected, bodyFails);
      }
      if outcome == Aborted {
        forall id ensures auth.View().Val(id) == sys.w.Val(id) {
          QuietSettles(sys.w.values, auth.View(), |sys.w.log|, snap, id);
        }
      }
    }
    hide TransactionOf, ReplacesExpected, Own, Applied, Settled, Quiet, Replayable, OnlyOurs, Faithful, Consistent,
      ChangedIds;
  }

  // The steps of the transaction, under any interference.
  method TransactionSteps(auth: CredentialAuthority, changes: seq<Change>, expected: Option<map<Id, string>>,
                          bodyFails: bool)
      returns (outcome: Outcome, snap: map<Id, string>)
    requires auth.Valid()
    modifies auth
    ensures auth.Valid()
    ensures (auth.System(), outcome, snap) == TransactionOf(auth.env, old(auth.System()), changes, expected, bodyFails)
    ensures ReplacesExpected(Own(auth.log, |old(auth.log)|), changes, snap)
    ensures outcome == Committed ==> !bodyFails && snap.Keys == ChangedIds(changes)
                                     && Own(auth.log, |old(auth.log)|) == Applied(changes, snap)
    ensures outcome == Aborted ==>
              forall id :: Settled(auth.View(), |old(auth.log)|, Home(old(auth.values), snap), id)
  {
    ghost var start, before := |auth.log|, auth.values;
    hide Progress, Own, Settled, Applied, ReplacesExpected, ChangedIds, Faithful, GuardedOf, SnapshotsFrom;
    var ok;
    ok, snap := TakeSnapshots(auth, changes);
    ghost var home := Home(before, snap);
    OwnIs(auth.View(), start, home, {}, []);
    NothingPending(auth.View(), start, home, []);
    NothingOwn(changes, snap);
    if !ok {
      return Aborted, snap;
    }
    if expected.Some? {
      if id :| id in snap && (id !in expected.value || expected.value[id] != snap[id]) {
        return Aborted, snap;
      }
    }
    outcome := ApplyOrRollBack(auth, changes, snap, bodyFails, start, home);
  }

  lemma NothingUndone(changes: seq<Change>, snap: map<Id, string>)
    ensures AllUndo([], Desired(changes), snap)
  {
  }

  lemma NothingOwn(changes: seq<Change>, snap: map<Id, string>)
    ensures ReplacesExpected([], changes, snap)
  {
  }

  // ---------------------------------------------------------------- what it may overwrite

  lemma {:induction false} OwnHolds(log: seq<Write>, start: nat, p: nat)
    requires start <= p < |log| && log[p].Ours?
    ensures log[p] in Own(log, start)
  {
    if p < |log| - 1 {
      OwnHolds(log[..|log| - 1], start, p);
    }
  }

  /** Whatever a write of ours replaces is the last value written before it, another writer's or not;
      and it is the snapshot, or else the desired value, which the write turns back into the snapshot.
      So another writer's value is overwritten only if it is one of those two. */
  lemma OverwritesOnlyExpected(initial: map<Id, string>, w: World, start: nat, changes: seq<Change>,
                               snap: map<Id, string>, p: nat)
    requires Faithful(initial, w) && ReplacesExpected(Own(w.log, start), changes, snap)
    requires start <= p < |w.log| && w.log[p].Ours?
    ensures var x := w.log[p];
            && x.id in ChangedIds(changes) && x.id in snap && x.replaced == LastValue(initial, w.log[..p], x.id)
            && (x.replaced == snap[x.id] || (x.replaced == Desired(changes)[x.id] && x.value == snap[x.id]))
  {
    OwnHolds(w.log, start, p);
  }

  /** A foreign write of the snapshot's own value, just before ours, is such a value: it is replaced. */
  lemma ForeignSnapshotReplaced(id: Id, s: string, a: string)
    ensures var env := Env(n => if n == 1 then [(id, s)] else [], n => false);
            var (end, outcome, snap) := TransactionOf(env, Sys(World(map[id := s], []), 0), [(id, a)], None, false);
            outcome == Committed && end.w.log == [Foreign(id, s), Ours(id, s, a)]
  {
    var env := Env(n => if n == 1 then [(id, s)] else [], n => false);
    var w0 := World(map[id := s], []);
    assert Asked(env, Sys(w0, 0)) == Sys(w0, 1);
    assert map[][id := s] == map[id := s];
    assert SnapshotsFrom(env, Sys(w0, 1), [(id, a)], 1, map[id := s]) == (Sys(w0, 1), true, map[id := s]);
    assert SnapshotsFrom(env, Sys(w0, 0), [(id, a)], 0, map[]) == (Sys(w0, 1), true, map[id := s]);
    var w1 := w0.Put(Foreign(id, s));
    assert Interfered(w0, [(id, s)]) == Interfered(w1, []) by {
      assert [(id, s)][1..] == [];
    }
    assert Asked(env, Sys(w0, 1)) == Sys(w1, 2);
    var w2 := w1.Put(Ours(id, s, a));
    assert CompareSetOf(env, Sys(w0, 1), id, s, a) == (Sys(w2, 2), true);
    assert [(id, a)][0] in [(id, a)];
    assert ApplyFrom(env, Sys(w0, 1), [(id, a)], map[id := s], 0) == (Sys(w2, 2), 1);
  }

  // ---------------------------------------------------------------- with no other writer

  const QUIET := Env(n => [], n => false)

  lemma QuietCompareSet(env: Env, s: Sys, id: Id, expected: string, value: string)
    requires Quiet(env)
    ensures Asked(env, s) == s.(tick := s.tick + 1)
    ensures var (t, applied) := CompareSetOf(env, s, id, expected, value);
            && applied == (s.w.Val(id) == expected)
            && t.w == (if applied then s.w.Put(Ours(id, expected, value)) else s.w)
  {
    assert env.foreign(s.tick) == [] && !env.blocked(s.tick);
  }

  lemma {:induction false} QuietSnapshots(env: Env, s: Sys, changes: seq<Change>, i: nat, snap: map<Id, string>)
    requires Quiet(env) && i <= |changes| && snap.Keys == ChangedIds(changes[..i])
    requires forall id :: id in snap ==> snap[id] == s.w.Val(id)
    ensures var (t, ok, all) := SnapshotsFrom(env, s, changes, i, snap);
            && ok && t.w == s.w && all.Keys == ChangedIds(changes) && forall id :: id in all ==> all[id] == s.w.Val(id)
    decreases |changes| - i
  {
    if i == |changes| {
      assert changes[..i] == changes;
    } else {
      QuietCompareSet(env, s, "", "", "");
      TakeOne(changes, i);
      var id := changes[i].0;
      assert env.foreign(s.tick) == [] && !env.blocked(s.tick);
      QuietSnapshots(env, Asked(env, s), changes, i + 1, snap[id := s.w.Val(id)]);
    }
  }

  // The first k changes have been applied over the snapshots: the others are untouched, the last change
  // of each credential is in effect, and every earlier one wrote the snapshot itself.
  ghost predicate AppliedTo(w: World, changes: seq<Change>, snap: map<Id, string>, k: nat)
    requires k <= |changes|
  {
    Untouched(w, changes, snap, k) && LastInEffect(w, changes, k) && Repeats(changes, snap, k)
  }

  ghost predicate Untouched(w: World, changes: seq<Change>, snap: map<Id, string>, k: nat)
    requires k <= |changes|
  {
    forall id :: id in snap && (forall j :: 0 <= j < k ==> changes[j].0 != id) ==> w.Val(id) == snap[id]
  }

  ghost predicate LastInEffect(w: World, changes: seq<Change>, k: nat)
    requires k <= |changes|
  {
    forall j :: 0 <= j < k && IsLast(changes, k, j) ==> w.Val(changes[j].0) == changes[j].1
  }

  // No later change among the first k is of the same credential.
  ghost predicate IsLast(changes: seq<Change>, k: nat, j: nat)
    requires j < k <= |changes|
  {
    forall i :: j < i < k ==> changes[i].0 != changes[j].0
  }

  ghost predicate Repeats(changes: seq<Change>, snap: map<Id, string>, k: nat)
    requires k <= |changes|
  {
    forall i, j :: 0 <= i < j < k && changes[i].0 == changes[j].0 && changes[i].0 in snap ==>
      changes[i].1 == snap[changes[i].0]
  }

  // The last of the first k changes of a credential that has one.
  lemma {:induction false} LastOf(changes: seq<Change>, k: nat, id: Id) returns (j: nat)
    requires k <= |changes| && exists i :: 0 <= i < k && changes[i].0 == id
    ensures j < k && changes[j].0 == id && IsLast(changes, k, j)
  {
    if changes[k - 1].0 == id {
      j := k - 1;
    } else {
      j := LastOf(changes, k - 1, id);
    }
  }

  lemma RepeatsOne(w: World, changes: seq<Change>, snap: map<Id, string>, k: nat)
    requires k < |changes| && LastInEffect(w, changes, k) && Repeats(changes, snap, k) && changes[k].0 in snap
    requires w.Val(changes[k].0) == snap[changes[k].0]
    ensures Repeats(changes, snap, k + 1)
  {
    var id := changes[k].0;
    forall i | 0 <= i < k && changes[i].0 == id
      ensures changes[i].1 == snap[id]
    {
      var j := LastOf(changes, k, id);
      assert w.Val(id) == changes[j].1;
    }
    hide LastInEffect;
  }

  lemma LastOne(w: World, changes: seq<Change>, k: nat, x: Write)
    requires k < |changes| && LastInEffect(w, changes, k) && x.id == changes[k].0 && x.value == changes[k].1
    ensures LastInEffect(w.Put(x), changes, k + 1)
  {
    forall j | 0 <= j < k + 1 && IsLast(changes, k + 1, j)
      ensures w.Put(x).Val(changes[j].0) == changes[j].1
    {
      if j < k {
        assert changes[k].0 != changes[j].0 && IsLast(changes, k, j);
      }
    }
  }

  lemma ApplyOne(w: World, changes: seq<Change>, snap: map<Id, string>, k: nat)
    requires k < |changes| && AppliedTo(w, changes, snap, k) && changes[k].0 in snap
    requires w.Val(changes[k].0) == snap[changes[k].0]
    ensures AppliedTo(w.Put(Ours(changes[k].0, snap[changes[k].0], changes[k].1)), changes, snap, k + 1)
  {
    var x := Ours(changes[k].0, snap[changes[k].0], changes[k].1);
    RepeatsOne(w, changes, snap, k);
    LastOne(w, changes, k, x);
    hide LastInEffect, Repeats;
    assert Untouched(w.Put(x), changes, snap, k + 1);
  }

  lemma {:induction false} QuietApply(env: Env, s: Sys, changes: seq<Change>, snap: map<Id, string>, k: nat)
    requires Quiet(env) && k <= |changes| && Covers(snap, changes) && AppliedTo(s.w, changes, snap, k)
    ensures var (t, n) := ApplyFrom(env, s, changes, snap, k);
            && AppliedTo(t.w, changes, snap, n)
            && (n < |changes| ==> changes[n] in changes && t.w.Val(changes[n].0) != snap[changes[n].0])
    decreases |changes| - k
  {
    if k < |changes| {
      ApplyStep(env, s, changes, snap, k);
      var id := changes[k].0;
      QuietCompareSet(env, s, id, snap[id], changes[k].1);
      var t := CompareSetOf(env, s, id, snap[id], changes[k].1).0;
      hide CompareSetOf, ApplyFrom, AppliedTo, Covers;
      if s.w.Val(id) == snap[id] {
        ApplyOne(s.w, changes, snap, k);
        QuietApply(env, t, changes, snap, k + 1);
      }
    }
  }

  lemma ApplyStep(env: Env, s: Sys, changes: seq<Change>, snap: map<Id, string>, k: nat)
    requires k < |changes| && Covers(snap, changes)
    ensures changes[k] in changes && changes[k].0 in snap
    ensures var (t, applied) := CompareSetOf(env, s, changes[k].0, snap[changes[k].0], changes[k].1);
            ApplyFrom(env, s, changes, snap, k) == if applied then ApplyFrom(env, t, changes, snap, k + 1) else (t, k)
  {
    assert changes[k] in changes;
  }

  // Every earlier change of a credential writes the value it already has.
  ghost predicate Replayable(changes: seq<Change>, w: World) {
    forall i, j :: 0 <= i < j < |changes| && changes[i].0 == changes[j].0 ==> changes[i].1 == w.Val(changes[i].0)
  }

  // Applying stops short exactly where an earlier change of a credential wrote something new.
  lemma StopsShort(t: World, w: World, changes: seq<Change>, snap: map<Id, string>, n: nat)
    requires n <= |changes| && AppliedTo(t, changes, snap, n) && snap.Keys == ChangedIds(changes)
    requires forall c :: c in changes ==> c.0 in snap && snap[c.0] == w.Val(c.0)
    requires n < |changes| ==> changes[n] in changes && t.Val(changes[n].0) != snap[changes[n].0]
    ensures n == |changes| <==> Replayable(changes, w)
  {
    if n < |changes| {
      var id := changes[n].0;
      assert exists i :: 0 <= i < n && changes[i].0 == id;
      var j := LastOf(changes, n, id);
      assert changes[j].1 == t.Val(id) && changes[j].0 == changes[n].0;
    } else {
      assert forall i :: 0 <= i < |changes| ==> changes[i] in changes;
    }
  }

  // What the transaction comes to: where the changes stop, from there the rollback.
  lemma QuietTransaction(env: Env, s: Sys, changes: seq<Change>, expected: Option<map<Id, string>>, bodyFails: bool)
      returns (snap: map<Id, string>, u: Sys, n: nat)
    requires Quiet(env)
    ensures snap.Keys == ChangedIds(changes) && forall id :: id in snap ==> snap[id] == s.w.Val(id)
    ensures Covers(snap, changes) && Covers(Desired(changes), changes)
    ensures n <= |changes| && AppliedTo(u.w, changes, snap, n)
    ensures n < |changes| ==> changes[n] in changes && u.w.Val(changes[n].0) != snap[changes[n].0]
    ensures TransactionOf(env, s, changes, expected, bodyFails).1
            == if expected.Some? && !Matches(expected.value, snap) then Aborted
               else if n == |changes| && !bodyFails then Committed
               else if UndoFrom(env, u, changes, Desired(changes), snap, n).1 then Aborted
               else RollbackFailed
  {
    QuietSnapshots(env, s, changes, 0, map[]);
    snap := SnapshotsFrom(env, s, changes, 0, map[]).2;
    var t := SnapshotsFrom(env, s, changes, 0, map[]).0;
    assert forall c :: c in changes ==> c.0 in ChangedIds(changes);
    QuietApply(env, t, changes, snap, 0);
    u, n := ApplyFrom(env, t, changes, snap, 0).0, ApplyFrom(env, t, changes, snap, 0).1;
    hide SnapshotsFrom, ApplyFrom, UndoFrom, AppliedTo, ChangedIds, Desired, Matches;
  }

  /** With no other writer the transaction commits if and only if the block succeeds, the expected values
      match, and every earlier change of a credential writes the value it already has. */
  lemma CommitsExactly(env: Env, s: Sys, changes: seq<Change>, expected: Option<map<Id, string>>, bodyFails: bool)
    requires Quiet(env)
    ensures TransactionOf(env, s, changes, expected, bodyFails).1 == Committed <==>
              && !bodyFails && Replayable(changes, s.w)
              && (expected.Some? ==>
                    forall id :: id in ChangedIds(changes) ==>
                      id in expected.value && expected.value[id] == s.w.Val(id))
  {
    var snap, u, n := QuietTransaction(env, s, changes, expected, bodyFails);
    StopsShort(u.w, s.w, changes, snap, n);
    hide TransactionOf, UndoFrom, AppliedTo, Replayable, ChangedIds, Desired;
  }

  lemma PutOnlyOurs(w: World, start: nat, x: Write)
    requires OnlyOurs(w.log, start) && x.Ours?
    ensures OnlyOurs(w.Put(x).log, start)
  {
  }

  lemma {:induction false} ApplyOnlyOurs(env: Env, s: Sys, changes: seq<Change>, snap: map<Id, string>, k: nat,
                                         start: nat)
    requires Quiet(env) && k <= |changes| && Covers(snap, changes) && OnlyOurs(s.w.log, start)
    ensures OnlyOurs(ApplyFrom(env, s, changes, snap, k).0.w.log, start)
    decreases |changes| - k
  {
    if k < |changes| {
      assert changes[k] in changes;
      var id, v := changes[k].0, changes[k].1;
      QuietCompareSet(env, s, id, snap[id], v);
      PutOnlyOurs(s.w, start, Ours(id, snap[id], v));
      hide CompareSetOf, OnlyOurs, Covers;
      if s.w.Val(id) == snap[id] {
        ApplyOnlyOurs(env, CompareSetOf(env, s, id, snap[id], v).0, changes, snap, k + 1, start);
      }
    }
  }

  lemma {:induction false} UndoOnlyOurs(env: Env, s: Sys, changes: seq<Change>, desired: map<Id, string>,
                                        snap: map<Id, string>, i: nat, start: nat)
    requires Quiet(env) && i <= |changes| && Covers(snap, changes) && Covers(desired, changes)
             && OnlyOurs(s.w.log, start)
    ensures OnlyOurs(UndoFrom(env, s, changes, desired, snap, i).0.w.log, start)
    decreases i
  {
    if i > 0 {
      assert changes[i - 1] in changes;
      var id := changes[i - 1].0;
      QuietCompareSet(env, s, id, desired[id], snap[id]);
      PutOnlyOurs(s.w, start, Ours(id, desired[id], snap[id]));
      hide CompareSetOf, OnlyOurs, Covers;
      UndoOnlyOurs(env, CompareSetOf(env, s, id, desired[id], snap[id]).0, changes, desired, snap, i - 1, start);
    }
  }

  lemma TransactionOnlyOurs(env: Env, s: Sys, changes: seq<Change>, expected: Option<map<Id, string>>, bodyFails: bool)
    requires Quiet(env)
    ensures var (end, outcome, snap) := TransactionOf(env, s, changes, expected, bodyFails);
            OnlyOurs(end.w.log, |s.w.log|) && forall id :: id in snap ==> snap[id] == s.w.Val(id)
  {
    QuietSnapshots(env, s, changes, 0, map[]);
    var t, snap := SnapshotsFrom(env, s, changes, 0, map[]).0, SnapshotsFrom(env, s, changes, 0, map[]).2;
    assert Covers(snap, changes) && Covers(Desired(changes), changes);
    ApplyOnlyOurs(env, t, changes, snap, 0, |s.w.log|);
    var (u, n) := ApplyFrom(env, t, changes, snap, 0);
    UndoOnlyOurs(env, u, changes, Desired(changes), snap, n, |s.w.log|);
    hide SnapshotsFrom, ApplyFrom, UndoFrom, ChangedIds, Desired, Matches, Covers;
  }

  // ---------------------------------------------------------------- exactly when the rollback can fail

  // The first k changes are in effect.
  ghost predicate InEffect(w: World, changes: seq<Change>, k: nat)
    requires k <= |changes|
  {
    forall j :: 0 <= j < k ==> w.Val(changes[j].0) == changes[j].1
  }

  lemma UndoKeepsEarlier(w: World, changes: seq<Change>, snap: map<Id, string>, i: nat, x: Write)
    requires i < |changes| && InEffect(w, changes, i + 1) && Repeats(changes, snap, i + 1)
    requires x.id == changes[i].0 && x.id in snap && x.value == snap[x.id]
    ensures w.Val(x.id) == changes[i].1 && InEffect(w.Put(x), changes, i) && Repeats(changes, snap, i)
  {
  }

  lemma {:induction false} ConsistentUndo(env: Env, s: Sys, changes: seq<Change>, snap: map<Id, string>, i: nat)
    requires Quiet(env) && i <= |changes| && Consistent(changes) && snap.Keys == ChangedIds(changes)
    requires Covers(snap, changes) && Covers(Desired(changes), changes)
    requires InEffect(s.w, changes, i) && Repeats(changes, snap, i)
    ensures UndoFrom(env, s, changes, Desired(changes), snap, i).1
    decreases i
  {
    hide CompareSetOf, Desired, InEffect, Repeats, Consistent, ChangedIds, UndoFrom, Quiet;
    UndoStep(env, s, changes, Desired(changes), snap, i);
    if i > 0 {
      TakeOne(changes, i - 1);
      DesiredOf(changes, i - 1);
      var id, desired := changes[i - 1].0, Desired(changes);
      QuietCompareSet(env, s, id, desired[id], snap[id]);
      UndoKeepsEarlier(s.w, changes, snap, i - 1, Ours(id, desired[id], snap[id]));
      hide Covers;
      ConsistentUndo(env, CompareSetOf(env, s, id, desired[id], snap[id]).0, changes, snap, i - 1);
    }
  }

  lemma AllInEffect(w: World, changes: seq<Change>, k: nat)
    requires k <= |changes| && LastInEffect(w, changes, k) && Consistent(changes)
    ensures InEffect(w, changes, k)
  {
    forall j | 0 <= j < k
      ensures w.Val(changes[j].0) == changes[j].1
    {
      var last := LastOf(changes, k, changes[j].0);
    }
  }

  /** Changes that agree on what they write are always rolled back. */
  lemma ConsistentRollsBack(env: Env, s: Sys, changes: seq<Change>, expected: Option<map<Id, string>>, bodyFails: bool)
    requires Quiet(env) && Consistent(changes)
    ensures TransactionOf(env, s, changes, expected, bodyFails).1 != RollbackFailed
  {
    var snap, u, n := QuietTransaction(env, s, changes, expected, bodyFails);
    AllInEffect(u.w, changes, n);
    ConsistentUndo(env, u, changes, snap, n);
    hide TransactionOf, UndoFrom, AppliedTo, Consistent, ChangedIds, Desired, InEffect;
  }

  lemma ConsistentSnoc(changes: seq<Change>)
    requires changes != []
    ensures var n := |changes| - 1;
            Consistent(changes) <==>
            Consistent(changes[..n])
            && forall i :: 0 <= i < n && changes[i].0 == changes[n].0 ==> changes[i].1 == changes[n].1
  {
    var n := |changes| - 1;
    assert forall i :: 0 <= i < n ==> changes[..n][i] == changes[i];
  }

  // The first change that disagrees with an earlier one, and that one.
  lemma {:induction false} FirstConflict(changes: seq<Change>) returns (i: nat, j: nat)
    requires !Consistent(changes)
    ensures i < j < |changes| && changes[i].0 == changes[j].0 && changes[i].1 != changes[j].1
    ensures Consistent(changes[..j])
  {
    var n := |changes| - 1;
    ConsistentSnoc(changes);
    if Consistent(changes[..n]) {
      j := n;
      i :| 0 <= i < n && changes[i].0 == changes[n].0 && changes[i].1 != changes[n].1;
    } else {
      i, j := FirstConflict(changes[..n]);
      assert changes[..n][..j] == changes[..j];
    }
  }

  // From values that the first j changes write anyway, those change nothing, and the next is applied.
  lemma {:induction false} ApplyIdle(s: Sys, changes: seq<Change>, snap: map<Id, string>, j: nat, k: nat)
    requires k <= j < |changes| && Covers(snap, changes)
    requires forall i :: 0 <= i < j ==> s.w.Val(changes[i].0) == changes[i].1
    requires forall id :: id in snap ==> snap[id] == s.w.Val(id)
    requires changes[j] in changes && changes[j].1 != snap[changes[j].0]
    ensures var (t, n) := ApplyFrom(QUIET, s, changes, snap, k);
            && n > j && t.w.Val(changes[j].0) == changes[j].1
            && forall i :: j < i < n ==> changes[i].0 != changes[j].0
    decreases j - k
  {
    assert changes[k] in changes;
    var id, v := changes[k].0, changes[k].1;
    QuietCompareSet(QUIET, s, id, snap[id], v);
    var t := CompareSetOf(QUIET, s, id, snap[id], v).0;
    hide CompareSetOf, Covers;
    if k == j {
      ApplyKeeps(t, changes, snap, j, k + 1);
    } else {
      ApplyIdle(t, changes, snap, j, k + 1);
    }
  }

  // Once a change has written something new, no other change of the credential is applied.
  lemma {:induction false} ApplyKeeps(s: Sys, changes: seq<Change>, snap: map<Id, string>, j: nat, k: nat)
    requires j < k <= |changes| && Covers(snap, changes) && changes[j].0 in snap
    requires s.w.Val(changes[j].0) == changes[j].1 != snap[changes[j].0]
    requires forall i :: j < i < k ==> changes[i].0 != changes[j].0
    ensures var (t, n) := ApplyFrom(QUIET, s, changes, snap, k);
            && t.w.Val(changes[j].0) == changes[j].1
            && forall i :: j < i < n ==> changes[i].0 != changes[j].0
    decreases |changes| - k
  {
    if k < |changes| {
      assert changes[k] in changes;
      var id, v := changes[k].0, changes[k].1;
      QuietCompareSet(QUIET, s, id, snap[id], v);
      var t := CompareSetOf(QUIET, s, id, snap[id], v).0;
      hide CompareSetOf, Covers;
      if s.w.Val(id) == snap[id] {
        ApplyKeeps(t, changes, snap, j, k + 1);
      }
    }
  }

  // The rollback fails at an entry whose credential does not have the desired value when its turn comes.
  lemma {:induction false} UndoMissing(s: Sys, changes: seq<Change>, desired: map<Id, string>, snap: map<Id, string>,
                                       t: nat, i: nat)
    requires t < i <= |changes| && Covers(snap, changes) && Covers(desired, changes)
    requires changes[t] in changes && s.w.Val(changes[t].0) != desired[changes[t].0]
    ensures !UndoFrom(QUIET, s, changes, desired, snap, i).1
    decreases i
  {
    assert changes[i - 1] in changes;
    var id := changes[i - 1].0;
    QuietCompareSet(QUIET, s, id, desired[id], snap[id]);
    if i - 1 > t && id != changes[t].0 {
      hide Covers;
      UndoMissing(CompareSetOf(QUIET, s, id, desired[id], snap[id]).0, changes, desired, snap, t, i - 1);
    }
  }

  // A change that wrote something new, over an earlier one of its credential, cannot be undone with it.
  lemma {:induction false} UndoConflict(s: Sys, changes: seq<Change>, desired: map<Id, string>, snap: map<Id, string>,
                                        t: nat, j: nat, i: nat)
    requires t < j < i <= |changes| && Covers(snap, changes) && Covers(desired, changes)
    requires changes[t] in changes && changes[t].0 == changes[j].0 && s.w.Val(changes[j].0) != snap[changes[j].0]
    requires forall k :: j < k < i ==> changes[k].0 != changes[j].0
    ensures !UndoFrom(QUIET, s, changes, desired, snap, i).1
    decreases i
  {
    assert changes[i - 1] in changes;
    var id := changes[i - 1].0;
    QuietCompareSet(QUIET, s, id, desired[id], snap[id]);
    var u := CompareSetOf(QUIET, s, id, desired[id], snap[id]).0;
    if i - 1 > j {
      hide Covers;
      UndoConflict(u, changes, desired, snap, t, j, i - 1);
    } else if s.w.Val(id) == desired[id] {
      UndoMissing(u, changes, desired, snap, t, i - 1);
    }
  }

  /** Changes that disagree can fail to roll back: there are values from which they do. */
  lemma ConflictFails(changes: seq<Change>) returns (values: map<Id, string>)
    requires !Consistent(changes)
    ensures TransactionOf(QUIET, Sys(World(values, []), 0), changes, None, true).1 == RollbackFailed
  {
    var i, j := FirstConflict(changes);
    values := Desired(changes[..j]);
    var s := Sys(World(values, []), 0);
    forall k | 0 <= k < j
      ensures s.w.Val(changes[k].0) == changes[k].1
    {
      DesiredOf(changes[..j], k);
      assert changes[..j][k] == changes[k] && changes[k] in changes[..j];
    }
    QuietSnapshots(QUIET, s, changes, 0, map[]);
    var t := SnapshotsFrom(QUIET, s, changes, 0, map[]).0;
    var snap := SnapshotsFrom(QUIET, s, changes, 0, map[]).2;
    assert Covers(snap, changes) && Covers(Desired(changes), changes);
    assert changes[i] in changes && changes[j] in changes;
    assert changes[j].0 in snap && snap[changes[j].0] == changes[i].1;
    hide SnapshotsFrom, Desired, Covers, ChangedIds, TransactionOf, ApplyFrom, UndoFrom;
    ApplyIdle(t, changes, snap, j, 0);
    var u := ApplyFrom(QUIET, t, changes, snap, 0).0;
    var n := ApplyFrom(QUIET, t, changes, snap, 0).1;
    UndoConflict(u, changes, Desired(changes), snap, i, j, n);
    FailsIfUndoFails(QUIET, s, changes);
  }

  lemma FailsIfUndoFails(env: Env, s: Sys, changes: seq<Change>)
    requires var (t, ok, snap) := SnapshotsFrom(env, s, changes, 0, map[]);
             && ok && Covers(snap, changes) && Covers(Desired(changes), changes)
             && var (u, n) := ApplyFrom(env, t, changes, snap, 0);
                !UndoFrom(env, u, changes, Desired(changes), snap, n).1
    ensures TransactionOf(env, s, changes, None, true).1 == RollbackFailed
  {
    SnapshotKeys(env, s, changes, 0, map[]);
    hide SnapshotsFrom, Desired, Covers, ChangedIds, ApplyFrom, UndoFrom;
  }

  /** Exactly which changes are safe: with no other writer the rollback never fails, whatever the values,
      the expectations and the block, if and only if changes of one credential write the same value. */
  lemma RollsBackExactly(changes: seq<Change>)
    ensures Consistent(changes) <==>
            forall values, expected, bodyFails ::
              TransactionOf(QUIET, Sys(World(values, []), 0), changes, expected, bodyFails).1 != RollbackFailed
  {
    if Consistent(changes) {
      forall values, expected, bodyFails
        ensures TransactionOf(QUIET, Sys(World(values, []), 0), changes, expected, bodyFails).1 != RollbackFailed
      {
        ConsistentRollsBack(QUIET, Sys(World(values, []), 0), changes, expected, bodyFails);
      }
    } else {
      var values := ConflictFails(changes);
    }
    hide TransactionOf, Consistent;
  }
}
