/** `claude_jsonl_enrich.py`: the walk from a side-chain message up to the call that encloses it, and
    the registry that matches sub-agent files to the calls that spawned them. */
module SubagentRegistry {
  import opened Sequences
  import opened Wrappers

  type Id = string

  // ---------------------------------------------------------------- the walk

  // The ancestor k links above a message; the empty id is no message.
  function Up(parents: map<Id, Id>, start: Id, k: nat): Id {
    if k == 0 then start
    else
      var below := Up(parents, start, k - 1);
      if below != "" && below in parents then parents[below] else ""
  }

  /** The walk follows every chain of links to its end. */
  lemma {:induction false} UpFollows(parents: map<Id, Id>, path: seq<Id>)
    requires path != []
    requires forall j :: 0 <= j < |path| - 1 ==>
               path[j] != "" && path[j + 1] == if path[j] in parents then parents[path[j]] else ""
    ensures Up(parents, path[0], |path| - 1) == path[|path| - 1]
  {
    if |path| > 1 {
      UpFollows(parents, path[..|path| - 1]);
    }
  }

  predicate HasCall(calls: map<Id, seq<Id>>, id: Id) {
    id != "" && id in calls && calls[id] != []
  }

  // The k-th ancestor is the nearest that made a call.
  ghost predicate Nearest(calls: map<Id, seq<Id>>, parents: map<Id, Id>, start: Id, k: nat) {
    HasCall(calls, Up(parents, start, k)) && forall j :: 0 <= j < k ==> !HasCall(calls, Up(parents, start, j))
  }

  // The last call of the nearest ancestor that made one.
  ghost predicate Encloses(calls: map<Id, seq<Id>>, parents: map<Id, Id>, start: Id, call: Id) {
    exists k :: Nearest(calls, parents, start, k) && call == LastCall(calls, Up(parents, start, k))
  }

  function LastCall(calls: map<Id, seq<Id>>, id: Id): Id
    requires HasCall(calls, id)
  {
    calls[id][|calls[id]| - 1]
  }

  // Nothing above is missed once the walk runs out of links or comes round to where it has been.
  lemma {:induction false} ClosedAbove(calls: map<Id, seq<Id>>, parents: map<Id, Id>, start: Id, seen: set<Id>, k: nat)
    requires start == "" || start in seen
    requires forall id :: id in seen ==> !HasCall(calls, id)
    requires forall id :: id in seen && id in parents ==> parents[id] == "" || parents[id] in seen
    ensures !HasCall(calls, Up(parents, start, k)) && (Up(parents, start, k) == "" || Up(parents, start, k) in seen)
  {
    if k > 0 {
      ClosedAbove(calls, parents, start, seen, k - 1);
    }
  }

  /** The walk ends on every parent map, cyclic ones included, with the last call of the nearest
      ancestor that made one, or with nothing when none did. */
  method FindEnclosingCall(calls: map<Id, seq<Id>>, parents: map<Id, Id>, start: Id) returns (call: Option<Id>)
    ensures call.Some? ==> Encloses(calls, parents, start, call.value)
    ensures call.None? ==> forall k: nat :: !HasCall(calls, Up(parents, start, k))
  {
    var cursor := start;
    var seen := {};
    ghost var n := 0;
    ghost var all := parents.Values + {start};
    while cursor != "" && cursor !in seen
      invariant 0 <= n && cursor == Up(parents, start, n)
      invariant cursor == "" || cursor in all
      invariant seen <= all
      invariant cursor == start || start in seen
      invariant forall j :: 0 <= j < n ==> !HasCall(calls, Up(parents, start, j))
      invariant forall id :: id in seen ==> !HasCall(calls, id)
      invariant forall id :: id in seen && id in parents ==>
                  parents[id] == "" || parents[id] in seen || parents[id] == cursor
      decreases all - seen
    {
      seen := seen + {cursor};
      if cursor in calls && calls[cursor] != [] {
        assert Nearest(calls, parents, start, n);
        return Some(LastCall(calls, cursor));
      }
      cursor := if cursor in parents then parents[cursor] else "";
      n := n + 1;
    }
    forall k: nat
      ensures !HasCall(calls, Up(parents, start, k))
    {
      ClosedAbove(calls, parents, start, seen, k);
    }
    call := None;
  }

  // A line of the log, as far as the walk needs it; an id that is missing is empty.
  datatype Line = Line(uuid: Id, parent: Id, sidechain: bool, calls: seq<Id>)

  class Enricher {
    var calls: map<Id, seq<Id>>
    var parents: map<Id, Id>

    constructor ()
      ensures calls == map[] && parents == map[]
    {
      calls, parents := map[], map[];
    }

    method Enrich(line: Line) returns (parentCall: Option<Id>)
      modifies this
      ensures parents == if line.uuid != "" && line.parent != "" then old(parents)[line.uuid := line.parent]
                         else old(parents)
      ensures calls == if line.uuid != "" && line.calls != [] then old(calls)[line.uuid := line.calls] else old(calls)
      ensures parentCall.Some? ==> line.sidechain && Encloses(calls, parents, line.parent, parentCall.value)
      ensures parentCall.None? && line.sidechain ==> forall k: nat :: !HasCall(calls, Up(parents, line.parent, k))
    {
      if line.uuid != "" && line.parent != "" {
        parents := parents[line.uuid := line.parent];
      }
      if line.uuid != "" && line.calls != [] {
        calls := calls[line.uuid := line.calls];
      }
      parentCall := None;
      if line.sidechain {
        parentCall := FindEnclosingCall(calls, parents, line.parent);
      }
    }
  }

  // ---------------------------------------------------------------- the registry

  // What an entry is registered as: one of the three tools, or a sub-agent type.
  datatype Kind = Agent | Task | Workflow | Named(name: string)

  datatype Key = Key(kind: Kind, description: string)

  datatype Pending = Pending(call: Id, key: Key)

  function Exact(key: Key): Pending -> bool {
    (p: Pending) => p.key == key
  }

  // An entry registered under the tool's own name takes a sub-agent of any kind.
  function Wildcard(description: string): Pending -> bool {
    (p: Pending) => (p.key.kind == Agent || p.key.kind == Task) && p.key.description == description
  }

  const IS_WORKFLOW: Pending -> bool := (p: Pending) => p.key.kind == Workflow

  function Without<T>(s: seq<T>, i: nat): seq<T>
    requires i < |s|
  {
    s[..i] + s[i + 1..]
  }

  // A tool call found in a line; no id, no kind and no description are empty.
  datatype ToolUse = ToolUse(call: Id, tool: Kind, subagent: string, description: string)

  // What a call is registered as: under its sub-agent type if it names one, else under the tool.
  function KindOf(use: ToolUse): Kind {
    if use.subagent == "" then use.tool
    else if use.subagent == "Agent" then Agent
    else if use.subagent == "Task" then Task
    else if use.subagent == "Workflow" then Workflow
    else Named(use.subagent)
  }

  // The name a kind is registered under.
  function NameOf(kind: Kind): string {
    match kind
    case Agent => "Agent"
    case Task => "Task"
    case Workflow => "Workflow"
    case Named(name) => name
  }

  /** A call is registered under the type it names, and else under its tool; a type that spells a tool's
      name is taken for the tool. */
  lemma RegisteredAs(use: ToolUse)
    ensures NameOf(KindOf(use)) == if use.subagent == "" then NameOf(use.tool) else use.subagent
    ensures use.subagent in {"Agent", "Task", "Workflow"} ==> !KindOf(use).Named?
    ensures FoundIn(use) == if use.call != "" && use.tool in {Agent, Task, Workflow}
                            then [Pending(use.call, Key(KindOf(use), use.description))] else []
  {
  }

  function FoundIn(use: ToolUse): seq<Pending> {
    if use.call == "" || use.tool.Named? then [] else [Pending(use.call, Key(KindOf(use), use.description))]
  }

  function Found(uses: seq<ToolUse>): seq<Pending> {
    if uses == [] then [] else Found(uses[..|uses| - 1]) + FoundIn(uses[|uses| - 1])
  }

  class Registry {
    var pending: seq<Pending>
    var workflows: map<Id, Id>
    ghost var registered: seq<Pending>
    ghost var claimed: seq<Pending>
    ghost var waiting: seq<nat>   // when each pending entry was registered
    ghost var taken: seq<nat>     // when each claimed entry was registered

    // Pending is what is registered and not claimed, in the order of registration.
    ghost predicate Valid() reads this {
      && Accounted(registered, claimed, pending, waiting, taken)
      && Fifo(registered, claimed, pending) && multiset(registered) == multiset(claimed) + multiset(pending)
    }

    constructor ()
      ensures Valid() && pending == [] && workflows == map[] && registered == [] && claimed == [] && taken == []
    {
      pending, workflows, registered, claimed, waiting, taken := [], map[], [], [], [], [];
    }

    method Register(call: Id, key: Key)
      requires Valid()
      modifies this
      ensures Valid() && workflows == old(workflows) && claimed == old(claimed) && taken == old(taken)
      ensures var new_ := if call == "" || key.kind == Named("") then [] else [Pending(call, key)];
              pending == old(pending) + new_ && registered == old(registered) + new_
    {
      if call == "" || key.kind == Named("") {
        return;
      }
      var p := Pending(call, key);
      RegisterIsFifo(registered, claimed, pending, p);
      RegisterAccounts(registered, claimed, pending, waiting, taken, p);
      pending, waiting := pending + [p], waiting + [|registered|];
      registered := registered + [p];
    }

    /** The first exact match, or else the first wildcard with the description, or nothing: of what is
        registered and not claimed, the earliest. */
    method Claim(key: Key) returns (call: Option<Id>)
      requires Valid()
      modifies this
      ensures Valid() && workflows == old(workflows) && registered == old(registered)
      ensures call.None? ==>
                && pending == old(pending) && claimed == old(claimed) && taken == old(taken)
                && forall p :: p in pending ==>
                     && p.key != key
                     && (p.key.description == key.description ==> p.key.kind != Agent && p.key.kind != Task)
      ensures call.Some? ==>
                var matches := if exists p :: p in old(pending) && Exact(key)(p) then Exact(key)
                               else Wildcard(key.description);
                exists i, n: nat :: && 0 <= i < |old(pending)| && Earliest(registered, old(taken), matches, n)
                  && pending == Without(old(pending), i) && claimed == old(claimed) + [registered[n]]
                  && taken == old(taken) + [n] && old(pending)[i] == registered[n] && call.value == registered[n].call
                  && registered[n].key.description == key.description
                  && (registered[n].key.kind == key.kind
                      || (registered[n].key.kind in {Agent, Task} && forall p :: p in old(pending) ==> p.key != key))
    {
      var exact := FirstIndex(pending, Exact(key));
      var matches := if exact < |pending| then Exact(key) else Wildcard(key.description);
      assert exact < |pending| <==> exists p :: p in pending && Exact(key)(p) by {
        assert exact < |pending| ==> pending[exact] in pending;
      }
      var i := FirstIndex(pending, matches);
      if i == |pending| {
        return None;
      }
      call := Some(pending[i].call);
      Take(i, matches);
    }

    method ClaimWorkflow(run: Id) returns (call: Option<Id>)
      requires Valid()
      modifies this
      ensures Valid() && registered == old(registered)
      ensures call.None? ==>
                && pending == old(pending) && claimed == old(claimed) && taken == old(taken)
                && workflows == old(workflows)
                && forall p :: p in pending ==> p.key.kind != Workflow
      ensures call.Some? ==>
                exists i, n: nat :: && 0 <= i < |old(pending)| && Earliest(registered, old(taken), IS_WORKFLOW, n)
                  && pending == Without(old(pending), i) && claimed == old(claimed) + [registered[n]]
                  && taken == old(taken) + [n] && old(pending)[i] == registered[n] && call.value == registered[n].call
                  && registered[n].key.kind == Workflow && workflows == old(workflows)[run := call.value]
    {
      var i := FirstIndex(pending, IS_WORKFLOW);
      if i == |pending| {
        return None;
      }
      call := Some(pending[i].call);
      Take(i, IS_WORKFLOW);
      workflows := workflows[run := call.value];
    }

    // `self._pending.pop(i)`
    method Take(i: nat, ghost matches: Pending -> bool)
      requires Valid() && i < |pending| && i == FirstIndex(pending, matches) && SameForLikes(matches)
      modifies this
      ensures Valid() && workflows == old(workflows) && registered == old(registered)
      ensures pending == Without(old(pending), i) && claimed == old(claimed) + [old(pending)[i]]
      ensures exists n: nat :: Earliest(registered, old(taken), matches, n) && taken == old(taken) + [n]
                          && registered[n] == old(pending)[i]
    {
      TakeIsFifo(registered, claimed, pending, i, matches);
      TakeKeepsEntries(pending, i);
      TakeAccounts(registered, claimed, pending, waiting, taken, i, matches);
      claimed, taken := claimed + [pending[i]], taken + [waiting[i]];
      pending, waiting := Without(pending, i), Without(waiting, i);
    }

    // `register_agent_tool_uses`
    method RegisterToolUses(uses: seq<ToolUse>)
      requires Valid()
      modifies this
      ensures Valid() && workflows == old(workflows) && claimed == old(claimed) && taken == old(taken)
      ensures registered == old(registered) + Found(uses) && pending == old(pending) + Found(uses)
    {
      for n := 0 to |uses|
        invariant Valid() && workflows == old(workflows) && claimed == old(claimed) && taken == old(taken)
        invariant registered == old(registered) + Found(uses[..n]) && pending == old(pending) + Found(uses[..n])
      {
        FoundSnoc(uses, n);
        Associate(old(registered), Found(uses[..n]), FoundIn(uses[n]));
        Associate(old(pending), Found(uses[..n]), FoundIn(uses[n]));
        RegisterToolUse(uses[n]);
      }
      assert uses[..|uses|] == uses;
    }

    method RegisterToolUse(use: ToolUse)
      requires Valid()
      modifies this
      ensures Valid() && workflows == old(workflows) && claimed == old(claimed) && taken == old(taken)
      ensures registered == old(registered) + FoundIn(use) && pending == old(pending) + FoundIn(use)
    {
      if !use.tool.Named? {
        Register(use.call, Key(KindOf(use), use.description));
      }
    }
  }

  lemma FoundSnoc(uses: seq<ToolUse>, n: nat)
    requires n < |uses|
    ensures Found(uses[..n + 1]) == Found(uses[..n]) + FoundIn(uses[n])
  {
    assert uses[..n + 1][..n] == uses[..n];
  }

  // ---------------------------------------------------------------- order

  // What is registered is split between the pending, in order, and the claimed.
  ghost predicate Accounted(registered: seq<Pending>, claimed: seq<Pending>, pending: seq<Pending>,
                            waiting: seq<nat>, taken: seq<nat>)
  {
    && Numbered(registered, pending, waiting) && Numbered(registered, claimed, taken)
    && (forall i, j :: 0 <= i < j < |waiting| ==> waiting[i] < waiting[j])
    && (forall i, j :: 0 <= i < j < |taken| ==> taken[i] != taken[j])
    && (forall n :: 0 <= n < |registered| ==> (n in waiting <==> n !in taken))
  }

  ghost predicate Numbered(registered: seq<Pending>, entries: seq<Pending>, numbers: seq<nat>) {
    |numbers| == |entries| && forall i :: 0 <= i < |numbers| ==>
      numbers[i] < |registered| && registered[numbers[i]] == entries[i]
  }

  // Of what is registered and not claimed, the n-th is the first that matches.
  ghost predicate Earliest(registered: seq<Pending>, taken: seq<nat>, matches: Pending -> bool, n: nat) {
    && n < |registered| && n !in taken && matches(registered[n])
    && forall k :: 0 <= k < n && k !in taken ==> !matches(registered[k])
  }

  lemma RegisterAccounts(registered: seq<Pending>, claimed: seq<Pending>, pending: seq<Pending>,
                         waiting: seq<nat>, taken: seq<nat>, p: Pending)
    requires Accounted(registered, claimed, pending, waiting, taken)
    ensures Accounted(registered + [p], claimed, pending + [p], waiting + [|registered|], taken)
  {
    var n := |registered|;
    assert forall k :: k in waiting + [n] <==> k in waiting || k == n;
    assert n !in waiting && n !in taken;
  }

  lemma WithoutShape<T>(s: seq<T>, i: nat)
    requires i < |s|
    ensures |Without(s, i)| == |s| - 1
    ensures forall k :: 0 <= k < |s| - 1 ==> Without(s, i)[k] == s[if k < i then k else k + 1]
  {
  }

  lemma TakeWaiting(waiting: seq<nat>, i: nat)
    requires i < |waiting| && forall a, b :: 0 <= a < b < |waiting| ==> waiting[a] < waiting[b]
    ensures forall a, b :: 0 <= a < b < |Without(waiting, i)| ==> Without(waiting, i)[a] < Without(waiting, i)[b]
    ensures forall n :: n in Without(waiting, i) <==> n in waiting && n != waiting[i]
  {
    var w := Without(waiting, i);
    WithoutShape(waiting, i);
    forall n | n in waiting && n != waiting[i]
      ensures n in w
    {
      var k :| 0 <= k < |waiting| && waiting[k] == n;
      assert w[if k < i then k else k - 1] == n;
    }
    hide Without;
  }

  lemma TakeAccounts(registered: seq<Pending>, claimed: seq<Pending>, pending: seq<Pending>,
                     waiting: seq<nat>, taken: seq<nat>, i: nat, matches: Pending -> bool)
    requires Accounted(registered, claimed, pending, waiting, taken)
    requires i < |pending| && i == FirstIndex(pending, matches)
    ensures Accounted(registered, claimed + [pending[i]], Without(pending, i), Without(waiting, i),
                      taken + [waiting[i]])
    ensures Earliest(registered, taken, matches, waiting[i])
  {
    hide Without, FirstIndex, Earliest;
    var n := waiting[i];
    FirstIsEarliest(registered, pending, waiting, taken, i, matches);
    TakeWaiting(waiting, i);
    TakeNumbers(registered, pending, waiting, i);
    assert n in waiting && n < |registered| && registered[n] == pending[i] && n !in taken;
    hide Numbered;
    TakenGrows(registered, claimed, taken, n);
  }

  lemma TakenGrows(registered: seq<Pending>, claimed: seq<Pending>, taken: seq<nat>, n: nat)
    requires Numbered(registered, claimed, taken) && n < |registered| && n !in taken
    ensures Numbered(registered, claimed + [registered[n]], taken + [n])
    ensures forall k :: k in taken + [n] <==> k in taken || k == n
    ensures (forall i, j :: 0 <= i < j < |taken| ==> taken[i] != taken[j]) ==>
              forall i, j :: 0 <= i < j < |taken + [n]| ==> (taken + [n])[i] != (taken + [n])[j]
  {
    assert forall k :: 0 <= k < |taken| ==> taken[k] in taken;
  }

  lemma TakeNumbers(registered: seq<Pending>, pending: seq<Pending>, waiting: seq<nat>, i: nat)
    requires Numbered(registered, pending, waiting) && i < |pending|
    ensures Numbered(registered, Without(pending, i), Without(waiting, i))
  {
    WithoutShape(waiting, i);
    WithoutShape(pending, i);
    hide Without;
  }

  lemma FirstIsEarliest(registered: seq<Pending>, pending: seq<Pending>, waiting: seq<nat>, taken: seq<nat>,
                        i: nat, matches: Pending -> bool)
    requires Numbered(registered, pending, waiting) && i < |pending| && i == FirstIndex(pending, matches)
    requires forall a, b :: 0 <= a < b < |waiting| ==> waiting[a] < waiting[b]
    requires forall n :: 0 <= n < |registered| ==> (n in waiting <==> n !in taken)
    ensures Earliest(registered, taken, matches, waiting[i])
  {
    assert waiting[i] in waiting;
    forall k | 0 <= k < waiting[i] && k !in taken
      ensures !matches(registered[k])
    {
      var j :| 0 <= j < |waiting| && waiting[j] == k;
      assert j < i && pending[j] == registered[k];
    }
  }

  /** Claims that look for the same thing are served in the order of registration, whatever is claimed
      and registered in between: workflows among themselves, and wildcards of one description. */
  lemma ServedInOrder(registered: seq<Pending>, taken: seq<nat>, n: nat, later: seq<Pending>, takenLater: seq<nat>,
                      m: nat, matches: Pending -> bool)
    requires Earliest(registered, taken, matches, n) && Earliest(later, takenLater, matches, m)
    requires registered <= later && taken + [n] <= takenLater
    ensures n < m
  {
    assert (taken + [n])[|taken|] == n && takenLater[|taken|] == n;
    assert forall k :: 0 <= k < |taken| ==> (taken + [n])[k] == taken[k] && takenLater[k] == taken[k];
  }

  function OneOfKey(p: Pending, key: Key): seq<Pending> {
    if p.key == key then [p] else []
  }

  function OfKey(s: seq<Pending>, key: Key): seq<Pending> {
    if s == [] then [] else OneOfKey(s[0], key) + OfKey(s[1..], key)
  }

  lemma {:induction false} OfKeyKeeps(s: seq<Pending>, key: Key, p: Pending)
    ensures multiset(OfKey(s, key))[p] == if p.key == key then multiset(s)[p] else 0
  {
    if s != [] {
      OfKeyKeeps(s[1..], key, p);
      assert s == [s[0]] + s[1..];
    }
  }

  ghost predicate Fifo(registered: seq<Pending>, claimed: seq<Pending>, pending: seq<Pending>) {
    forall key :: OfKey(registered, key) == OfKey(claimed, key) + OfKey(pending, key)
  }

  // A match that does not tell two entries of one key apart.
  ghost predicate SameForLikes(matches: Pending -> bool) {
    forall p: Pending, q: Pending :: p.key == q.key && matches(p) ==> matches(q)
  }

  lemma {:induction false} OfKeyConcat(s: seq<Pending>, t: seq<Pending>, key: Key)
    ensures OfKey(s + t, key) == OfKey(s, key) + OfKey(t, key)
  {
    hide OneOfKey;
    if s == [] {
      assert s + t == t && OfKey(s, key) == [];
    } else {
      OfKeyConcat(s[1..], t, key);
      assert (s + t)[1..] == s[1..] + t && (s + t)[0] == s[0];
      Associate(OneOfKey(s[0], key), OfKey(s[1..], key), OfKey(t, key));
    }
  }

  lemma OfKeySnoc(s: seq<Pending>, p: Pending, key: Key)
    ensures OfKey(s + [p], key) == OfKey(s, key) + OneOfKey(p, key)
  {
    assert OfKey([p], key) == OneOfKey(p, key) by {
      assert [p][1..] == [];
    }
    hide OfKey, OneOfKey;
    OfKeyConcat(s, [p], key);
  }

  lemma {:induction false} NoneOfKey(s: seq<Pending>, key: Key)
    requires forall i :: 0 <= i < |s| ==> s[i].key != key
    ensures OfKey(s, key) == []
  {
    if s != [] {
      NoneOfKey(s[1..], key);
    }
  }

  lemma RegisterIsFifo(registered: seq<Pending>, claimed: seq<Pending>, pending: seq<Pending>, p: Pending)
    requires Fifo(registered, claimed, pending)
    ensures Fifo(registered + [p], claimed, pending + [p])
  {
    hide OfKey, OneOfKey;
    forall key
      ensures OfKey(registered + [p], key) == OfKey(claimed, key) + OfKey(pending + [p], key)
    {
      OfKeySnoc(registered, p, key);
      OfKeySnoc(pending, p, key);
      Associate(OfKey(claimed, key), OfKey(pending, key), OneOfKey(p, key));
    }
  }

  lemma TakeOfKey(pending: seq<Pending>, i: nat, matches: Pending -> bool, key: Key)
    requires i < |pending| && i == FirstIndex(pending, matches) && SameForLikes(matches)
    ensures OfKey(pending, key) == OneOfKey(pending[i], key) + OfKey(Without(pending, i), key)
  {
    var before, p, after := pending[..i], pending[i], pending[i + 1..];
    assert pending == (before + [p]) + after;
    if p.key == key {
      NoneOfKey(before, key);
      NoneBefore(before, p, key);
    } else {
      assert OneOfKey(p, key) == [];
    }
    hide OfKey, OneOfKey, FirstIndex;
    OfKeyConcat(before + [p], after, key);
    OfKeySnoc(before, p, key);
    OfKeyConcat(before, after, key);
  }

  lemma NoneBefore(before: seq<Pending>, p: Pending, key: Key)
    requires OfKey(before, key) == []
    ensures OfKey(before, key) + OneOfKey(p, key) == OneOfKey(p, key)
    ensures forall rest: seq<Pending> :: OfKey(before, key) + rest == rest
  {
  }

  /** Taking the first match moves an entry from the front of its own kind and description. */
  lemma {:induction false} TakeIsFifo(registered: seq<Pending>, claimed: seq<Pending>, pending: seq<Pending>, i: nat,
                                      matches: Pending -> bool)
    requires Fifo(registered, claimed, pending) && i < |pending| && i == FirstIndex(pending, matches)
             && SameForLikes(matches)
    ensures Fifo(registered, claimed + [pending[i]], Without(pending, i))
  {
    hide OfKey, OneOfKey, FirstIndex, Without;
    var p := pending[i];
    forall key
      ensures OfKey(registered, key) == OfKey(claimed + [p], key) + OfKey(Without(pending, i), key)
    {
      TakeOfKey(pending, i, matches, key);
      OfKeySnoc(claimed, p, key);
      Associate(OfKey(claimed, key), OneOfKey(p, key), OfKey(Without(pending, i), key));
    }
  }

  lemma TakeKeepsEntries(pending: seq<Pending>, i: nat)
    requires i < |pending|
    ensures multiset(pending) == multiset{pending[i]} + multiset(Without(pending, i))
  {
    assert pending == pending[..i] + [pending[i]] + pending[i + 1..];
  }
}
