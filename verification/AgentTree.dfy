/** `wait_for_agent_tree_terminal` of `codex_agent_tree.py`: a fixpoint walk over the logs of a root
    agent and the agents it spawns, while the logs grow and the tree with them. */
module AgentTree {
  import opened Bytes
  import opened Sequences
  import opened Wrappers
  import RolloutTailer

  type Id = string

  type Raw = seq<byte>

  const ROOT := "__root__"

  // What a complete row says: a turn starts, a turn ends, agents are spawned. A row that is not a
  // JSON object says nothing.
  datatype Row = Row(started: bool, terminal: Option<bool>, spawns: seq<Id>) {
    predicate Lifecycle() {
      started || terminal.Some?
    }
  }

  // What the last of a log's lines says, given the lines before it; each log has its own normaliser.
  type Decoder = (Id, seq<Raw>) -> Row

  // Lines are read from the log up to the cursor; consumed is what they say.
  datatype Node = Node(cursor: nat, lines: seq<Raw>, consumed: seq<Row>, terminal: Option<bool>, isRoot: bool)

  datatype State = State(nodes: map<Id, Node>, unresolved: set<Id>)

  // What one turn of the loop finds: the logs it can open, as they are when it has read them, the agents
  // whose log exists now, and the two conditions that end the wait early.
  datatype Round = Round(logs: map<Id, Raw>, resolvable: set<Id>, cancelled: bool, exited: bool)

  // The root's log is read from `start` on, and its lifecycle is not waited for.
  function Init(start: nat): State {
    State(map[ROOT := Node(start, [], [], Some(true), true)], {})
  }

  const FRESH := Node(0, [], [], None, false)

  // `_read_complete_rows`: the whole lines from the cursor on, and where they end.
  function ReadFrom(content: Raw, cursor: nat): (seq<Raw>, nat)
    decreases |content| - cursor
  {
    var raw := RolloutTailer.LineAt(content, cursor);
    if raw == [] || raw[|raw| - 1] != NEWLINE then ([], cursor)
    else
      var (lines, end) := ReadFrom(content, cursor + |raw|);
      ([raw] + lines, end)
  }

  // A log that cannot be opened yields nothing.
  function NewLines(n: Node, id: Id, r: Round): (seq<Raw>, nat) {
    if id in r.logs then ReadFrom(r.logs[id], n.cursor) else ([], n.cursor)
  }

  function Decoded(dec: Decoder, id: Id, before: seq<Raw>, lines: seq<Raw>): (rows: seq<Row>)
    ensures |rows| == |lines|
  {
    seq(|lines|, i requires 0 <= i < |lines| => dec(id, before + lines[..i + 1]))
  }

  function NewRows(dec: Decoder, n: Node, id: Id, r: Round): seq<Row> {
    Decoded(dec, id, n.lines, NewLines(n, id, r).0)
  }

  function ConsumeRow(n: Node, r: Row): Node {
    var t := if n.isRoot then n.terminal
             else if r.terminal.Some? then r.terminal
             else if r.started then None
             else n.terminal;
    n.(consumed := n.consumed + [r], terminal := t)
  }

  function Consume(n: Node, rows: seq<Row>): Node {
    if rows == [] then n else ConsumeRow(Consume(n, rows[..|rows| - 1]), rows[|rows| - 1])
  }

  function ReadOf(dec: Decoder, n: Node, id: Id, r: Round): Node {
    var (lines, cursor) := NewLines(n, id, r);
    Consume(n, NewRows(dec, n, id, r)).(lines := n.lines + lines, cursor := cursor)
  }

  function Spawned(rows: seq<Row>): set<Id> {
    set i, j | 0 <= i < |rows| && 0 <= j < |rows[i].spawns| :: rows[i].spawns[j]
  }

  function SpawnedBy(dec: Decoder, nodes: map<Id, Node>, r: Round, ids: set<Id>): set<Id>
    requires ids <= nodes.Keys
  {
    set id, c | id in ids && c in Spawned(NewRows(dec, nodes[id], id, r)) :: c
  }

  // The reads of one turn: every log known at its start.
  function AfterReads(dec: Decoder, s: State, r: Round): State {
    State(map id | id in s.nodes :: ReadOf(dec, s.nodes[id], id, r),
          s.unresolved + (SpawnedBy(dec, s.nodes, r, s.nodes.Keys) - s.nodes.Keys))
  }

  // Of the ids tried, those that can be resolved become nodes.
  function Resolved(s: State, tried: set<Id>, resolvable: set<Id>): State {
    var found := tried * resolvable;
    State(s.nodes + map id | id in found :: FRESH, s.unresolved - found)
  }

  // The resolution of one turn.
  function AfterResolve(s: State, resolvable: set<Id>): State {
    Resolved(s, s.unresolved, resolvable)
  }

  function Turn(dec: Decoder, s: State, r: Round): State {
    AfterResolve(AfterReads(dec, s, r), r.resolvable)
  }

  predicate Complete(s: State) {
    s.unresolved == {} && forall id :: id in s.nodes ==> s.nodes[id].terminal.Some?
  }

  // Running: the rounds given were not enough.
  datatype Outcome = Returned | Cancelled | ProcessExited | Running

  function Wait(dec: Decoder, s: State, rounds: seq<Round>): (State, Outcome)
    decreases |rounds|
  {
    if rounds == [] then (s, Running)
    else if rounds[0].cancelled then (s, Cancelled)
    else if rounds[0].exited then (s, ProcessExited)
    else
      var s' := Turn(dec, s, rounds[0]);
      if Complete(s') then (s', Returned) else Wait(dec, s', rounds[1..])
  }

  // ---------------------------------------------------------------- the loop

  // The next line of the log is whole.
  predicate HasLine(content: Raw, cursor: nat) {
    var raw := RolloutTailer.LineAt(content, cursor);
    raw != [] && raw[|raw| - 1] == NEWLINE
  }

  lemma ReadFromStep(content: Raw, cursor: nat)
    ensures !HasLine(content, cursor) ==> ReadFrom(content, cursor) == ([], cursor)
    ensures HasLine(content, cursor) ==>
              var raw := RolloutTailer.LineAt(content, cursor);
              && cursor < cursor + |raw| <= |content|
              && ReadFrom(content, cursor)
                 == ([raw] + ReadFrom(content, cursor + |raw|).0, ReadFrom(content, cursor + |raw|).1)
  {
    hide RolloutTailer.LineAt;
  }

  // `_read_complete_rows`
  method ReadCompleteRows(content: Raw, start: nat) returns (lines: seq<Raw>, cursor: nat)
    ensures (lines, cursor) == ReadFrom(content, start)
  {
    lines, cursor := [], start;
    ghost var whole := ReadFrom(content, start);
    hide ReadFrom, RolloutTailer.LineAt;
    while true
      invariant whole.0 == lines + ReadFrom(content, cursor).0 && whole.1 == ReadFrom(content, cursor).1
      decreases |content| - cursor
    {
      ReadFromStep(content, cursor);
      var raw := RolloutTailer.LineAt(content, cursor);
      if raw == [] || raw[|raw| - 1] != NEWLINE {
        assert lines + [] == lines;
        return;
      }
      Associate(lines, [raw], ReadFrom(content, cursor + |raw|).0);
      lines, cursor := lines + [raw], cursor + |raw|;
    }
  }

  /** The rows of one log: the node's lifecycle state, and the agents met. */
  method ReadNode(dec: Decoder, n: Node, id: Id, r: Round) returns (n': Node, met: set<Id>)
    ensures n' == ReadOf(dec, n, id, r) && met == Spawned(NewRows(dec, n, id, r))
  {
    var lines, cursor := [], n.cursor;
    if id in r.logs {
      lines, cursor := ReadCompleteRows(r.logs[id], n.cursor);
    }
    var rows := Decoded(dec, id, n.lines, lines);
    n', met := ConsumeRows(n, rows);
    n' := n'.(lines := n.lines + lines, cursor := cursor);
  }

  method ConsumeRows(n: Node, rows: seq<Row>) returns (n': Node, met: set<Id>)
    ensures n' == Consume(n, rows) && met == Spawned(rows)
  {
    n', met := n, {};
    for i := 0 to |rows|
      invariant n' == Consume(n, rows[..i]) && met == Spawned(rows[..i])
    {
      assert rows[..i + 1][..i] == rows[..i];
      var t := n'.terminal;
      if !n'.isRoot {
        if rows[i].started {
          t := None;
        }
        if rows[i].terminal.Some? {
          t := rows[i].terminal;
        }
      }
      n' := n'.(consumed := n'.consumed + [rows[i]], terminal := t);
      ghost var before := met;
      for j := 0 to |rows[i].spawns|
        invariant met == before + set k | 0 <= k < j :: rows[i].spawns[k]
      {
        met := met + {rows[i].spawns[j]};
      }
      SpawnedSnoc(rows[..i], rows[i]);
      assert rows[..i] + [rows[i]] == rows[..i + 1];
    }
    assert rows[..|rows|] == rows;
  }

  lemma SpawnedSnoc(rows: seq<Row>, r: Row)
    ensures Spawned(rows + [r]) == Spawned(rows) + set k | 0 <= k < |r.spawns| :: r.spawns[k]
  {
    var all := rows + [r];
    forall c | c in Spawned(rows) ensures c in Spawned(all) {
      var i, j :| 0 <= i < |rows| && 0 <= j < |rows[i].spawns| && rows[i].spawns[j] == c;
      assert all[i].spawns[j] == c;
    }
    forall k | 0 <= k < |r.spawns| ensures r.spawns[k] in Spawned(all) {
      assert all[|rows|].spawns[k] == r.spawns[k];
    }
  }

  /** The whole wait, for any sequence of findings. */
  method WaitForAgentTreeTerminal(dec: Decoder, start: nat, rounds: seq<Round>) returns (s: State, outcome: Outcome)
    ensures (s, outcome) == Wait(dec, Init(start), rounds)
  {
    var nodes, unresolved := Init(start).nodes, Init(start).unresolved;
    var k := 0;
    while k < |rounds|
      invariant 0 <= k <= |rounds|
      invariant Wait(dec, Init(start), rounds) == Wait(dec, State(nodes, unresolved), rounds[k..])
    {
      var r := rounds[k];
      if r.cancelled {
        return State(nodes, unresolved), Cancelled;
      }
      if r.exited {
        return State(nodes, unresolved), ProcessExited;
      }
      ghost var before := State(nodes, unresolved);
      nodes, unresolved := ReadAll(dec, nodes, unresolved, r);
      assert State(nodes, unresolved) == AfterReads(dec, before, r);
      nodes, unresolved := ResolveAll(nodes, unresolved, r.resolvable);
      assert State(nodes, unresolved) == Turn(dec, before, r);
      if unresolved == {} && forall id :: id in nodes ==> nodes[id].terminal.Some? {
        return State(nodes, unresolved), Returned;
      }
      k := k + 1;
    }
    return State(nodes, unresolved), Running;
  }

  method ReadAll(dec: Decoder, nodes: map<Id, Node>, unresolved: set<Id>, r: Round)
      returns (nodes': map<Id, Node>, unresolved': set<Id>)
    ensures State(nodes', unresolved') == AfterReads(dec, State(nodes, unresolved), r)
  {
    nodes', unresolved' := nodes, unresolved;
    var batch := nodes.Keys;
    hide ReadOf, NewRows;
    while batch != {}
      invariant batch <= nodes.Keys && nodes'.Keys == nodes.Keys
      invariant forall id :: id in nodes ==>
                  nodes'[id] == if id in batch then nodes[id] else ReadOf(dec, nodes[id], id, r)
      invariant unresolved' == unresolved + (SpawnedBy(dec, nodes, r, nodes.Keys - batch) - nodes.Keys)
      decreases |batch|
    {
      var id :| id in batch;
      var n, met := ReadNode(dec, nodes[id], id, r);
      nodes' := nodes'[id := n];
      unresolved' := unresolved' + (met - nodes.Keys);
      batch := batch - {id};
    }
  }

  method ResolveAll(nodes: map<Id, Node>, unresolved: set<Id>, resolvable: set<Id>)
      returns (nodes': map<Id, Node>, unresolved': set<Id>)
    ensures State(nodes', unresolved') == AfterResolve(State(nodes, unresolved), resolvable)
  {
    nodes', unresolved' := nodes, unresolved;
    var batch := unresolved;
    ResolvedNone(State(nodes, unresolved), unresolved - batch, resolvable);
    hide Resolved;
    while batch != {}
      invariant batch <= unresolved
      invariant State(nodes', unresolved') == Resolved(State(nodes, unresolved), unresolved - batch, resolvable)
      decreases |batch|
    {
      var id :| id in batch;
      ResolvedOne(State(nodes, unresolved), unresolved - batch, resolvable, id);
      assert unresolved - (batch - {id}) == unresolved - batch + {id};
      if id in resolvable {
        nodes' := nodes'[id := FRESH];
        unresolved' := unresolved' - {id};
      }
      batch := batch - {id};
    }
    assert unresolved - batch == unresolved;
  }

  lemma ResolvedNone(s: State, none: set<Id>, resolvable: set<Id>)
    requires none == {}
    ensures Resolved(s, none, resolvable) == s
  {
    assert none * resolvable == {};
  }

  lemma ResolvedOne(s: State, done: set<Id>, resolvable: set<Id>, id: Id)
    ensures var s' := Resolved(s, done, resolvable);
            Resolved(s, done + {id}, resolvable)
            == if id in resolvable then State(s'.nodes[id := FRESH], s'.unresolved - {id}) else s'
  {
    var found, found' := done * resolvable, (done + {id}) * resolvable;
    assert found' == if id in resolvable then found + {id} else found;
  }

  // ---------------------------------------------------------------- what is known when it returns

  // A chain of spawns, each in a consumed row, from the root.
  ghost predicate Chain(nodes: map<Id, Node>, path: seq<Id>) {
    && path != [] && path[0] == ROOT
    && forall k :: 0 <= k < |path| - 1 ==> path[k] in nodes && path[k + 1] in Spawned(nodes[path[k]].consumed)
  }

  ghost predicate Reachable(nodes: map<Id, Node>, id: Id) {
    exists path :: Chain(nodes, path) && path[|path| - 1] == id
  }

  // The lifecycle state the consumed rows leave: of the last row that starts or ends a turn.
  function LastLifecycle(rows: seq<Row>): Option<bool> {
    if rows == [] then None
    else if rows[|rows| - 1].Lifecycle() then rows[|rows| - 1].terminal
    else LastLifecycle(rows[..|rows| - 1])
  }

  ghost predicate NodeOk(s: State, id: Id)
    requires id in s.nodes
  {
    var n := s.nodes[id];
    && n.isRoot == (id == ROOT)
    && n.terminal == (if n.isRoot then Some(true) else LastLifecycle(n.consumed))
    && Spawned(n.consumed) <= s.nodes.Keys + s.unresolved
  }

  ghost predicate Inv(s: State) {
    && ROOT in s.nodes && s.nodes.Keys !! s.unresolved
    && (forall id :: id in s.nodes ==> NodeOk(s, id))
    && (forall id :: id in s.nodes.Keys + s.unresolved ==> Reachable(s.nodes, id))
  }

  // Logs are only read further.
  ghost predicate Grows(a: map<Id, Node>, b: map<Id, Node>) {
    forall id :: id in a ==> id in b && Spawned(a[id].consumed) <= Spawned(b[id].consumed)
  }

  lemma ReachableGrows(a: map<Id, Node>, b: map<Id, Node>, id: Id)
    requires Grows(a, b) && Reachable(a, id)
    ensures Reachable(b, id)
  {
    var path :| Chain(a, path) && path[|path| - 1] == id;
    assert Chain(b, path);
  }

  lemma ReachableStep(nodes: map<Id, Node>, id: Id, child: Id)
    requires Reachable(nodes, id) && id in nodes && child in Spawned(nodes[id].consumed)
    ensures Reachable(nodes, child)
  {
    var path :| Chain(nodes, path) && path[|path| - 1] == id;
    assert Chain(nodes, path + [child]);
    assert (path + [child])[|path + [child]| - 1] == child;
  }

  lemma {:induction false} ConsumeShape(n: Node, rows: seq<Row>)
    ensures Consume(n, rows).consumed == n.consumed + rows && Consume(n, rows).isRoot == n.isRoot
    ensures n.isRoot ==> Consume(n, rows).terminal == n.terminal
    ensures !n.isRoot && n.terminal == LastLifecycle(n.consumed) ==>
              Consume(n, rows).terminal == LastLifecycle(n.consumed + rows)
  {
    if rows == [] {
      assert n.consumed + rows == n.consumed;
    } else {
      var k := |rows| - 1;
      ConsumeShape(n, rows[..k]);
      assert n.consumed + rows == n.consumed + rows[..k] + [rows[k]];
      assert (n.consumed + rows)[..|n.consumed| + k] == n.consumed + rows[..k];
    }
  }

  lemma SpawnedConcat(a: seq<Row>, b: seq<Row>)
    ensures Spawned(a + b) == Spawned(a) + Spawned(b)
  {
    var all := a + b;
    forall c | c in Spawned(a) ensures c in Spawned(all) {
      var i, j :| 0 <= i < |a| && 0 <= j < |a[i].spawns| && a[i].spawns[j] == c;
      assert all[i].spawns[j] == c;
    }
    forall c | c in Spawned(b) ensures c in Spawned(all) {
      var i, j :| 0 <= i < |b| && 0 <= j < |b[i].spawns| && b[i].spawns[j] == c;
      assert all[|a| + i].spawns[j] == c;
    }
  }

  lemma ReadOfShape(dec: Decoder, n: Node, id: Id, r: Round)
    ensures var n' := ReadOf(dec, n, id, r);
            && n'.consumed == n.consumed + NewRows(dec, n, id, r) && n'.isRoot == n.isRoot
            && (n.isRoot ==> n'.terminal == n.terminal)
            && (!n.isRoot && n.terminal == LastLifecycle(n.consumed) ==> n'.terminal == LastLifecycle(n'.consumed))
            && Spawned(n'.consumed) == Spawned(n.consumed) + Spawned(NewRows(dec, n, id, r))
  {
    ConsumeShape(n, NewRows(dec, n, id, r));
    SpawnedConcat(n.consumed, NewRows(dec, n, id, r));
  }

  lemma {:induction false} ReadsInv(dec: Decoder, s: State, r: Round)
    requires Inv(s)
    ensures Inv(AfterReads(dec, s, r))
  {
    var s' := AfterReads(dec, s, r);
    hide ReadOf, NewRows, Spawned, LastLifecycle;
    forall id | id in s.nodes
      ensures NodeOk(s', id) && Spawned(s.nodes[id].consumed) <= Spawned(s'.nodes[id].consumed)
    {
      ReadOfShape(dec, s.nodes[id], id, r);
      assert NodeOk(s, id);
    }
    assert Grows(s.nodes, s'.nodes);
    hide NodeOk;
    forall id | id in s'.nodes.Keys + s'.unresolved ensures Reachable(s'.nodes, id) {
      if id in s.nodes.Keys + s.unresolved {
        ReachableGrows(s.nodes, s'.nodes, id);
      } else {
        var parent :| parent in s.nodes && id in Spawned(NewRows(dec, s.nodes[parent], parent, r));
        ReadOfShape(dec, s.nodes[parent], parent, r);
        ReachableGrows(s.nodes, s'.nodes, parent);
        ReachableStep(s'.nodes, parent, id);
      }
    }
  }

  lemma ResolveInv(s: State, resolvable: set<Id>)
    requires Inv(s)
    ensures Inv(AfterResolve(s, resolvable))
  {
    var s' := AfterResolve(s, resolvable);
    assert s'.nodes.Keys + s'.unresolved == s.nodes.Keys + s.unresolved;
    assert forall id :: id in s.nodes ==> s'.nodes[id] == s.nodes[id];
    forall id | id in s'.nodes ensures NodeOk(s', id) {
      if id in s.nodes {
        assert NodeOk(s, id);
      }
    }
    assert Grows(s.nodes, s'.nodes);
    forall id | id in s'.nodes.Keys + s'.unresolved ensures Reachable(s'.nodes, id) {
      ReachableGrows(s.nodes, s'.nodes, id);
    }
  }

  lemma InitInv(start: nat)
    ensures Inv(Init(start))
  {
    assert Chain(Init(start).nodes, [ROOT]);
    assert [ROOT][|[ROOT]| - 1] == ROOT;
  }

  lemma {:induction false} ChainInside(s: State, path: seq<Id>)
    requires Inv(s) && s.unresolved == {} && Chain(s.nodes, path)
    ensures path[|path| - 1] in s.nodes
  {
    if |path| > 1 {
      var k := |path| - 2;
      assert Chain(s.nodes, path[..k + 1]);
      ChainInside(s, path[..k + 1]);
      assert NodeOk(s, path[k]);
    }
  }

  // The last row of the log that starts or ends a turn ends one.
  ghost predicate EndsTerminal(rows: seq<Row>) {
    exists k :: 0 <= k < |rows| && rows[k].terminal.Some? && forall j :: k < j < |rows| ==> !rows[j].Lifecycle()
  }

  lemma {:induction false} LastLifecycleIs(rows: seq<Row>)
    requires LastLifecycle(rows).Some?
    ensures EndsTerminal(rows)
  {
    var n := |rows| - 1;
    if !rows[n].Lifecycle() {
      LastLifecycleIs(rows[..n]);
      var k :| 0 <= k < n && rows[..n][k].terminal.Some? && forall j :: k < j < n ==> !rows[..n][j].Lifecycle();
      assert forall j :: k < j < n ==> rows[..n][j] == rows[j];
      assert rows[k].terminal.Some?;
    }
  }

  lemma {:induction false} WaitInv(dec: Decoder, s: State, rounds: seq<Round>)
    requires Inv(s)
    ensures Inv(Wait(dec, s, rounds).0)
    ensures Wait(dec, s, rounds).1 == Returned ==> Complete(Wait(dec, s, rounds).0)
    decreases |rounds|
  {
    if rounds != [] && !rounds[0].cancelled && !rounds[0].exited {
      ReadsInv(dec, s, rounds[0]);
      ResolveInv(AfterReads(dec, s, rounds[0]), rounds[0].resolvable);
      hide AfterReads, AfterResolve;
      if !Complete(Turn(dec, s, rounds[0])) {
        WaitInv(dec, Turn(dec, s, rounds[0]), rounds[1..]);
      }
    }
  }

  /** When the wait returns, its nodes are exactly the agents reachable from the root through spawns
      in consumed rows, and the last lifecycle row consumed of every child ends its turn. */
  lemma {:induction false} ReturnsWholeTerminalTree(dec: Decoder, start: nat, rounds: seq<Round>)
    requires Wait(dec, Init(start), rounds).1 == Returned
    ensures var nodes := Wait(dec, Init(start), rounds).0.nodes;
            && (forall id :: id in nodes <==> Reachable(nodes, id))
            && (forall id :: id in nodes && id != ROOT ==> EndsTerminal(nodes[id].consumed))
  {
    InitInv(start);
    WaitInv(dec, Init(start), rounds);
    var s := Wait(dec, Init(start), rounds).0;
    hide Wait;
    forall id | Reachable(s.nodes, id) ensures id in s.nodes {
      var path :| Chain(s.nodes, path) && path[|path| - 1] == id;
      ChainInside(s, path);
    }
    forall id | id in s.nodes && id != ROOT ensures EndsTerminal(s.nodes[id].consumed) {
      assert NodeOk(s, id);
      LastLifecycleIs(s.nodes[id].consumed);
    }
  }

  // ---------------------------------------------------------------- nothing twice, nothing dropped

  // The state after all of the rounds, whether or not it is complete before.
  function After(dec: Decoder, start: nat, rounds: seq<Round>): State {
    if rounds == [] then Init(start) else Turn(dec, After(dec, start, rounds[..|rounds| - 1]), rounds[|rounds| - 1])
  }

  // Logs only grow.
  ghost predicate Growing(rounds: seq<Round>) {
    forall i, j, id :: 0 <= i < j < |rounds| && id in rounds[i].logs && id in rounds[j].logs ==>
      rounds[i].logs[id] <= rounds[j].logs[id]
  }

  // The log as it was last opened.
  function LastSeen(rounds: seq<Round>, id: Id): Raw {
    if rounds == [] then []
    else if id in rounds[|rounds| - 1].logs then rounds[|rounds| - 1].logs[id]
    else LastSeen(rounds[..|rounds| - 1], id)
  }

  // The node has read the whole lines of the log from `start` up to its cursor, each once and in order.
  ghost predicate Follows(dec: Decoder, id: Id, n: Node, start: nat, content: Raw) {
    && start <= n.cursor && RolloutTailer.WholeLines(content, start, n.cursor)
    && n.lines == RolloutTailer.Split(RolloutTailer.Segment(content, start, n.cursor))
    && n.consumed == Decoded(dec, id, [], n.lines)
  }

  lemma NoLineLeft(content: Raw, start: nat, cursor: nat)
    requires start <= cursor && RolloutTailer.WholeLines(content, start, cursor) && !HasLine(content, cursor)
    ensures RolloutTailer.NoLineFrom(content, cursor)
  {
    RolloutTailer.NothingLeft(content, cursor);
    assert content <= content;
  }

  lemma OneLine(content: Raw, start: nat, cursor: nat)
    requires start <= cursor && RolloutTailer.WholeLines(content, start, cursor) && HasLine(content, cursor)
    ensures var raw := RolloutTailer.LineAt(content, cursor);
            && cursor < cursor + |raw| <= |content| && RolloutTailer.WholeLines(content, start, cursor + |raw|)
            && RolloutTailer.Split(RolloutTailer.Segment(content, start, cursor + |raw|))
               == RolloutTailer.Split(RolloutTailer.Segment(content, start, cursor)) + [raw]
  {
    RolloutTailer.NextLine(content, start, cursor);
    hide RolloutTailer.Split, RolloutTailer.Segment, RolloutTailer.LineAt;
    var raw := RolloutTailer.LineAt(content, cursor);
    assert content[cursor..cursor + |raw|][|raw| - 1] == content[cursor + |raw| - 1];
  }

  // The lines read from the cursor on are the whole lines that follow, and none is left.
  ghost predicate ReadsLines(content: Raw, start: nat, cursor: nat, lines: seq<Raw>, end: nat) {
    && cursor <= end && RolloutTailer.WholeLines(content, start, end)
    && RolloutTailer.Split(RolloutTailer.Segment(content, start, end))
       == RolloutTailer.Split(RolloutTailer.Segment(content, start, cursor)) + lines
    && RolloutTailer.NoLineFrom(content, end)
  }

  lemma ReadsNone(content: Raw, start: nat, cursor: nat)
    requires start <= cursor && RolloutTailer.WholeLines(content, start, cursor) && !HasLine(content, cursor)
    ensures ReadsLines(content, start, cursor, [], cursor)
  {
    NoLineLeft(content, start, cursor);
    var before := RolloutTailer.Split(RolloutTailer.Segment(content, start, cursor));
    assert before + [] == before;
  }

  lemma ReadsOneMore(content: Raw, start: nat, cursor: nat, lines: seq<Raw>, end: nat)
    requires start <= cursor && RolloutTailer.WholeLines(content, start, cursor) && HasLine(content, cursor)
    requires ReadsLines(content, start, cursor + |RolloutTailer.LineAt(content, cursor)|, lines, end)
    ensures ReadsLines(content, start, cursor, [RolloutTailer.LineAt(content, cursor)] + lines, end)
  {
    OneLine(content, start, cursor);
    hide HasLine, RolloutTailer.Split, RolloutTailer.Segment, RolloutTailer.LineAt, RolloutTailer.WholeLines;
    hide RolloutTailer.NoLineFrom;
    var before := RolloutTailer.Split(RolloutTailer.Segment(content, start, cursor));
    Associate(before, [RolloutTailer.LineAt(content, cursor)], lines);
  }

  /** Reading from a line boundary takes in the whole lines that follow, and leaves none. */
  lemma {:induction false} ReadFromIs(content: Raw, start: nat, cursor: nat)
    requires start <= cursor && RolloutTailer.WholeLines(content, start, cursor)
    ensures ReadsLines(content, start, cursor, ReadFrom(content, cursor).0, ReadFrom(content, cursor).1)
    decreases |content| - cursor
  {
    hide ReadFrom, HasLine, ReadsLines, RolloutTailer.LineAt, RolloutTailer.WholeLines, RolloutTailer.Split;
    ReadFromStep(content, cursor);
    if !HasLine(content, cursor) {
      ReadsNone(content, start, cursor);
    } else {
      var next := cursor + |RolloutTailer.LineAt(content, cursor)|;
      OneLine(content, start, cursor);
      ReadFromIs(content, start, next);
      ReadsOneMore(content, start, cursor, ReadFrom(content, next).0, ReadFrom(content, next).1);
    }
  }

  lemma DecodedJoins(dec: Decoder, id: Id, a: seq<Raw>, b: seq<Raw>)
    ensures Decoded(dec, id, [], a + b) == Decoded(dec, id, [], a) + Decoded(dec, id, a, b)
  {
    var whole, parts := Decoded(dec, id, [], a + b), Decoded(dec, id, [], a) + Decoded(dec, id, a, b);
    forall i | 0 <= i < |a + b|
      ensures whole[i] == parts[i]
    {
      if i < |a| {
        assert [] + (a + b)[..i + 1] == [] + a[..i + 1];
      } else {
        assert [] + (a + b)[..i + 1] == a + b[..i - |a| + 1];
      }
    }
  }

  // A log that has grown is followed as far.
  lemma FollowsGrown(dec: Decoder, id: Id, n: Node, start: nat, content: Raw, later: Raw)
    requires Follows(dec, id, n, start, content) && content <= later
    ensures Follows(dec, id, n, start, later)
  {
    var more := later[|content|..];
    assert later == content + more;
    RolloutTailer.AppendKeeps(content, more, start, n.cursor);
    hide RolloutTailer.Split, RolloutTailer.Segment, RolloutTailer.WholeLines, Decoded;
  }

  /** One read of a followed log: it is followed to the last whole line there is. */
  lemma ReadFollows(dec: Decoder, n: Node, id: Id, r: Round, start: nat)
    requires id in r.logs && Follows(dec, id, n, start, r.logs[id])
    ensures Follows(dec, id, ReadOf(dec, n, id, r), start, r.logs[id])
    ensures RolloutTailer.NoLineFrom(r.logs[id], ReadOf(dec, n, id, r).cursor)
  {
    var lines := NewLines(n, id, r).0;
    ReadFromIs(r.logs[id], start, n.cursor);
    ReadOfShape(dec, n, id, r);
    DecodedJoins(dec, id, n.lines, lines);
    hide RolloutTailer.Split, RolloutTailer.Segment, RolloutTailer.WholeLines, RolloutTailer.NoLineFrom, Decoded;
    hide ReadFrom, Consume, Spawned, LastLifecycle;
  }

  function StartOf(id: Id, start: nat): nat {
    if id == ROOT then start else 0
  }

  lemma {:induction false} LastSeenGrows(rounds: seq<Round>, id: Id, content: Raw)
    requires forall i :: 0 <= i < |rounds| && id in rounds[i].logs ==> rounds[i].logs[id] <= content
    ensures LastSeen(rounds, id) <= content
  {
    if rounds != [] && id !in rounds[|rounds| - 1].logs {
      LastSeenGrows(rounds[..|rounds| - 1], id, content);
    }
  }

  // What one turn does to a node that was there before it, or that it adds.
  lemma TurnNode(dec: Decoder, s: State, r: Round, id: Id)
    requires Inv(s) && id in Turn(dec, s, r).nodes
    ensures id in s.nodes ==> Turn(dec, s, r).nodes[id] == ReadOf(dec, s.nodes[id], id, r)
    ensures id !in s.nodes ==> Turn(dec, s, r).nodes[id] == FRESH && id != ROOT
  {
    hide ReadOf;
  }

  /** For every schedule in which logs grow, each node has consumed exactly the rows of the whole lines of
      its log up to its cursor, the root's from `start` on: nothing twice, nothing dropped. */
  lemma {:induction false} ConsumedIsLog(dec: Decoder, start: nat, rounds: seq<Round>, id: Id)
    requires Growing(rounds) && id in After(dec, start, rounds).nodes
    ensures Follows(dec, id, After(dec, start, rounds).nodes[id], StartOf(id, start), LastSeen(rounds, id))
  {
    if rounds == [] {
      assert Decoded(dec, id, [], []) == [];
    } else {
      var before, r := rounds[..|rounds| - 1], rounds[|rounds| - 1];
      var s := After(dec, start, before);
      AfterInv(dec, start, before);
      TurnNode(dec, s, r, id);
      if id in s.nodes {
        ConsumedIsLog(dec, start, before, id);
        ReadKeepsFollowing(dec, rounds, s.nodes[id], id, StartOf(id, start));
      } else {
        FreshFollows(dec, id, LastSeen(rounds, id));
      }
    }
  }

  lemma FreshFollows(dec: Decoder, id: Id, content: Raw)
    ensures Follows(dec, id, FRESH, 0, content)
  {
    assert Decoded(dec, id, [], []) == [];
  }

  lemma ReadKeepsFollowing(dec: Decoder, rounds: seq<Round>, n: Node, id: Id, start: nat)
    requires rounds != [] && Growing(rounds)
    requires Follows(dec, id, n, start, LastSeen(rounds[..|rounds| - 1], id))
    ensures Follows(dec, id, ReadOf(dec, n, id, rounds[|rounds| - 1]), start, LastSeen(rounds, id))
  {
    var before, r := rounds[..|rounds| - 1], rounds[|rounds| - 1];
    if id in r.logs {
      LastSeenGrows(before, id, r.logs[id]);
      FollowsGrown(dec, id, n, start, LastSeen(before, id), r.logs[id]);
      ReadFollows(dec, n, id, r, start);
    } else {
      assert Decoded(dec, id, n.lines, []) == [] && n.lines + [] == n.lines;
      assert ReadOf(dec, n, id, r) == n;
    }
    hide Follows, ReadOf;
  }

  /** After a turn, no whole line is left in any log it could open of a node it knew. */
  lemma TurnReadsToEnd(dec: Decoder, start: nat, rounds: seq<Round>, id: Id)
    requires rounds != [] && Growing(rounds) && id in After(dec, start, rounds[..|rounds| - 1]).nodes
    requires id in rounds[|rounds| - 1].logs
    ensures id in After(dec, start, rounds).nodes
    ensures RolloutTailer.NoLineFrom(rounds[|rounds| - 1].logs[id], After(dec, start, rounds).nodes[id].cursor)
  {
    var before, r := rounds[..|rounds| - 1], rounds[|rounds| - 1];
    var s := After(dec, start, before);
    AfterInv(dec, start, before);
    ConsumedIsLog(dec, start, before, id);
    LastSeenGrows(before, id, r.logs[id]);
    FollowsGrown(dec, id, s.nodes[id], StartOf(id, start), LastSeen(before, id), r.logs[id]);
    ReadFollows(dec, s.nodes[id], id, r, StartOf(id, start));
    assert id in Turn(dec, s, r).nodes by {
      hide ReadOf;
    }
    TurnNode(dec, s, r, id);
    hide ReadOf, Follows, RolloutTailer.NoLineFrom;
  }

  lemma {:induction false} AfterInv(dec: Decoder, start: nat, rounds: seq<Round>)
    ensures Inv(After(dec, start, rounds))
  {
    if rounds == [] {
      InitInv(start);
    } else {
      var s, r := After(dec, start, rounds[..|rounds| - 1]), rounds[|rounds| - 1];
      AfterInv(dec, start, rounds[..|rounds| - 1]);
      ReadsInv(dec, s, r);
      ResolveInv(AfterReads(dec, s, r), r.resolvable);
      hide AfterReads, AfterResolve;
    }
  }

  // The wait stops after some of its rounds.
  lemma {:induction false} WaitIsAfter(dec: Decoder, start: nat, done: seq<Round>, rounds: seq<Round>) returns (k: nat)
    ensures k <= |rounds| && Wait(dec, After(dec, start, done), rounds).0 == After(dec, start, done + rounds[..k])
    decreases |rounds|
  {
    assert done + rounds[..0] == done;
    k := 0;
    if rounds != [] && !rounds[0].cancelled && !rounds[0].exited {
      var done' := done + [rounds[0]];
      assert done'[..|done|] == done;
      assert done + rounds[..1] == done';
      if Complete(Turn(dec, After(dec, start, done), rounds[0])) {
        k := 1;
      } else {
        var j := WaitIsAfter(dec, start, done', rounds[1..]);
        k := j + 1;
        assert done' + rounds[1..][..j] == done + rounds[..k];
      }
    }
  }

  /** So when the wait returns, each node's rows are those of its log, as it was last opened. */
  lemma ReturnedReadsLogs(dec: Decoder, start: nat, rounds: seq<Round>) returns (k: nat)
    requires Growing(rounds)
    ensures k <= |rounds|
    ensures var s := Wait(dec, Init(start), rounds).0;
            forall id :: id in s.nodes ==> Follows(dec, id, s.nodes[id], StartOf(id, start), LastSeen(rounds[..k], id))
  {
    assert After(dec, start, []) == Init(start);
    hide Wait, Follows, After, LastSeen, Init, Growing;
    k := WaitIsAfter(dec, start, [], rounds);
    GrowingPrefix(rounds, k);
    assert [] + rounds[..k] == rounds[..k];
    forall id | id in Wait(dec, Init(start), rounds).0.nodes
      ensures Follows(dec, id, Wait(dec, Init(start), rounds).0.nodes[id], StartOf(id, start),
                      LastSeen(rounds[..k], id))
    {
      ConsumedIsLog(dec, start, rounds[..k], id);
    }
  }

  lemma GrowingPrefix(rounds: seq<Round>, k: nat)
    requires Growing(rounds) && k <= |rounds|
    ensures Growing(rounds[..k])
  {
  }

  // ---------------------------------------------------------------- how the wait ends

  // Neither a cancellation nor the end of the process was found in the first k turns, and none of them
  // but the last completed the tree.
  ghost predicate WentOn(dec: Decoder, start: nat, rounds: seq<Round>, k: nat)
    requires k <= |rounds|
  {
    && (forall j :: 0 <= j < k ==> !rounds[j].cancelled && !rounds[j].exited)
    && forall j :: 0 < j < k ==> !Complete(After(dec, start, rounds[..j]))
  }

  // What ended it after k turns.
  ghost predicate EndedBy(rounds: seq<Round>, k: nat, s: State, outcome: Outcome)
    requires k <= |rounds|
  {
    && (outcome == Returned <==> k > 0 && Complete(s))
    && (outcome == Cancelled ==> k < |rounds| && rounds[k].cancelled)
    && (outcome == ProcessExited ==> k < |rounds| && rounds[k].exited && !rounds[k].cancelled)
    && (outcome == Running ==> k == |rounds|)
  }

  /** The wait ends with the first turn that completes the tree, unless a turn before that finds it cancelled or
      else the process gone; and until then it goes on. */
  lemma EndsExactly(dec: Decoder, start: nat, rounds: seq<Round>) returns (k: nat)
    ensures k <= |rounds| && WentOn(dec, start, rounds, k)
    ensures var (s, outcome) := Wait(dec, Init(start), rounds);
            s == After(dec, start, rounds[..k]) && EndedBy(rounds, k, s, outcome)
  {
    k := EndsFrom(dec, start, rounds, 0);
    assert rounds[..0] == [] && rounds[0..] == rounds;
    hide Wait, EndedBy;
  }

  lemma {:induction false} EndsFrom(dec: Decoder, start: nat, rounds: seq<Round>, i: nat) returns (k: nat)
    requires i <= |rounds| && WentOn(dec, start, rounds, i) && (i > 0 ==> !Complete(After(dec, start, rounds[..i])))
    ensures i <= k <= |rounds| && WentOn(dec, start, rounds, k)
    ensures var (s, outcome) := Wait(dec, After(dec, start, rounds[..i]), rounds[i..]);
            s == After(dec, start, rounds[..k]) && EndedBy(rounds, k, s, outcome)
    decreases |rounds| - i
  {
    hide Complete, Turn, After, Wait;
    var s := After(dec, start, rounds[..i]);
    WaitStep(dec, s, rounds[i..]);
    k := i;
    if i < |rounds| && !rounds[i].cancelled && !rounds[i].exited {
      k := i + 1;
      AfterStep(dec, start, rounds, i);
      assert rounds[i..][1..] == rounds[k..];
      if !Complete(After(dec, start, rounds[..k])) {
        k := EndsFrom(dec, start, rounds, k);
      }
    }
  }

  lemma WaitStep(dec: Decoder, s: State, rounds: seq<Round>)
    ensures rounds == [] ==> Wait(dec, s, rounds) == (s, Running)
    ensures rounds != [] && rounds[0].cancelled ==> Wait(dec, s, rounds) == (s, Cancelled)
    ensures rounds != [] && !rounds[0].cancelled && rounds[0].exited ==> Wait(dec, s, rounds) == (s, ProcessExited)
    ensures rounds != [] && !rounds[0].cancelled && !rounds[0].exited ==>
              var s' := Turn(dec, s, rounds[0]);
              Wait(dec, s, rounds) == if Complete(s') then (s', Returned) else Wait(dec, s', rounds[1..])
  {
    hide Turn, Complete;
  }

  lemma AfterStep(dec: Decoder, start: nat, rounds: seq<Round>, i: nat)
    requires i < |rounds|
    ensures After(dec, start, rounds[..i + 1]) == Turn(dec, After(dec, start, rounds[..i]), rounds[i])
  {
    assert rounds[..i + 1][..i] == rounds[..i];
    hide Turn;
  }
}
