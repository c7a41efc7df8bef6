/** The duplicate suppression of `CodexRolloutNormalizer` in `codex_native.py`: Codex logs every
    utterance twice and may log a tool result twice, in any order; each is shown once. */
module RolloutNormalizer {
  import opened Wrappers

  type Id = string

  datatype Kind = Assistant | Reasoning

  // What a decoded row says that the suppression depends on. Empty texts and ids are missing ones.
  datatype Row =
    | Compacted(notice: bool)                 // the three rows that start a new turn
    | SessionMeta
    | TurnContext
    | AgentMessage(text: string)              // event_msg.agent_message
    | AssistantMessage(text: string)          // response_item.message with assistant text
    | AgentReasoning(text: string)            // event_msg.agent_reasoning, agent_reasoning_delta
    | ReasoningItem(text: string, renders: bool) // response_item.reasoning; a body outside the summary does not render
    | ToolCall(id: Id)                        // function_call, custom_tool_call, tool_search_call
    | ToolOutput(id: Id)                      // their outputs
    | McpEnd(id: Id)                          // mcp_tool_call_end with an invocation
    | Plain                                   // any other row that renders one event
    | Silent                                  // any other row that renders none

  datatype Event = Text(kind: Kind, text: string) | ToolUse(id: Id) | ToolResult(id: Id) | Card

  datatype State = State(seen: set<(Kind, string)>, emitted: set<Id>, calls: set<Id>)

  const INIT := State({}, {}, {})

  predicate Boundary(r: Row) {
    r.Compacted? || r.SessionMeta? || r.TurnContext?
  }

  // Assistant text stands in two kinds of row, reasoning in two others; an empty text is none.
  predicate Carries(r: Row, kind: Kind, text: string) {
    text != "" && match kind
                  case Assistant => r == AgentMessage(text) || r == AssistantMessage(text)
                  case Reasoning => r == AgentReasoning(text) || (r.ReasoningItem? && r.text == text)
  }

  // The body a row carries, if it carries one.
  function Key(r: Row): Option<(Kind, string)> {
    match r
    case AgentMessage(t) => if t == "" then None else Some((Assistant, t))
    case AssistantMessage(t) => if t == "" then None else Some((Assistant, t))
    case AgentReasoning(t) => if t == "" then None else Some((Reasoning, t))
    case ReasoningItem(t, _) => if t == "" then None else Some((Reasoning, t))
    case _ => None
  }

  // The call a row reports the result of.
  function ResultOf(r: Row): Option<Id> {
    match r
    case ToolOutput(id) => if id == "" then None else Some(id)
    case McpEnd(id) => Some(id)
    case _ => None
  }

  /** The body and the result of a row, told from its kind. */
  lemma RowIs(r: Row, kind: Kind, text: string, id: Id)
    ensures Key(r) == Some((kind, text)) <==> Carries(r, kind, text)
    ensures ResultOf(r) == Some(id) <==> r == McpEnd(id) || (r == ToolOutput(id) && id != "")
    ensures Boundary(r) <==> r.Compacted? || r == SessionMeta || r == TurnContext
  {
  }

  function Renders(r: Row): bool {
    r.ReasoningItem? ==> r.renders
  }

  function Step(s: State, r: Row): (State, seq<Event>) {
    match r
    case Compacted(notice) => (s.(seen := {}), if notice then [Card] else [])
    case SessionMeta => (s.(seen := {}), [])
    case TurnContext => (s.(seen := {}), [])
    case ToolCall(id) => (s.(calls := s.calls + {id}), [ToolUse(id)])
    case ToolOutput(id) =>
      var s1 := s.(calls := s.calls - {id});
      if id != "" && id in s.emitted then (s1, [])
      else (if id != "" then s1.(emitted := s.emitted + {id}) else s1, [ToolResult(id)])
    case McpEnd(id) =>
      var s1 := s.(calls := s.calls - {id});
      if id in s.emitted then (s1, [])
      else (s1.(emitted := s.emitted + {id}),
            (if id in s.calls then [] else [ToolUse(id)]) + [ToolResult(id)])
    case Plain => (s, [Card])
    case Silent => (s, [])
    case _ =>
      var k := Key(r);
      if k.None? then (s, if r.AssistantMessage? then [Card] else [])
      else if k.value in s.seen then (s, [])
      else (s.(seen := s.seen + {k.value}), if Renders(r) then [Text(k.value.0, k.value.1)] else [])
  }

  class CodexRolloutNormalizer {
    var seenTurnTexts: set<(Kind, string)>
    var emittedToolResultIds: set<Id>
    var responseToolCalls: set<Id>

    constructor ()
      ensures View() == INIT
    {
      seenTurnTexts, emittedToolResultIds, responseToolCalls := {}, {}, {};
    }

    function View(): State
      reads this
    {
      State(seenTurnTexts, emittedToolResultIds, responseToolCalls)
    }

    method ClaimTurnText(kind: Kind, text: string) returns (claimed: bool)
      modifies this
      ensures claimed == (text != "" && (kind, text) !in old(seenTurnTexts))
      ensures View()
              == old(View()).(seen := if claimed then old(seenTurnTexts) + {(kind, text)} else old(seenTurnTexts))
    {
      if text == "" || (kind, text) in seenTurnTexts {
        return false;
      }
      seenTurnTexts := seenTurnTexts + {(kind, text)};
      return true;
    }

    method ConsumeToolState(id: Id) returns (known: bool)
      modifies this
      ensures known == (id in old(responseToolCalls))
      ensures View() == old(View()).(calls := old(responseToolCalls) - {id})
    {
      known := id in responseToolCalls;
      responseToolCalls := responseToolCalls - {id};
    }

    /** `normalize_event` on one decoded row. */
    method NormalizeEvent(r: Row) returns (events: seq<Event>)
      modifies this
      ensures (View(), events) == Step(old(View()), r)
    {
      events := [];
      match r {
        case Compacted(notice) =>
          seenTurnTexts := {};
          if notice {
            events := [Card];
          }
        case SessionMeta => seenTurnTexts := {};
        case TurnContext => seenTurnTexts := {};
        case AgentMessage(text) =>
          var claimed := ClaimTurnText(Assistant, text);
          if claimed {
            events := [Text(Assistant, text)];
          }
        case AssistantMessage(text) =>
          if text == "" {
            return [Card];
          }
          var claimed := ClaimTurnText(Assistant, text);
          if claimed {
            events := [Text(Assistant, text)];
          }
        case AgentReasoning(text) =>
          var claimed := ClaimTurnText(Reasoning, text);
          if claimed {
            events := [Text(Reasoning, text)];
          }
        case ReasoningItem(text, renders) =>
          var claimed := ClaimTurnText(Reasoning, text);
          if claimed && renders {
            events := [Text(Reasoning, text)];
          }
        case ToolCall(id) =>
          responseToolCalls := responseToolCalls + {id};
          events := [ToolUse(id)];
        case ToolOutput(id) =>
          var known := ConsumeToolState(id);
          if id != "" && id in emittedToolResultIds {
            return;
          }
          events := [ToolResult(id)];
          if id != "" {
            emittedToolResultIds := emittedToolResultIds + {id};
          }
        case McpEnd(id) =>
          if id in emittedToolResultIds {
            var consumed := ConsumeToolState(id);
            return;
          }
          var known := ConsumeToolState(id);
          if !known {
            events := [ToolUse(id)];
          }
          events := events + [ToolResult(id)];
          emittedToolResultIds := emittedToolResultIds + {id};
        case Plain => events := [Card];
        case Silent =>
      }
    }
  }

  // ---------------------------------------------------------------- against the naive reading

  function After(rows: seq<Row>): State {
    if rows == [] then INIT else Step(After(rows[..|rows| - 1]), rows[|rows| - 1]).0
  }

  // What row i of a log renders to.
  function EventsAt(rows: seq<Row>, i: nat): seq<Event>
    requires i < |rows|
  {
    Step(After(rows[..i]), rows[i]).1
  }

  // Rows i and j are in one turn: no row after i, up to j, starts a new one.
  predicate SameTurn(rows: seq<Row>, i: nat, j: nat) {
    i <= j < |rows| && forall k :: i < k <= j ==> !Boundary(rows[k])
  }

  // Row i carries a body that no earlier row of its turn carries.
  ghost predicate FirstOfTurn(rows: seq<Row>, i: nat) {
    i < |rows| && Key(rows[i]).Some? && forall j :: 0 <= j < i && SameTurn(rows, j, i) ==> Key(rows[j]) != Key(rows[i])
  }

  ghost predicate FirstResult(rows: seq<Row>, i: nat) {
    i < |rows| && ResultOf(rows[i]).Some? && forall j :: 0 <= j < i ==> ResultOf(rows[j]) != ResultOf(rows[i])
  }

  lemma {:induction false} SeenIs(rows: seq<Row>, key: (Kind, string))
    ensures key in After(rows).seen <==>
              exists j :: 0 <= j < |rows| && SameTurn(rows, j, |rows| - 1) && Key(rows[j]) == Some(key)
  {
    if rows != [] {
      var n := |rows| - 1;
      SeenIs(rows[..n], key);
      forall j | 0 <= j < n ensures SameTurn(rows, j, n) <==> SameTurn(rows[..n], j, n - 1) && !Boundary(rows[n]) {
        assert forall k :: j < k < n ==> rows[..n][k] == rows[k];
      }
      assert forall j :: 0 <= j < n ==> rows[..n][j] == rows[j];
      assert SameTurn(rows, n, n);
    }
  }

  lemma {:induction false} EmittedIs(rows: seq<Row>, id: Id)
    ensures id in After(rows).emitted <==> exists j :: 0 <= j < |rows| && ResultOf(rows[j]) == Some(id)
  {
    if rows != [] {
      var n := |rows| - 1;
      EmittedIs(rows[..n], id);
      assert forall j :: 0 <= j < n ==> rows[..n][j] == rows[j];
      assert ResultOf(rows[n]) == Some(id) ==> exists j :: 0 <= j < |rows| && ResultOf(rows[j]) == Some(id);
    }
  }

  /** A row shows its body exactly when it is the first of its turn to carry it, and renders. */
  lemma ShownExactlyWhenFirst(rows: seq<Row>, i: nat, key: (Kind, string))
    requires i < |rows|
    ensures Text(key.0, key.1) in EventsAt(rows, i) <==>
              Key(rows[i]) == Some(key) && FirstOfTurn(rows, i) && Renders(rows[i])
  {
    SeenIs(rows[..i], key);
    forall j | 0 <= j < i
      ensures SameTurn(rows, j, i) <==> SameTurn(rows[..i], j, i - 1) && !Boundary(rows[i])
    {
      assert forall k :: j < k < i ==> rows[..i][k] == rows[k];
    }
    assert forall j :: 0 <= j < i ==> rows[..i][j] == rows[j];
  }

  /** A row shows a tool result exactly when it is the first in the whole log to report that call. */
  lemma ResultShownExactlyWhenFirst(rows: seq<Row>, i: nat, id: Id)
    requires i < |rows| && id != ""
    ensures ToolResult(id) in EventsAt(rows, i) <==> ResultOf(rows[i]) == Some(id) && FirstResult(rows, i)
  {
    EmittedIs(rows[..i], id);
    assert forall j :: 0 <= j < i ==> rows[..i][j] == rows[j];
  }

  // ---------------------------------------------------------------- once per turn, once per run

  // Where a body first appears in the turn of row i.
  lemma {:induction false} FirstAppearance(rows: seq<Row>, i: nat) returns (f: nat)
    requires i < |rows| && Key(rows[i]).Some?
    ensures f <= i && SameTurn(rows, f, i) && Key(rows[f]) == Key(rows[i]) && FirstOfTurn(rows, f)
  {
    if j :| 0 <= j < i && SameTurn(rows, j, i) && Key(rows[j]) == Key(rows[i]) {
      f := FirstAppearance(rows, j);
    } else {
      f := i;
    }
  }

  /** Within a turn, every assistant text is shown exactly once, at its first appearance. */
  lemma AssistantTextExactlyOnce(rows: seq<Row>, i: nat) returns (f: nat)
    requires i < |rows| && Key(rows[i]).Some? && Key(rows[i]).value.0 == Assistant
    ensures var key := Key(rows[i]).value;
            && f <= i && SameTurn(rows, f, i) && Text(key.0, key.1) in EventsAt(rows, f)
            && forall g :: 0 <= g < |rows| && g != f && (SameTurn(rows, f, g) || SameTurn(rows, g, f)) ==>
                 Text(key.0, key.1) !in EventsAt(rows, g)
  {
    var key := Key(rows[i]).value;
    f := FirstAppearance(rows, i);
    ShownExactlyWhenFirst(rows, f, key);
    forall g | 0 <= g < |rows| && g != f && (SameTurn(rows, f, g) || SameTurn(rows, g, f))
      ensures Text(key.0, key.1) !in EventsAt(rows, g)
    {
      ShownExactlyWhenFirst(rows, g, key);
    }
  }

  /** Within a turn, a reasoning text is shown at most once; it is shown at all exactly when its
      first appearance renders. */
  lemma ReasoningAtMostOnce(rows: seq<Row>, i: nat) returns (f: nat)
    requires i < |rows| && Key(rows[i]).Some? && Key(rows[i]).value.0 == Reasoning
    ensures var key := Key(rows[i]).value;
            && f <= i && SameTurn(rows, f, i) && Key(rows[f]) == Some(key)
            && (Text(key.0, key.1) in EventsAt(rows, f) <==> Renders(rows[f]))
            && forall g :: 0 <= g < |rows| && g != f && (SameTurn(rows, f, g) || SameTurn(rows, g, f)) ==>
                 Text(key.0, key.1) !in EventsAt(rows, g)
  {
    var key := Key(rows[i]).value;
    f := FirstAppearance(rows, i);
    ShownExactlyWhenFirst(rows, f, key);
    forall g | 0 <= g < |rows| && g != f && (SameTurn(rows, f, g) || SameTurn(rows, g, f))
      ensures Text(key.0, key.1) !in EventsAt(rows, g)
    {
      ShownExactlyWhenFirst(rows, g, key);
    }
  }

  /** It may be shown not at all: a finalised item that renders nothing claims the text, and the message
      that would have shown it is taken for an echo. */
  lemma SilentItemHidesReasoning(text: string)
    requires text != ""
    ensures var rows := [ReasoningItem(text, false), AgentReasoning(text)];
            EventsAt(rows, 0) == [] && EventsAt(rows, 1) == []
  {
    var rows := [ReasoningItem(text, false), AgentReasoning(text)];
    assert rows[..0] == [] && rows[..1][..0] == [] && rows[..1] == [rows[0]];
    assert After(rows[..0]) == INIT;
    assert After(rows[..1]) == INIT.(seen := {(Reasoning, text)});
  }

  /** Across the whole log, a call has at most one result, whichever path reports it first. */
  lemma OneResultPerCall(rows: seq<Row>, i: nat, j: nat, id: Id)
    requires i < j < |rows| && id != ""
    ensures !(ToolResult(id) in EventsAt(rows, i) && ToolResult(id) in EventsAt(rows, j))
  {
    ResultShownExactlyWhenFirst(rows, i, id);
    ResultShownExactlyWhenFirst(rows, j, id);
  }

  // The call is shown and has not been consumed since by a row that ends it.
  ghost predicate Called(rows: seq<Row>, id: Id) {
    exists j :: 0 <= j < |rows| && rows[j] == ToolCall(id) && NotEnded(rows, j, id)
  }

  ghost predicate NotEnded(rows: seq<Row>, j: nat, id: Id) {
    forall k :: j < k < |rows| ==> rows[k] != ToolOutput(id) && rows[k] != McpEnd(id)
  }

  lemma {:induction false} CallsAre(rows: seq<Row>, id: Id)
    ensures id in After(rows).calls <==> Called(rows, id)
  {
    if rows != [] {
      var n := |rows| - 1;
      CallsAre(rows[..n], id);
      assert forall j :: 0 <= j < n ==> rows[..n][j] == rows[j];
      if Called(rows[..n], id) && rows[n] != ToolOutput(id) && rows[n] != McpEnd(id) {
        var j :| 0 <= j < n && rows[j] == ToolCall(id) && NotEnded(rows[..n], j, id);
        assert NotEnded(rows, j, id);
      }
      if rows[n] == ToolCall(id) {
        assert NotEnded(rows, n, id);
      }
      if Called(rows, id) && rows[n] != ToolCall(id) {
        var j :| 0 <= j < |rows| && rows[j] == ToolCall(id) && NotEnded(rows, j, id);
        assert NotEnded(rows[..n], j, id);
      }
    }
  }

  /** The row that ends an MCP call shows the call if and only if it is the first to report its result
      and no row before has shown it; and then the call stands before the result. */
  lemma McpShowsItsCall(rows: seq<Row>, i: nat, id: Id)
    requires i < |rows| && rows[i] == McpEnd(id) && id != ""
    ensures ToolUse(id) in EventsAt(rows, i) <==>
              FirstResult(rows, i) && forall j :: 0 <= j < i ==> rows[j] != ToolCall(id)
    ensures ToolUse(id) in EventsAt(rows, i) ==> EventsAt(rows, i) == [ToolUse(id), ToolResult(id)]
  {
    EmittedIs(rows[..i], id);
    CallsAre(rows[..i], id);
    assert forall j :: 0 <= j < i ==> rows[..i][j] == rows[j];
    if j :| 0 <= j < i && rows[j] == ToolCall(id) {
      if FirstResult(rows, i) {
        assert forall k :: 0 <= k < i ==> ResultOf(rows[k]) != Some(id);
        assert NotEnded(rows[..i], j, id);
      }
    }
  }

  /** A result from the `mcp_tool_call_end` path always follows its call in what is shown: either the
      row shows the call itself, or an earlier row did. */
  lemma McpResultFollowsItsCall(rows: seq<Row>, i: nat, id: Id)
    requires i < |rows| && rows[i] == McpEnd(id) && ToolResult(id) in EventsAt(rows, i)
    ensures EventsAt(rows, i) == [ToolUse(id), ToolResult(id)]
            || (EventsAt(rows, i) == [ToolResult(id)] && exists j :: 0 <= j < i && EventsAt(rows, j) == [ToolUse(id)])
  {
    CallsAre(rows[..i], id);
    if Called(rows[..i], id) {
      var j :| 0 <= j < i && rows[..i][j] == ToolCall(id) && NotEnded(rows[..i], j, id);
      assert EventsAt(rows, j) == [ToolUse(id)];
    }
  }

  // ---------------------------------------------------------------- what is shown, without a state

  // What row i shows, told from the rows alone.
  ghost function Shown(rows: seq<Row>, i: nat): seq<Event>
    requires i < |rows|
  {
    match rows[i]
    case Compacted(notice) => if notice then [Card] else []
    case SessionMeta => []
    case TurnContext => []
    case AgentMessage(t) => if t != "" && FirstOfTurn(rows, i) then [Text(Assistant, t)] else []
    case AssistantMessage(t) => if t == "" then [Card] else if FirstOfTurn(rows, i) then [Text(Assistant, t)] else []
    case AgentReasoning(t) => if t != "" && FirstOfTurn(rows, i) then [Text(Reasoning, t)] else []
    case ReasoningItem(t, renders) => if t != "" && renders && FirstOfTurn(rows, i) then [Text(Reasoning, t)] else []
    case ToolCall(id) => [ToolUse(id)]
    case ToolOutput(id) => if id == "" || FirstResult(rows, i) then [ToolResult(id)] else []
    case McpEnd(id) =>
      if !FirstResult(rows, i) then []
      else (if Called(rows[..i], id) then [] else [ToolUse(id)]) + [ToolResult(id)]
    case Plain => [Card]
    case Silent => []
  }

  /** The normaliser shows of every row exactly what the rows alone say: its three sets only remember. */
  lemma ShowsExactly(rows: seq<Row>, i: nat)
    requires i < |rows|
    ensures EventsAt(rows, i) == Shown(rows, i)
  {
    assert forall j :: 0 <= j < i ==> rows[..i][j] == rows[j];
    if Key(rows[i]).Some? {
      SeenExactly(rows, i);
    } else if ResultOf(rows[i]).Some? {
      EmittedIs(rows[..i], ResultOf(rows[i]).value);
      CallsAre(rows[..i], ResultOf(rows[i]).value);
    }
    hide After, FirstOfTurn, Called;
  }

  lemma SeenExactly(rows: seq<Row>, i: nat)
    requires i < |rows| && Key(rows[i]).Some?
    ensures Key(rows[i]).value !in After(rows[..i]).seen <==> FirstOfTurn(rows, i)
  {
    SeenIs(rows[..i], Key(rows[i]).value);
    forall j | 0 <= j < i
      ensures SameTurn(rows, j, i) <==> SameTurn(rows[..i], j, i - 1) && !Boundary(rows[i])
    {
      assert forall k :: j < k < i ==> rows[..i][k] == rows[k];
    }
    assert forall j :: 0 <= j < i ==> rows[..i][j] == rows[j];
  }
}
