/** Reading a growing rollout log: the incremental tailer of `codex_native.py` against the batch
    replay of the same bytes. Parsing and normalising a line is an arbitrary function of the
    normaliser's state and the line; only the byte bookkeeping is fixed here. */
module RolloutTailer {
  import opened Bytes
  import opened Sequences
  import opened Wrappers

  // The end of the first line: just past its newline, or the end of the bytes.
  function FirstBreak(bytes: seq<byte>): (e: nat)
    ensures e <= |bytes| && (bytes != [] ==> e > 0)
    ensures forall k :: 0 <= k < e - 1 ==> bytes[k] != NEWLINE
    ensures e < |bytes| ==> bytes[e - 1] == NEWLINE
  {
    if bytes == [] then 0
    else if bytes[0] == NEWLINE then 1
    else 1 + FirstBreak(bytes[1..])
  }

  // The lines of a byte string; only the last may lack its newline.
  function Split(bytes: seq<byte>): seq<seq<byte>>
    decreases |bytes|
  {
    if bytes == [] then []
    else
      var e := FirstBreak(bytes);
      [bytes[..e]] + Split(bytes[e..])
  }

  predicate Terminated(bytes: seq<byte>) {
    bytes == [] || bytes[|bytes| - 1] == NEWLINE
  }

  // Bytes a to b of a file; nothing if the file does not reach that far.
  function Segment(content: seq<byte>, a: nat, b: nat): seq<byte> {
    if a <= b <= |content| then content[a..b] else []
  }

  lemma {:induction false} FirstBreakPrefix(x: seq<byte>, y: seq<byte>)
    requires Terminated(x) && x != []
    ensures FirstBreak(x + y) == FirstBreak(x)
  {
    assert (x + y)[0] == x[0];
    if x[0] != NEWLINE {
      assert (x + y)[1..] == x[1..] + y;
      FirstBreakPrefix(x[1..], y);
    }
  }

  lemma Cut(x: seq<byte>, y: seq<byte>, e: nat)
    requires e <= |x|
    ensures (x + y)[..e] == x[..e] && (x + y)[e..] == x[e..] + y
  {
  }

  /** Splitting is compositional at a line boundary. */
  lemma {:induction false} SplitConcat(x: seq<byte>, y: seq<byte>)
    requires Terminated(x)
    ensures Split(x + y) == Split(x) + Split(y)
    decreases |x|
  {
    if x == [] {
      assert x + y == y;
    } else {
      FirstBreakPrefix(x, y);
      var e := FirstBreak(x);
      Cut(x, y, e);
      SplitConcat(x[e..], y);
      Associate([x[..e]], Split(x[e..]), Split(y));
    }
  }

  lemma SplitOne(line: seq<byte>)
    requires line != [] && FirstBreak(line) == |line|
    ensures Split(line) == [line]
  {
    assert line[..|line|] == line;
    assert line[|line|..] == [];
  }

  // ---------------------------------------------------------------- one pass over lines

  type Normaliser<!N, !E> = (N, seq<byte>) -> (N, seq<E>)

  // The state and the events after normalising the lines in order.
  function Replay<N, E>(step: Normaliser<N, E>, n: N, lines: seq<seq<byte>>): (N, seq<E>) {
    if lines == [] then (n, [])
    else
      var k := |lines| - 1;
      var (n1, es) := Replay(step, n, lines[..k]);
      var (n2, more) := step(n1, lines[k]);
      (n2, es + more)
  }

  lemma ReplaySnoc<N, E>(step: Normaliser<N, E>, n: N, lines: seq<seq<byte>>, line: seq<byte>)
    ensures var (n1, es) := Replay(step, n, lines);
            Replay(step, n, lines + [line]) == (step(n1, line).0, es + step(n1, line).1)
  {
    assert (lines + [line])[..|lines|] == lines;
  }

  // Replay from a state that has dispatched some events already.
  function Continue<N, E>(step: Normaliser<N, E>, n: N, es: seq<E>, lines: seq<seq<byte>>): (N, seq<E>) {
    var (n1, more) := Replay(step, n, lines);
    (n1, es + more)
  }

  lemma ContinueSnoc<N, E>(step: Normaliser<N, E>, n: N, es: seq<E>, lines: seq<seq<byte>>, line: seq<byte>)
    ensures var (n1, all) := Continue(step, n, es, lines);
            Continue(step, n, es, lines + [line]) == (step(n1, line).0, all + step(n1, line).1)
  {
    var (n1, more) := Replay(step, n, lines);
    ReplaySnoc(step, n, lines, line);
    Associate(es, more, step(n1, line).1);
  }

  /** Replay is compositional: a pass may stop and go on. */
  lemma {:induction false} ReplayConcat<N, E>(step: Normaliser<N, E>, n: N, a: seq<seq<byte>>, b: seq<seq<byte>>)
    ensures var (n1, es) := Replay(step, n, a);
            Replay(step, n, a + b) == Continue(step, n1, es, b)
  {
    var (n1, es) := Replay(step, n, a);
    if b == [] {
      assert a + b == a;
      assert es + [] == es;
    } else {
      var k := |b| - 1;
      ReplayConcat(step, n, a, b[..k]);
      assert a + b == a + b[..k] + [b[k]];
      ReplaySnoc(step, n, a + b[..k], b[k]);
      var (n2, more) := Replay(step, n1, b[..k]);
      Associate(es, more, step(n2, b[k]).1);
    }
  }

  class RolloutFile {
    var content: seq<byte>

    constructor (content: seq<byte>)
      ensures this.content == content
    {
      this.content := content;
    }

    method Append(bytes: seq<byte>)
      modifies this
      ensures content == old(content) + bytes
    {
      content := content + bytes;
    }
  }

  // The bytes from a to b are whole lines.
  predicate WholeLines(content: seq<byte>, a: nat, b: nat) {
    b == a || (a < b <= |content| && content[b - 1] == NEWLINE)
  }

  // The first line of the rest of the file.
  function LineAt(content: seq<byte>, b: nat): (raw: seq<byte>)
    ensures b + |raw| <= |content| || raw == []
    ensures b < |content| ==> raw != [] && raw == content[b..b + |raw|]
  {
    if b < |content| then content[b..][..FirstBreak(content[b..])] else []
  }

  // One more line after a boundary.
  lemma NextLine(content: seq<byte>, a: nat, b: nat)
    requires WholeLines(content, a, b) && b < |content|
    ensures Split(Segment(content, a, b + |LineAt(content, b)|)) == Split(Segment(content, a, b)) + [LineAt(content, b)]
  {
    var raw := LineAt(content, b);
    FirstBreakCut(content[b..]);
    SplitOne(raw);
    JoinSegments(content, a, b, b + |raw|);
    SplitConcat(Segment(content, a, b), raw);
  }

  lemma JoinSegments(content: seq<byte>, a: nat, b: nat, c: nat)
    requires WholeLines(content, a, b) && b <= c <= |content|
    ensures Segment(content, a, c) == Segment(content, a, b) + content[b..c] && Terminated(Segment(content, a, b))
  {
  }

  lemma {:induction false} FirstBreakCut(bytes: seq<byte>)
    requires bytes != []
    ensures FirstBreak(bytes[..FirstBreak(bytes)]) == FirstBreak(bytes)
  {
    if bytes[0] != NEWLINE && bytes[1..] != [] {
      FirstBreakCut(bytes[1..]);
      assert bytes[..FirstBreak(bytes)][1..] == bytes[1..][..FirstBreak(bytes[1..])];
    }
  }

  // Appending to the file changes nothing below its old end.
  lemma AppendKeeps(content: seq<byte>, more: seq<byte>, a: nat, b: nat)
    requires WholeLines(content, a, b)
    ensures WholeLines(content + more, a, b)
    ensures a < b ==> Segment(content + more, a, b) == Segment(content, a, b)
    ensures a == b ==> Split(Segment(content + more, a, b)) == Split(Segment(content, a, b)) == []
  {
  }

  // `readline` at a position: the bytes up to and including the next newline, or up to the end.
  method ReadLine(file: RolloutFile, pos: nat) returns (raw: seq<byte>)
    ensures raw == LineAt(file.content, pos)
  {
    var e := pos;
    while e < |file.content| && (e == pos || file.content[e - 1] != NEWLINE)
      invariant pos <= e && (e > pos ==> e <= |file.content|)
      invariant pos < |file.content| ==>
                  forall k :: pos <= k < e - 1 ==> file.content[k] != NEWLINE
    {
      e := e + 1;
    }
    if pos >= |file.content| {
      return [];
    }
    raw := file.content[pos..e];
    BreakIsFirst(file.content[pos..], e - pos);
  }

  lemma {:induction false} BreakIsFirst(bytes: seq<byte>, e: nat)
    requires 0 < e <= |bytes| && (forall k :: 0 <= k < e - 1 ==> bytes[k] != NEWLINE)
    requires e < |bytes| ==> bytes[e - 1] == NEWLINE
    ensures FirstBreak(bytes) == e
  {
    if bytes[0] != NEWLINE && e > 1 {
      BreakIsFirst(bytes[1..], e - 1);
    }
  }

  // No complete line is left from b on.
  predicate NoLineFrom(content: seq<byte>, b: nat) {
    forall k :: b <= k < |content| ==> content[k] != NEWLINE
  }

  datatype Line = Line(raw: seq<byte>, cursor: nat)

  function Raws(lines: seq<Line>): (r: seq<seq<byte>>)
    ensures |r| == |lines|
  {
    seq(|lines|, i requires 0 <= i < |lines| => lines[i].raw)
  }

  function Total(arrivals: seq<seq<byte>>): nat {
    if arrivals == [] then 0 else |arrivals[0]| + Total(arrivals[1..])
  }

  ghost predicate LinesFrom(content: seq<byte>, start: nat, lines: seq<Line>) {
    forall i :: 0 <= i < |lines| ==> LineOk(content, start, lines, i)
  }

  // The i-th cursor is a line boundary, and the lines so far are the lines up to it.
  ghost predicate LineOk(content: seq<byte>, start: nat, lines: seq<Line>, i: nat)
    requires i < |lines|
  {
    && lines[i].cursor > (if i == 0 then start else lines[i - 1].cursor) && lines[i].cursor > start
    && WholeLines(content, start, lines[i].cursor)
    && Split(Segment(content, start, lines[i].cursor)) == Raws(lines[..i + 1])
  }

  function Cursor(start: nat, lines: seq<Line>): nat {
    if lines == [] then start else lines[|lines| - 1].cursor
  }

  lemma CursorOk(content: seq<byte>, start: nat, lines: seq<Line>)
    requires LinesFrom(content, start, lines)
    ensures WholeLines(content, start, Cursor(start, lines)) && start <= Cursor(start, lines)
    ensures Split(Segment(content, start, Cursor(start, lines))) == Raws(lines)
  {
    if lines != [] {
      assert LineOk(content, start, lines, |lines| - 1);
      assert lines[..|lines|] == lines;
    }
  }

  lemma LinesGrow(content: seq<byte>, more: seq<byte>, start: nat, lines: seq<Line>)
    requires LinesFrom(content, start, lines)
    ensures LinesFrom(content + more, start, lines)
  {
    forall i | 0 <= i < |lines| ensures LineOk(content + more, start, lines, i) {
      assert LineOk(content, start, lines, i);
      AppendKeeps(content, more, start, lines[i].cursor);
    }
  }

  function Cursors(lines: seq<Line>): (r: seq<nat>)
    ensures |r| == |lines|
  {
    seq(|lines|, i requires 0 <= i < |lines| => lines[i].cursor)
  }

  lemma RawsSnoc(lines: seq<Line>, line: Line)
    ensures Raws(lines + [line]) == Raws(lines) + [line.raw]
  {
  }

  lemma LastLineOk(content: seq<byte>, start: nat, pos: nat, lines: seq<Line>)
    requires pos == Cursor(start, lines)
    requires WholeLines(content, start, pos) && start <= pos < |content|
    requires Split(Segment(content, start, pos)) == Raws(lines)
    requires var raw := LineAt(content, pos); raw != [] && raw[|raw| - 1] == NEWLINE
    ensures var raw := LineAt(content, pos);
            LineOk(content, start, lines + [Line(raw, pos + |raw|)], |lines|)
  {
    hide Split, Segment, Raws, FirstBreak, LineAt;
    var raw := LineAt(content, pos);
    var all := lines + [Line(raw, pos + |raw|)];
    NextLine(content, start, pos);
    RawsSnoc(lines, Line(raw, pos + |raw|));
    assert all[..|lines| + 1] == all;
    assert content[pos..pos + |raw|][|raw| - 1] == content[pos + |raw| - 1];
  }

  lemma LinesSnoc(content: seq<byte>, start: nat, lines: seq<Line>, line: Line)
    requires LinesFrom(content, start, lines) && LineOk(content, start, lines + [line], |lines|)
    ensures LinesFrom(content, start, lines + [line])
  {
    var all := lines + [line];
    forall i | 0 <= i < |lines| ensures LineOk(content, start, all, i) {
      assert LineOk(content, start, lines, i);
      assert all[..i + 1] == lines[..i + 1];
    }
  }

  lemma AddLine(content: seq<byte>, start: nat, pos: nat, lines: seq<Line>)
    requires LinesFrom(content, start, lines) && pos == Cursor(start, lines)
    requires var raw := LineAt(content, pos); raw != [] && raw[|raw| - 1] == NEWLINE
    ensures var raw := LineAt(content, pos);
            && pos + |raw| <= |content|
            && LinesFrom(content, start, lines + [Line(raw, pos + |raw|)])
  {
    CursorOk(content, start, lines);
    LastLineOk(content, start, pos, lines);
    LinesSnoc(content, start, lines, Line(LineAt(content, pos), pos + |LineAt(content, pos)|));
  }

  lemma NothingLeft(content: seq<byte>, pos: nat)
    requires var raw := LineAt(content, pos); raw == [] || raw[|raw| - 1] != NEWLINE
    ensures forall before :: before <= content ==> NoLineFrom(before, pos)
  {
    if pos < |content| {
      var rest := content[pos..];
      var e := FirstBreak(rest);
      assert e == |rest|;
      forall k | pos <= k < |content| ensures content[k] != NEWLINE {
        assert content[k] == rest[k - pos];
      }
    }
  }

  /** `_read_available_lines`, while others append: the k-th arrival lands just before the k-th
      `readline`. The loop stops at the first line that is empty or not terminated. */
  method ReadAvailableLines(file: RolloutFile, start: nat, arrivals: seq<seq<byte>>) returns (lines: seq<Line>)
    modifies file
    ensures old(file.content) <= file.content
    ensures LinesFrom(file.content, start, lines)
    ensures NoLineFrom(old(file.content), Cursor(start, lines))
  {
    lines := [];
    var pos: nat, rest := start, arrivals;
    ghost var before := file.content;
    while true
      invariant pos == Cursor(start, lines) && before <= file.content
      invariant LinesFrom(file.content, start, lines)
      invariant pos > start ==> pos <= |file.content|
      decreases |file.content| + Total(rest) - pos
    {
      if rest != [] {
        LinesGrow(file.content, rest[0], start, lines);
        file.Append(rest[0]);
        rest := rest[1..];
      }
      var raw := ReadLine(file, pos);
      if raw == [] || raw[|raw| - 1] != NEWLINE {
        NothingLeft(file.content, pos);
        return;
      }
      AddLine(file.content, start, pos, lines);
      lines, pos := lines + [Line(raw, pos + |raw|)], pos + |raw|;
    }
  }

  class CodexRolloutTailer<N, E> {
    const step: Normaliser<N, E>
    const initial: N
    const start: nat
    var processed: nat
    var norm: N
    var dispatched: seq<E>
    var cursors: seq<nat>   // reported by on_cursor_advance

    constructor (step: Normaliser<N, E>, initial: N, start: nat)
      ensures this.step == step && this.initial == initial && this.start == start
      ensures processed == start && dispatched == [] && cursors == []
      ensures forall content :: Consistent(content)
    {
      this.step, this.initial, this.start := step, initial, start;
      processed, norm, dispatched, cursors := start, initial, [], [];
    }

    // What was dispatched is one pass over the whole lines from the start up to the cursor, and
    // the reported cursors are increasing line boundaries that end there.
    ghost predicate Consistent(content: seq<byte>)
      reads this
    {
      && WholeLines(content, start, processed) && start <= processed
      && (norm, dispatched) == Replay(step, initial, Split(Segment(content, start, processed)))
      && CursorsOk(content, start, cursors, processed)
    }

    // The loop of `drain_available`: per line normalise, dispatch and advance the cursor.
    method DispatchLines(lines: seq<Line>)
      modifies this
      ensures (norm, dispatched) == Continue(step, old(norm), old(dispatched), Raws(lines))
      ensures processed == Cursor(old(processed), lines) && cursors == old(cursors) + Cursors(lines)
    {
      ghost var from, n0, e0, c0 := processed, norm, dispatched, cursors;
      assert e0 + [] == e0 && Raws(lines[..0]) == [] && c0 + Cursors(lines[..0]) == c0;
      for i := 0 to |lines|
        invariant processed == Cursor(from, lines[..i])
        invariant (norm, dispatched) == Continue(step, n0, e0, Raws(lines[..i]))
        invariant cursors == c0 + Cursors(lines[..i])
      {
        assert lines[..i + 1] == lines[..i] + [lines[i]];
        var (n, events) := step(norm, lines[i].raw);
        ContinueSnoc(step, n0, e0, Raws(lines[..i]), lines[i].raw);
        RawsSnoc(lines[..i], lines[i]);
        CursorsSnoc(c0, lines[..i], lines[i]);
        norm, dispatched := n, dispatched + events;
        processed := lines[i].cursor;
        cursors := cursors + [processed];
      }
      assert lines[..|lines|] == lines;
    }

    /** `drain_available`: read, then dispatch what was read. */
    method DrainAvailable(file: RolloutFile, arrivals: seq<seq<byte>>) returns (emitted: bool)
      requires Consistent(file.content)
      modifies this, file
      ensures Consistent(file.content) && old(file.content) <= file.content
      ensures processed >= old(processed) && emitted == (processed > old(processed))
      // Every line that was complete when the drain began has been dispatched.
      ensures NoLineFrom(old(file.content), processed)
    {
      ghost var before := file.content;
      var lines := ReadAvailableLines(file, processed, arrivals);
      ConsistentGrows(before, file.content);
      ghost var content, from, c0 := file.content, processed, cursors;
      DispatchLines(lines);
      emitted := lines != [];
      ResumeAt(content, start, from, processed, lines);
      ResumeCursors(content, start, from, lines, c0);
      ReplayConcat(step, initial, Split(Segment(content, start, from)), Raws(lines));
      hide Split, Segment, Replay, Continue, Cursors, Raws, LinesFrom, WholeLines, CursorsOk, NoLineFrom;
    }

    lemma ConsistentGrows(content: seq<byte>, later: seq<byte>)
      requires Consistent(content) && content <= later
      ensures Consistent(later)
    {
      var more := later[|content|..];
      assert later == content + more;
      AppendKeeps(content, more, start, processed);
      forall i | 0 <= i < |cursors| ensures WholeLines(later, start, cursors[i]) {
        AppendKeeps(content, more, start, cursors[i]);
      }
    }
  }

  lemma CursorsSnoc(c0: seq<nat>, lines: seq<Line>, line: Line)
    ensures c0 + Cursors(lines + [line]) == c0 + Cursors(lines) + [line.cursor]
  {
  }

  ghost predicate CursorsOk(content: seq<byte>, start: nat, cursors: seq<nat>, last: nat) {
    && (forall i :: 0 <= i < |cursors| ==> start < cursors[i] <= last && WholeLines(content, start, cursors[i]))
    && (forall i, j :: 0 <= i < j < |cursors| ==> cursors[i] < cursors[j])
    && last == if cursors == [] then start else cursors[|cursors| - 1]
  }

  // The lines read from a boundary on continue the lines up to it.
  lemma ResumeAt(content: seq<byte>, start: nat, from: nat, c: nat, lines: seq<Line>)
    requires WholeLines(content, start, from) && start <= from
    requires LinesFrom(content, from, lines) && c == Cursor(from, lines)
    ensures from <= c && (c == from <==> lines == []) && WholeLines(content, start, c)
    ensures Split(Segment(content, start, c)) == Split(Segment(content, start, from)) + Raws(lines)
  {
    CursorOk(content, from, lines);
    if lines == [] {
      assert Split(Segment(content, start, from)) + [] == Split(Segment(content, start, from));
    } else {
      assert LineOk(content, from, lines, |lines| - 1);
      JoinSegments(content, start, from, c);
      SplitConcat(Segment(content, start, from), content[from..c]);
    }
  }

  lemma {:induction false} CursorsIncrease(content: seq<byte>, from: nat, lines: seq<Line>, i: nat, j: nat)
    requires LinesFrom(content, from, lines) && i < j < |lines|
    ensures lines[i].cursor < lines[j].cursor
  {
    assert LineOk(content, from, lines, j);
    if i < j - 1 {
      CursorsIncrease(content, from, lines, i, j - 1);
    }
  }

  lemma ResumeCursors(content: seq<byte>, start: nat, from: nat, lines: seq<Line>, c0: seq<nat>)
    requires WholeLines(content, start, from) && start <= from && CursorsOk(content, start, c0, from)
    requires LinesFrom(content, from, lines)
    ensures CursorsOk(content, start, c0 + Cursors(lines), Cursor(from, lines))
  {
    var all, last := c0 + Cursors(lines), Cursor(from, lines);
    forall i | 0 <= i < |lines| ensures from < lines[i].cursor <= last && WholeLines(content, start, lines[i].cursor) {
      LineEndsAt(content, start, from, lines, i);
    }
    forall i, j | 0 <= i < j < |all| ensures all[i] < all[j] {
      if |c0| <= i {
        CursorsIncrease(content, from, lines, i - |c0|, j - |c0|);
      }
    }
    hide LinesFrom, WholeLines;
  }

  lemma LineEndsAt(content: seq<byte>, start: nat, from: nat, lines: seq<Line>, i: nat)
    requires WholeLines(content, start, from) && start <= from && LinesFrom(content, from, lines) && i < |lines|
    ensures from < lines[i].cursor <= Cursor(from, lines) && WholeLines(content, start, lines[i].cursor)
  {
    assert LineOk(content, from, lines, i);
    if i < |lines| - 1 {
      CursorsIncrease(content, from, lines, i, |lines| - 1);
    }
  }

  // ---------------------------------------------------------------- batch replay

  // Where a pass from pos stops: at the end of the file, or before the first line that reaches
  // past `end`.
  function CutAt(content: seq<byte>, pos: nat, end: Option<nat>): (cut: nat)
    ensures pos <= cut
    decreases |content| - pos
  {
    if pos >= |content| || (end.Some? && pos + |LineAt(content, pos)| > end.value) then pos
    else CutAt(content, pos + |LineAt(content, pos)|, end)
  }

  lemma LineEnd(content: seq<byte>, start: nat, pos: nat)
    requires start <= pos < |content|
    ensures var e := pos + |LineAt(content, pos)|;
            && pos < e <= |content| && (WholeLines(content, start, e) || e == |content|)
            && forall b :: pos < b < e ==> !WholeLines(content, start, b)
  {
    var rest, raw := content[pos..], LineAt(content, pos);
    var e := pos + |raw|;
    assert content[e - 1] == rest[|raw| - 1];
    forall b | pos < b < e
      ensures !WholeLines(content, start, b)
    {
      assert content[b - 1] == rest[b - 1 - pos];
    }
  }

  /** The cut is the last line boundary up to `end`; without an end it is the end of the file, whether
      or not its last line is terminated. */
  lemma {:induction false} CutIsLastBoundary(content: seq<byte>, start: nat, pos: nat, end: Option<nat>)
    requires start <= pos && (pos > start ==> pos <= |content|) && (WholeLines(content, start, pos) || pos == |content|)
    ensures var cut := CutAt(content, pos, end);
            && (cut > pos ==> cut <= |content| && (end.Some? ==> cut <= end.value))
            && (WholeLines(content, start, cut) || cut == |content|)
            && (forall b :: pos <= b && (end.Some? ==> b <= end.value) && WholeLines(content, start, b) ==> b <= cut)
            && (end.None? && pos < |content| ==> cut == |content|)
    decreases |content| - pos
  {
    hide LineAt, WholeLines;
    if pos < |content| {
      LineEnd(content, start, pos);
      var e := pos + |LineAt(content, pos)|;
      if end.None? || e <= end.value {
        CutIsLastBoundary(content, start, e, end);
        assert forall b :: pos <= b < e && WholeLines(content, start, b) ==> b <= CutAt(content, pos, end);
      } else {
        assert CutAt(content, pos, end) == pos;
      }
    } else {
      NoBoundaryBeyond(content, start, pos);
    }
  }

  lemma NoBoundaryBeyond(content: seq<byte>, start: nat, pos: nat)
    requires start <= pos && |content| <= pos
    ensures forall b :: pos < b ==> !WholeLines(content, start, b)
  {
  }

  // Cutting at a line boundary takes in exactly the lines up to it.
  lemma CutAtBoundary(content: seq<byte>, start: nat, end: nat)
    requires start <= end && WholeLines(content, start, end)
    ensures CutAt(content, start, Some(end)) == end
  {
    CutIsLastBoundary(content, start, start, Some(end));
  }

  // The batch has taken in the lines from start to pos.
  ghost predicate BatchAt<N, E>(step: Normaliser<N, E>, initial: N, content: seq<byte>, start: nat,
                                pos: nat, n: N, es: seq<E>)
  {
    && start <= pos && (WholeLines(content, start, pos) || pos == |content|)
    && (n, es) == Replay(step, initial, Split(Segment(content, start, pos)))
  }

  lemma BatchStarts<N, E>(step: Normaliser<N, E>, initial: N, content: seq<byte>, start: nat)
    ensures BatchAt(step, initial, content, start, start, initial, [])
  {
  }

  // One turn of the batch loop.
  lemma BatchStep<N, E>(step: Normaliser<N, E>, initial: N, content: seq<byte>, start: nat, pos: nat, n: N, es: seq<E>)
    requires BatchAt(step, initial, content, start, pos, n, es) && pos < |content|
    ensures var raw := LineAt(content, pos);
            BatchAt(step, initial, content, start, pos + |raw|, step(n, raw).0, es + step(n, raw).1)
  {
    LineEnd(content, start, pos);
    NextLine(content, start, pos);
    ReplaySnoc(step, initial, Split(Segment(content, start, pos)), LineAt(content, pos));
    hide Replay, Split, Segment, LineAt, FirstBreak;
  }

  lemma BatchEvents<N, E>(step: Normaliser<N, E>, initial: N, content: seq<byte>, start: nat, pos: nat, n: N,
                          es: seq<E>)
    requires BatchAt(step, initial, content, start, pos, n, es)
    ensures es == Replay(step, initial, Split(Segment(content, start, pos))).1
  {
  }

  // One turn of the loop of `normalize_rollout_file`.
  method BatchTurn<N, E>(file: RolloutFile, step: Normaliser<N, E>, ghost initial: N, ghost start: nat,
                         end: Option<nat>, pos: nat, n: N, es: seq<E>)
      returns (stop: bool, pos': nat, n': N, es': seq<E>)
    requires BatchAt(step, initial, file.content, start, pos, n, es) && (end.Some? ==> pos < end.value)
    ensures BatchAt(step, initial, file.content, start, pos', n', es')
    ensures CutAt(file.content, pos', end) == CutAt(file.content, pos, end)
    ensures if stop then CutAt(file.content, pos', end) == pos' else pos < pos' <= |file.content|
  {
    hide Replay, Split, Segment, FirstBreak, LineAt, BatchAt;
    var raw := ReadLine(file, pos);
    stop := raw == [] || (end.Some? && pos + |raw| > end.value);
    pos', n', es' := pos, n, es;
    if !stop {
      BatchStep(step, initial, file.content, start, pos, n, es);
      var (next, more) := step(n, raw);
      pos', n', es' := pos + |raw|, next, es + more;
    }
  }

  /** `normalize_rollout_file`: one pass over the lines from start to the cut. */
  method NormalizeRolloutFile<N, E>(file: RolloutFile, step: Normaliser<N, E>, initial: N, start: nat, end: Option<nat>)
      returns (events: seq<E>)
    ensures events == Replay(step, initial, Split(Segment(file.content, start, CutAt(file.content, start, end)))).1
  {
    hide Replay, Split, Segment, BatchAt, WholeLines;
    var pos: nat, n, stop := start, initial, false;
    events := [];
    BatchStarts(step, initial, file.content, start);
    while !stop && (end.None? || pos < end.value)
      invariant BatchAt(step, initial, file.content, start, pos, n, events)
      invariant CutAt(file.content, start, end) == CutAt(file.content, pos, end)
      invariant stop ==> CutAt(file.content, pos, end) == pos
      decreases !stop, |file.content| - pos
    {
      stop, pos, n, events := BatchTurn(file, step, initial, start, end, pos, n, events);
    }
    BatchEvents(step, initial, file.content, start, pos, n, events);
  }

  /** Whatever the schedule of appends and drains, the tailer has dispatched exactly what a batch
      replay of the file up to its cursor yields. */
  method RunSchedule<N, E>(step: Normaliser<N, E>, initial: N, start: nat, content: seq<byte>,
                           schedule: seq<seq<seq<byte>>>)
      returns (file: RolloutFile, tailer: CodexRolloutTailer<N, E>, replayed: seq<E>)
    ensures content <= file.content && tailer.start == start && tailer.Consistent(file.content)
    ensures CutAt(file.content, start, Some(tailer.processed)) == tailer.processed
    ensures replayed == Replay(step, initial, Split(Segment(file.content, start, tailer.processed))).1
    ensures tailer.dispatched == replayed
  {
    file := new RolloutFile(content);
    tailer := new CodexRolloutTailer(step, initial, start);
    for i := 0 to |schedule|
      invariant content <= file.content && tailer.Consistent(file.content)
      invariant tailer.start == start && tailer.step == step && tailer.initial == initial
    {
      var emitted := tailer.DrainAvailable(file, schedule[i]);
    }
    replayed := NormalizeRolloutFile(file, step, initial, start, Some(tailer.processed));
    CutAtBoundary(file.content, start, tailer.processed);
  }
}
