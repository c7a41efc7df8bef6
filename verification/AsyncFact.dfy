/** The fact of `async_fact.py` that any event loop can await: every locked section, unlocked read,
    wake and scheduled callback is one step. */
module AsyncFact {
  import opened Wrappers

  type Loop = nat

  // One call of `wait`; it also stands for the key its event is registered under.
  type Call = nat

  datatype Outcome = Yes | TimedOut | Cancelled

  datatype Phase =
    | Entering                  // past the unlocked check, not yet in the lock
    | Waiting                   // awaiting its event
    | Leaving(result: Outcome)  // about to take itself out of the table
    | Done(result: Outcome)

  datatype Caller = Caller(loop: Loop, phase: Phase)

  // `toWake` holds what setters took out of the table and have not woken yet, `scheduled` the wakes
  // handed to a loop, `events` the asyncio events that are set.
  datatype State = State(isSet: bool, waiters: map<Call, Loop>, callers: map<Call, Caller>,
                         toWake: map<Call, Loop>, scheduled: map<Call, Loop>, events: set<Call>, closed: set<Loop>)

  datatype Event =
    | Start(call: Call, loop: Loop)
    | Register(call: Call)
    | Set
    | Wake(call: Call, running: Option<Loop>)
    | Deliver(call: Call)
    | Resume(call: Call)
    | TimeOut(call: Call)
    | Cancel(call: Call)
    | Leave(call: Call)
    | Clear
    | CloseLoop(loop: Loop)

  // ---------------------------------------------------------------- the locked sections

  function Registered(isSet: bool, waiters: map<Call, Loop>, call: Call, loop: Loop): (map<Call, Loop>, Phase) {
    if isSet then (waiters, Done(Yes)) else (waiters[call := loop], Waiting)
  }

  // ---------------------------------------------------------------- the steps

  predicate InPhase(s: State, call: Call, phase: Phase) {
    call in s.callers && s.callers[call].phase == phase
  }

  function To(s: State, call: Call, phase: Phase): State
    requires call in s.callers
  {
    s.(callers := s.callers[call := s.callers[call].(phase := phase)])
  }

  // A step that is not possible changes nothing.
  function Step(s: State, e: Event): State {
    match e
    case Start(c, loop) =>
      if c in s.callers || loop in s.closed then s
      else s.(callers := s.callers[c := Caller(loop, if s.isSet then Done(Yes) else Entering)])
    case Register(c) =>
      if !InPhase(s, c, Entering) then s
      else
        var (waiters, phase) := Registered(s.isSet, s.waiters, c, s.callers[c].loop);
        To(s.(waiters := waiters), c, phase)
    case Set =>
      if s.isSet then s
      else s.(isSet := true, waiters := map[], toWake := s.toWake + s.waiters)
    case Wake(c, running) => if c in s.toWake then Woken(s, c, running) else s
    case Deliver(c) =>
      if c !in s.scheduled || s.scheduled[c] in s.closed then s
      else s.(scheduled := s.scheduled - {c}, events := s.events + {c})
    case Resume(c) => if InPhase(s, c, Waiting) && c in s.events then To(s, c, Leaving(Yes)) else s
    case TimeOut(c) => if InPhase(s, c, Waiting) then To(s, c, Leaving(TimedOut)) else s
    case Cancel(c) => if InPhase(s, c, Waiting) then To(s, c, Leaving(Cancelled)) else s
    case Leave(c) =>
      if c in s.callers && s.callers[c].phase.Leaving? then
        To(s.(waiters := s.waiters - {c}), c, Done(s.callers[c].phase.result))
      else s
    case Clear => s.(isSet := false)
    case CloseLoop(loop) => s.(closed := s.closed + {loop})
  }

  // `_wake`: a closed loop is passed over, the running loop sets the event itself.
  function Woken(s: State, c: Call, running: Option<Loop>): State
    requires c in s.toWake
  {
    var loop, rest := s.toWake[c], s.toWake - {c};
    if loop in s.closed then s.(toWake := rest)
    else if running == Some(loop) then s.(toWake := rest, events := s.events + {c})
    else s.(toWake := rest, scheduled := s.scheduled[c := loop])
  }

  const FRESH := State(false, map[], map[], map[], map[], {}, {})

  function Run(events: seq<Event>): State {
    if events == [] then FRESH else Step(Run(events[..|events| - 1]), events[|events| - 1])
  }

  // ---------------------------------------------------------------- the invariant

  // A call that waits is in the table, or its wake is on its way, or has come, or its loop is closed.
  ghost predicate Awaited(s: State, c: Call) {
    InPhase(s, c, Waiting) ==>
      || c in s.waiters || c in s.toWake || c in s.scheduled || c in s.events || s.callers[c].loop in s.closed
  }

  // Whatever is kept for a call is on the call's own loop.
  ghost predicate OwnLoop(s: State, loops: map<Call, Loop>, c: Call) {
    c in loops ==> c in s.callers && !s.callers[c].phase.Entering? && loops[c] == s.callers[c].loop
  }

  ghost predicate Good(s: State, c: Call) {
    && Awaited(s, c)
    && OwnLoop(s, s.waiters, c) && OwnLoop(s, s.toWake, c) && OwnLoop(s, s.scheduled, c)
    && (c in s.events ==> c in s.callers)
    && (c in s.waiters ==> !s.callers[c].phase.Done?)
  }

  ghost predicate Inv(s: State) {
    && (s.isSet ==> s.waiters == map[])
    && forall c :: Good(s, c)
  }

  lemma WokenGood(s: State, call: Call, running: Option<Loop>, c: Call)
    requires Inv(s) && call in s.toWake
    ensures Good(Woken(s, call, running), c)
  {
    assert Good(s, c) && Good(s, call);
  }

  lemma StepGood(s: State, e: Event, c: Call)
    requires Inv(s)
    ensures Good(Step(s, e), c)
  {
    assert Good(s, c);
    if e.Wake? && e.call in s.toWake {
      WokenGood(s, e.call, e.running, c);
    }
    hide Woken;
  }

  lemma StepInv(s: State, e: Event)
    requires Inv(s)
    ensures Inv(Step(s, e))
  {
    forall c {
      StepGood(s, e, c);
    }
    hide Good, Woken;
    assert Step(s, e).isSet ==> Step(s, e).waiters == map[];
  }

  /** While the fact is set nobody is in the table, and no wake is lost or sent to another loop. */
  lemma {:induction false} RunInv(events: seq<Event>)
    ensures Inv(Run(events))
  {
    if events != [] {
      RunInv(events[..|events| - 1]);
      StepInv(Run(events[..|events| - 1]), events[|events| - 1]);
    }
  }

  // ---------------------------------------------------------------- no lost wakeup

  // Past the table for good: a call registers at most once.
  ghost predicate Past(s: State, c: Call) {
    c in s.callers && !s.callers[c].phase.Entering? && c !in s.waiters
  }

  lemma StepPast(s: State, e: Event, c: Call)
    requires Past(s, c)
    ensures Past(Step(s, e), c)
  {
  }

  lemma {:induction false} RunPast(before: seq<Event>, more: seq<Event>, c: Call)
    requires Past(Run(before), c)
    ensures Past(Run(before + more), c)
  {
    if more == [] {
      assert before + more == before;
    } else {
      var n := |more| - 1;
      RunPast(before, more[..n], c);
      assert (before + more)[..|before| + n] == before + more[..n] && (before + more)[|before| + n] == more[n];
      StepPast(Run(before + more[..n]), more[n], c);
    }
  }

  /** Whoever waits when the fact is set, whatever happens after: once the setters have issued their
      wakes and the waiter's open loop has run what was handed to it, its event is set. */
  lemma NoLostWakeup(before: seq<Event>, more: seq<Event>, c: Call)
    requires InPhase(Run(before), c, Waiting)
    ensures var s := Run(before + [Set] + more);
            InPhase(s, c, Waiting) && c !in s.toWake && c !in s.scheduled && s.callers[c].loop !in s.closed ==>
              c in s.events
  {
    RunInv(before);
    assert (before + [Set])[..|before|] == before;
    assert Good(Run(before), c);
    RunPast(before + [Set], more, c);
    RunInv(before + [Set] + more);
    assert Good(Run(before + [Set] + more), c);
  }

  // What follows a set for one call, whatever thread it was made on.
  function Awake(s: State, c: Call, running: Option<Loop>): State {
    Step(Step(Step(Step(Step(s, Set), Wake(c, running)), Deliver(c)), Resume(c)), Leave(c))
  }

  /** A set answers everybody who waits on an open loop, in every reachable state: its wake is issued, once, its
      loop runs it, and it comes back true. Nobody else's call is touched. */
  lemma SetAnswers(events: seq<Event>, c: Call, running: Option<Loop>)
    requires var s := Run(events); InPhase(s, c, Waiting) && s.callers[c].loop !in s.closed
    ensures var s := Run(events);
            var s' := Awake(s, c, running);
            && s'.callers == s.callers[c := Caller(s.callers[c].loop, Done(Yes))]
            && c !in s'.waiters && c !in s'.toWake && c !in s'.scheduled
  {
    RunInv(events);
    var s := Run(events);
    assert Good(s, c);
    hide Run, Inv;
    var s1 := Step(s, Set);
    assert s1.callers == s.callers && s1.closed == s.closed;
    assert c in s1.toWake || c in s1.scheduled || c in s1.events;
    assert OwnLoop(s1, s1.toWake, c) && s1.scheduled == s.scheduled;
    WakeArrives(s1, c, running);
  }

  lemma WakeArrives(s: State, c: Call, running: Option<Loop>)
    requires InPhase(s, c, Waiting) && s.callers[c].loop !in s.closed
    requires c in s.toWake || c in s.scheduled || c in s.events
    requires OwnLoop(s, s.toWake, c) && OwnLoop(s, s.scheduled, c) && c !in s.waiters
    ensures var s' := Step(Step(Step(Step(s, Wake(c, running)), Deliver(c)), Resume(c)), Leave(c));
            && s'.callers == s.callers[c := Caller(s.callers[c].loop, Done(Yes))]
            && c !in s'.waiters && c !in s'.toWake && c !in s'.scheduled
  {
    WakeGoesOut(s, c, running);
    var s1 := Step(s, Wake(c, running));
    var s2 := Step(s1, Deliver(c));
    hide Woken, OwnLoop;
    assert c in s2.events && s2.callers == s.callers && s2.waiters == s.waiters;
    assert c !in s2.scheduled && c !in s2.toWake;
  }

  lemma WakeGoesOut(s: State, c: Call, running: Option<Loop>)
    requires InPhase(s, c, Waiting) && s.callers[c].loop !in s.closed
    requires OwnLoop(s, s.toWake, c) && OwnLoop(s, s.scheduled, c)
    ensures var s1 := Step(s, Wake(c, running));
            && s1.callers == s.callers && s1.closed == s.closed && s1.waiters == s.waiters && c !in s1.toWake
            && (c in s.toWake || c in s.scheduled || c in s.events ==> c in s1.scheduled || c in s1.events)
            && (c in s1.scheduled ==> s1.scheduled[c] !in s1.closed)
  {
  }

  /** An event is set by its own loop only, when that runs what was scheduled on it or wakes it itself; and a
      wake is issued once. */
  lemma SetsOnOwnLoop(events: seq<Event>, e: Event, c: Call)
    ensures var s, s' := Run(events), Step(Run(events), e);
            && (c !in s.events && c in s'.events ==>
                  && c in s.callers && (e == Deliver(c) || e == Wake(c, Some(s.callers[c].loop)))
                  && (e == Deliver(c) ==> c in s.scheduled && s.scheduled[c] == s.callers[c].loop))
            && (e.Wake? ==> s'.toWake == s.toWake - {e.call})
  {
    hide Run, OwnLoop, Woken;
    OwnLoops(events, c);
    SetsWhere(Run(events), e, c);
  }

  lemma OwnLoops(events: seq<Event>, c: Call)
    ensures var s := Run(events); OwnLoop(s, s.toWake, c) && OwnLoop(s, s.scheduled, c)
  {
    RunInv(events);
    assert Good(Run(events), c);
    hide Run, OwnLoop;
  }

  lemma SetsWhere(s: State, e: Event, c: Call)
    requires OwnLoop(s, s.toWake, c) && OwnLoop(s, s.scheduled, c)
    ensures var s' := Step(s, e);
            && (c !in s.events && c in s'.events ==>
                  && c in s.callers && (e == Deliver(c) || e == Wake(c, Some(s.callers[c].loop)))
                  && (e == Deliver(c) ==> c in s.scheduled && s.scheduled[c] == s.callers[c].loop))
            && (e.Wake? ==> s'.toWake == s.toWake - {e.call})
  {
  }

  /** A wait that times out or is cancelled says so and is out of the table; nobody else's is touched. */
  lemma GivesUp(s: State, c: Call, e: Event)
    requires InPhase(s, c, Waiting) && (e == TimeOut(c) || e == Cancel(c))
    ensures var result := if e == TimeOut(c) then TimedOut else Cancelled;
            Step(Step(s, e), Leave(c))
            == s.(waiters := s.waiters - {c}, callers := s.callers[c := Caller(s.callers[c].loop, Done(result))])
  {
  }

  // The call is on a closed loop, and its event is not set.
  ghost predicate Asleep(s: State, c: Call) {
    c in s.callers && s.callers[c].loop in s.closed && c !in s.events
  }

  lemma StepAsleep(s: State, e: Event, c: Call)
    requires Inv(s) && Asleep(s, c)
    ensures Asleep(Step(s, e), c)
  {
    assert Good(s, c);
  }

  lemma {:induction false} RunAsleep(before: seq<Event>, more: seq<Event>, c: Call)
    requires Asleep(Run(before), c)
    ensures Asleep(Run(before + more), c)
  {
    if more == [] {
      assert before + more == before;
    } else {
      var n := |more| - 1;
      RunAsleep(before, more[..n], c);
      RunInv(before + more[..n]);
      assert (before + more)[..|before| + n] == before + more[..n] && (before + more)[|before| + n] == more[n];
      StepAsleep(Run(before + more[..n]), more[n], c);
    }
  }

  /** No wake runs on a closed loop: whose event is not set when its loop closes, never has it set. */
  lemma ClosedLoopSleeps(before: seq<Event>, more: seq<Event>, c: Call)
    requires var s := Run(before); c in s.callers && c !in s.events
    ensures c !in Run(before + [CloseLoop(Run(before).callers[c].loop)] + more).events
  {
    var close := CloseLoop(Run(before).callers[c].loop);
    RunSnoc(before, close);
    RunAsleep(before + [close], more, c);
  }

  // ---------------------------------------------------------------- a fact that stays set

  lemma {:induction false} StaysSet(before: seq<Event>, more: seq<Event>)
    requires Run(before).isSet && Clear !in more
    ensures Run(before + more).isSet
  {
    if more == [] {
      assert before + more == before;
    } else {
      var n := |more| - 1;
      StaysSet(before, more[..n]);
      assert (before + more)[..|before| + n] == before + more[..n] && (before + more)[|before| + n] == more[n];
      StepStaysSet(Run(before + more[..n]), more[n]);
    }
  }

  lemma StepStaysSet(s: State, e: Event)
    requires s.isSet && e != Clear
    ensures Step(s, e).isSet
  {
  }

  /** A wait that starts after a set, with no clear between, is answered at once. */
  lemma WaitAfterSet(before: seq<Event>, more: seq<Event>, c: Call, loop: Loop)
    requires Clear !in more
    ensures var s := Run(before + [Set] + more);
            c !in s.callers && loop !in s.closed ==>
              Run(before + [Set] + more + [Start(c, loop)]).callers[c] == Caller(loop, Done(Yes))
  {
    assert (before + [Set])[..|before|] == before;
    StaysSet(before + [Set], more);
    var all := before + [Set] + more;
    assert (all + [Start(c, loop)])[..|all|] == all;
  }

  // ---------------------------------------------------------------- True means set

  // At some moment of the call the fact was set.
  ghost predicate SawSet(events: seq<Event>, c: Call) {
    exists k :: 0 <= k <= |events| && SetAt(events, k, c)
  }

  ghost predicate SetAt(events: seq<Event>, k: int, c: Call)
    requires 0 <= k <= |events|
  {
    c in Run(events[..k]).callers && Run(events[..k]).isSet
  }

  // What only a set can have brought about for the call.
  ghost predicate Answered(s: State, c: Call) {
    || c in s.toWake || c in s.scheduled || c in s.events
    || (c in s.callers && (s.callers[c].phase == Leaving(Yes) || s.callers[c].phase == Done(Yes)))
  }

  lemma StepAnswered(s: State, e: Event, c: Call)
    requires Inv(s) && Answered(Step(s, e), c)
    ensures Answered(s, c) || (Step(s, e).isSet && c in Step(s, e).callers)
  {
    assert Good(s, c);
  }

  lemma {:induction false} AnsweredSawSet(events: seq<Event>, c: Call)
    requires Answered(Run(events), c)
    ensures SawSet(events, c)
  {
    if events != [] {
      var n := |events| - 1;
      var before := events[..n];
      RunInv(before);
      StepAnswered(Run(before), events[n], c);
      if Answered(Run(before), c) {
        AnsweredSawSet(before, c);
        var k :| 0 <= k <= |before| && SetAt(before, k, c);
        assert events[..k] == before[..k];
        assert SetAt(events, k, c);
      } else {
        assert events[..|events|] == events;
        assert SetAt(events, |events|, c);
      }
    }
  }

  /** `wait` returns True only if the fact was set at some moment of the call. */
  lemma TrueMeansSet(events: seq<Event>, c: Call)
    requires InPhase(Run(events), c, Done(Yes))
    ensures SawSet(events, c)
  {
    AnsweredSawSet(events, c);
  }

  /** It may come back true when the fact is no longer set: a clear does not stop a wake under way. */
  lemma TrueAfterClear(c: Call, loop: Loop)
    ensures var events := [Start(c, loop), Register(c), Set, Clear, Wake(c, Some(loop)), Resume(c), Leave(c)];
            InPhase(Run(events), c, Done(Yes)) && !Run(events).isSet
  {
    var e1, e2, e3, e4 := Start(c, loop), Register(c), Set, Clear;
    hide Run;
    Waits(c, loop);
    RunSnoc([e1, e2], e3);
    RunSnoc([e1, e2, e3], e4);
    assert [e1, e2] + [e3] == [e1, e2, e3] && [e1, e2, e3] + [e4] == [e1, e2, e3, e4];
    assert Run([e1, e2, e3, e4]) == FRESH.(callers := map[c := Caller(loop, Waiting)], toWake := map[c := loop]);
    AnsweredAfterClear([e1, e2, e3, e4], c, loop);
    assert [e1, e2, e3, e4] + [Wake(c, Some(loop)), Resume(c), Leave(c)]
           == [e1, e2, e3, e4, Wake(c, Some(loop)), Resume(c), Leave(c)];
  }

  lemma Waits(c: Call, loop: Loop)
    ensures Run([Start(c, loop), Register(c)])
            == FRESH.(callers := map[c := Caller(loop, Waiting)], waiters := map[c := loop])
  {
    assert Run([]) == FRESH;
    RunSnoc([], Start(c, loop));
    RunSnoc([Start(c, loop)], Register(c));
    assert [] + [Start(c, loop)] == [Start(c, loop)];
    assert [Start(c, loop)] + [Register(c)] == [Start(c, loop), Register(c)];
    hide Run;
  }

  lemma AnsweredAfterClear(before: seq<Event>, c: Call, loop: Loop)
    requires Run(before) == FRESH.(callers := map[c := Caller(loop, Waiting)], toWake := map[c := loop])
    ensures var events := before + [Wake(c, Some(loop)), Resume(c), Leave(c)];
            InPhase(Run(events), c, Done(Yes)) && !Run(events).isSet
  {
    var e1, e2, e3 := Wake(c, Some(loop)), Resume(c), Leave(c);
    RunSnoc(before, e1);
    assert Run(before + [e1]) == FRESH.(callers := map[c := Caller(loop, Waiting)], events := {c});
    RunSnoc(before + [e1], e2);
    RunSnoc(before + [e1] + [e2], e3);
    assert before + [e1] + [e2] + [e3] == before + [e1, e2, e3];
  }

  lemma RunSnoc(events: seq<Event>, e: Event)
    ensures Run(events + [e]) == Step(Run(events), e)
  {
    assert (events + [e])[..|events|] == events;
  }

  // ---------------------------------------------------------------- the object

  class Fact {
    var isSet: bool
    var waiters: map<Call, Loop>

    constructor ()
      ensures !isSet && waiters == map[]
    {
      isSet, waiters := false, map[];
    }

    // `set`, up to the end of its lock: what it has then to wake.
    method Set() returns (toWake: map<Call, Loop>)
      modifies this
      ensures isSet
      ensures toWake == if old(isSet) then map[] else old(waiters)
      ensures waiters == if old(isSet) then old(waiters) else map[]
    {
      toWake := map[];
      if !isSet {
        isSet := true;
        toWake := waiters;
        waiters := map[];
      }
    }

    method Clear()
      modifies this
      ensures !isSet && waiters == old(waiters)
    {
      isSet := false;
    }

    method Register(call: Call, loop: Loop) returns (phase: Phase)
      modifies this
      ensures (waiters, phase) == Registered(isSet, old(waiters), call, loop) && isSet == old(isSet)
    {
      phase := Done(Yes);
      if !isSet {
        waiters := waiters[call := loop];
        phase := Waiting;
      }
    }

    method Leave(call: Call)
      modifies this
      ensures waiters == old(waiters) - {call} && isSet == old(isSet)
    {
      waiters := waiters - {call};
    }
  }
}
