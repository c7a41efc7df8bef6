/** The counting semaphore of `bounded_async_executor.py`: a FIFO queue of waiters, deferred
    grants, timeouts, cancellation, shutdown and event loops that may close.

    The class `BoundedAsyncExecutor` holds the fields that the lock protects; each of its methods
    is one locked section (or one loop over them) and is proved against a function on `Core`.
    `Step` interleaves those functions with everything that happens outside the lock. */
module PermitExecutor {
  import opened Sequences
  import opened Wrappers

  // The n-th call of `_acquire` has ticket n, so tickets record the order of arrival.
  type Ticket = nat

  type LoopId = nat

  // ---------------------------------------------------------------- the locked fields

  datatype Core = Core(inUse: int, closed: bool, waiters: seq<Ticket>)

  datatype Admission = Refused | Admitted | Queued

  function AcquireCore(c: Core, capacity: nat, t: Ticket): (Core, Admission) {
    if c.closed then (c, Refused)
    else if c.inUse < capacity then (c.(inUse := c.inUse + 1), Admitted)
    else (c.(waiters := c.waiters + [t]), Queued)
  }

  function RemoveFirst(q: seq<Ticket>, t: Ticket): seq<Ticket> {
    if q == [] then []
    else if q[0] == t then q[1..]
    else [q[0]] + RemoveFirst(q[1..], t)
  }

  // A waiter that gives up reads "absent from the queue" as "granted".
  function WithdrawCore(c: Core, t: Ticket): (Core, bool) {
    if t in c.waiters then (c.(waiters := RemoveFirst(c.waiters, t)), false) else (c, true)
  }

  // Index of the first waiter that is not dead, or the length of the queue.
  function LiveIndex(q: seq<Ticket>, dead: set<Ticket>): (i: nat)
    ensures i <= |q|
    ensures forall k :: 0 <= k < i ==> q[k] in dead
    ensures i < |q| ==> q[i] !in dead
  {
    if q == [] then 0
    else if q[0] in dead then 1 + LiveIndex(q[1..], dead)
    else 0
  }

  function PopCore(c: Core, dead: set<Ticket>): (Core, Option<Ticket>) {
    var i := LiveIndex(c.waiters, dead);
    if i < |c.waiters| then (c.(waiters := c.waiters[i + 1..]), Some(c.waiters[i]))
    else (c.(waiters := [], inUse := c.inUse - 1), None)
  }

  function ShutdownCore(c: Core): Core {
    if c.closed then c else c.(closed := true, waiters := [])
  }

  class BoundedAsyncExecutor {
    const capacity: nat
    var inUse: int
    var closed: bool
    var waiters: seq<Ticket>

    constructor (capacity: nat)
      ensures this.capacity == capacity && View() == Core(0, false, [])
    {
      this.capacity := capacity;
      inUse, closed, waiters := 0, false, [];
    }

    function View(): Core
      reads this
    {
      Core(inUse, closed, waiters)
    }

    /** The locked section of `_acquire`. */
    method AcquireSection(t: Ticket) returns (a: Admission)
      modifies this
      ensures (View(), a) == AcquireCore(old(View()), capacity, t)
    {
      if closed {
        return Refused;
      }
      if inUse < capacity {
        inUse := inUse + 1;
        return Admitted;
      }
      waiters := waiters + [t];
      return Queued;
    }

    /** The locked section of both exception handlers of `_acquire`. */
    method WithdrawSection(t: Ticket) returns (granted: bool)
      modifies this
      ensures (View(), granted) == WithdrawCore(old(View()), t)
    {
      var i := 0;
      while i < |waiters| && waiters[i] != t
        invariant i <= |waiters| && unchanged(this)
        invariant forall k :: 0 <= k < i ==> waiters[k] != t
      {
        i := i + 1;
      }
      granted := i == |waiters|;
      if !granted {
        RemoveFirstAt(waiters, i, t);
        waiters := waiters[..i] + waiters[i + 1..];
      }
    }

    /** The locked section of `_release`: its inner loop drops dead waiters from the front. */
    method PopSection(dead: set<Ticket>) returns (w: Option<Ticket>)
      modifies this
      ensures (View(), w) == PopCore(old(View()), dead)
    {
      ghost var k := 0;
      while waiters != []
        invariant k <= |old(waiters)| && waiters == old(waiters)[k..]
        invariant inUse == old(inUse) && closed == old(closed)
        invariant LiveIndex(old(waiters), dead) == k + LiveIndex(waiters, dead)
        decreases |waiters|
      {
        var t := waiters[0];
        waiters := waiters[1..];
        if t in dead {
          k := k + 1;
          continue;
        }
        return Some(t);
      }
      inUse := inUse - 1;
      return None;
    }

    /** The outer loop of `_release`, run without interference: scheduling on a loop that has
        stopped raises, and the permit goes to the next waiter. It ends, because each turn takes
        a waiter out of the queue. */
    method Release(dead: set<Ticket>, stopped: set<Ticket>) returns (w: Option<Ticket>)
      modifies this
      ensures (View(), w) == PopCore(old(View()), dead + stopped)
    {
      while true
        invariant PopCore(View(), dead + stopped) == PopCore(old(View()), dead + stopped)
        decreases |waiters|
      {
        ReleaseTurn(View(), dead, stopped);
        w := PopSection(dead);
        if w.None? || w.value !in stopped {
          return;
        }
      }
    }

    /** The locked section of `shutdown`. */
    method ShutdownSection() returns (drained: seq<Ticket>)
      modifies this
      ensures View() == ShutdownCore(old(View()))
      ensures drained == if old(closed) then [] else old(waiters)
    {
      if closed {
        return [];
      }
      closed := true;
      drained := waiters;
      waiters := [];
    }
  }

  lemma {:induction false} RemoveFirstAt(q: seq<Ticket>, i: nat, t: Ticket)
    requires i < |q| && q[i] == t && forall k :: 0 <= k < i ==> q[k] != t
    ensures RemoveFirst(q, t) == q[..i] + q[i + 1..]
  {
    if 0 < i {
      var r := q[1..];
      assert forall k :: 0 <= k < i - 1 ==> r[k] == q[k + 1];
      RemoveFirstAt(r, i - 1, t);
      assert r[..i - 1] == q[1..i] && r[i..] == q[i + 1..];
      assert [q[0]] + q[1..i] == q[..i];
      Associate([q[0]], r[..i - 1], r[i..]);
    }
  }

  // One turn of the loop in `Release`: a live waiter that has not stopped, or nobody, ends it; past
  // one that has stopped, the rest of the queue decides.
  lemma ReleaseTurn(c: Core, dead: set<Ticket>, stopped: set<Ticket>)
    ensures var (c', w) := PopCore(c, dead);
            if w.None? || w.value !in stopped then PopCore(c, dead + stopped) == (c', w)
            else |c'.waiters| < |c.waiters| && PopCore(c, dead + stopped) == PopCore(c', dead + stopped)
  {
    var q, i := c.waiters, LiveIndex(c.waiters, dead);
    LiveIndexSkips(q, dead, stopped);
    hide LiveIndex;
    if i < |q| && q[i] in stopped {
      var j := LiveIndex(q[i + 1..], dead + stopped);
      assert i + 1 + j < |q| ==> q[i + 1..][j + 1..] == q[i + 1 + j + 1..];
    }
  }

  /** Looking for a live waiter past a larger set of dead ones starts where the smaller set stops. */
  lemma {:induction false} LiveIndexSkips(q: seq<Ticket>, dead: set<Ticket>, stopped: set<Ticket>)
    ensures var i := LiveIndex(q, dead);
            i < |q| && q[i] in stopped ==>
              LiveIndex(q, dead + stopped) == i + 1 + LiveIndex(q[i + 1..], dead + stopped)
    ensures var i := LiveIndex(q, dead);
            i == |q| || q[i] !in stopped ==> LiveIndex(q, dead + stopped) == i
  {
    if q != [] && q[0] in dead {
      LiveIndexSkips(q[1..], dead, stopped);
      var i := LiveIndex(q[1..], dead);
      assert LiveIndex(q, dead) == i + 1;
      assert LiveIndex(q, dead + stopped) == 1 + LiveIndex(q[1..], dead + stopped);
      hide LiveIndex;
      assert i < |q[1..]| ==> q[1..][i] == q[i + 1] && q[1..][i + 1..] == q[i + 2..];
    } else if q != [] {
      assert LiveIndex(q, dead) == 0 && q[0..] == q;
      assert q[0] in stopped ==> LiveIndex(q, dead + stopped) == 1 + LiveIndex(q[1..], dead + stopped);
      hide LiveIndex;
    }
  }

  // ---------------------------------------------------------------- the protocol

  datatype Future = Pending | Granted | Failed

  // Leaving: `wait_for` raised, but the handler has not taken the lock yet.
  // Holding: the caller owns a permit until its job's done-callback (or a failed submit).
  datatype Stage = Waiting | Leaving | Holding | Gone

  datatype Call = Call(loop: LoopId, stage: Stage, fut: Future)

  datatype State = State(
    capacity: nat,
    core: Core,
    calls: seq<Call>,         // indexed by ticket
    releasing: nat,           // activations of `_release` about to take the lock
    handing: set<Ticket>,     // popped by an activation that has not scheduled the grant yet
    grants: set<Ticket>,      // grant callbacks waiting in an event loop
    closedLoops: set<LoopId>,
    // History only; no step reads it.
    dropped: set<Ticket>,     // left the queue, or the hand-over, without a permit for them
    handed: seq<Ticket>,      // popped for a grant, in order
    lateLeaves: nat,          // drained waiters that timed out and released a permit never given
    staleRetries: nat)        // hand-overs retried although their waiter had already released

  datatype Event =
    | Acquire(loop: LoopId)
    | Expire(t: Ticket)       // timeout or cancellation of the wait
    | Leave(t: Ticket)        // the exception handler's locked section
    | Resume(t: Ticket)       // the waiting coroutine wakes with its future's outcome
    | Finish(t: Ticket)       // job done, or `run_in_executor` raised
    | ReleaseLocked
    | Schedule(t: Ticket)     // `call_soon_threadsafe(grant)`
    | GrantRuns(t: Ticket)
    | CloseLoop(loop: LoopId)
    | Shutdown
    | FailLands(t: Ticket)    // `set_exception` of a drained waiter

  function Init(capacity: nat): State {
    State(capacity, Core(0, false, []), [], 0, {}, {}, {}, {}, [], 0, 0)
  }

  predicate Live(s: State, t: Ticket) {
    t < |s.calls| && s.calls[t].loop !in s.closedLoops
  }

  predicate Enabled(s: State, e: Event) {
    match e
    case Acquire(l) => l !in s.closedLoops
    case Expire(t) => Live(s, t) && s.calls[t].stage == Waiting
    case Leave(t) => Live(s, t) && s.calls[t].stage == Leaving
    case Resume(t) => Live(s, t) && s.calls[t].stage == Waiting && s.calls[t].fut != Pending
    case Finish(t) => Live(s, t) && s.calls[t].stage == Holding
    case ReleaseLocked => s.releasing > 0
    case Schedule(t) => t in s.handing && t < |s.calls|
    case GrantRuns(t) => t in s.grants && Live(s, t)
    case CloseLoop(l) => true
    case Shutdown => true
    case FailLands(t) => t in s.dropped && Live(s, t) && s.calls[t].fut == Pending
  }

  function WithStage(s: State, t: Ticket, stage: Stage): State
    requires t < |s.calls|
  {
    s.(calls := s.calls[t := s.calls[t].(stage := stage)])
  }

  function WithFuture(s: State, t: Ticket, fut: Future): State
    requires t < |s.calls|
  {
    s.(calls := s.calls[t := s.calls[t].(fut := fut)])
  }

  function Dead(s: State): set<Ticket> {
    set t | t in s.core.waiters && t < |s.calls| && (s.calls[t].fut != Pending || s.calls[t].loop in s.closedLoops)
  }

  function Elements(q: seq<Ticket>): set<Ticket> {
    set t | t in q
  }

  // The two branches of the code that release a permit nobody owns.
  predicate LateLeave(s: State, e: Event) {
    Enabled(s, e) && e.Leave? && e.t in s.dropped && e.t !in s.core.waiters
  }

  predicate StaleRetry(s: State, e: Event) {
    Enabled(s, e) && e.Schedule? && s.calls[e.t].loop in s.closedLoops && s.calls[e.t].stage == Gone
  }

  function AfterPop(s: State, core: Core, w: Option<Ticket>, skipped: set<Ticket>): State
    requires s.releasing > 0
  {
    var s' := s.(core := core, releasing := s.releasing - 1, dropped := s.dropped + skipped);
    match w
    case Some(t) => s'.(handing := s.handing + {t}, handed := s.handed + [t])
    case None => s'
  }

  function Next(s: State, e: Event): State
    requires Enabled(s, e)
  {
    match e
    case Acquire(l) =>
      var t := |s.calls|;
      var (core, a) := AcquireCore(s.core, s.capacity, t);
      var stage := match a case Refused => Gone case Admitted => Holding case Queued => Waiting;
      s.(core := core, calls := s.calls + [Call(l, stage, Pending)])
    case Expire(t) => WithStage(s, t, Leaving)
    case Leave(t) =>
      var (core, granted) := WithdrawCore(s.core, t);
      var s' := WithStage(s, t, Gone).(core := core);
      if granted
      then s'.(releasing := s.releasing + 1,
               lateLeaves := s.lateLeaves + if LateLeave(s, e) then 1 else 0)
      else s'
    case Resume(t) => WithStage(s, t, if s.calls[t].fut == Granted then Holding else Gone)
    case Finish(t) => WithStage(s, t, Gone).(releasing := s.releasing + 1)
    case ReleaseLocked =>
      var (core, w) := PopCore(s.core, Dead(s));
      AfterPop(s, core, w, Elements(s.core.waiters[..LiveIndex(s.core.waiters, Dead(s))]))
    case Schedule(t) =>
      var s' := s.(handing := s.handing - {t});
      if s.calls[t].loop in s.closedLoops
      then s'.(releasing := s.releasing + 1, dropped := s.dropped + {t},
               staleRetries := s.staleRetries + if StaleRetry(s, e) then 1 else 0)
      else s'.(grants := s.grants + {t})
    case GrantRuns(t) =>
      var s' := s.(grants := s.grants - {t});
      if s.calls[t].fut != Pending then s'.(releasing := s.releasing + 1) else WithFuture(s', t, Granted)
    case CloseLoop(l) => s.(closedLoops := s.closedLoops + {l})
    case Shutdown =>
      s.(core := ShutdownCore(s.core),
         dropped := s.dropped + if s.core.closed then {} else Elements(s.core.waiters))
    case FailLands(t) => WithFuture(s, t, Failed)
  }

  // A disabled event changes nothing, so every sequence of events is a run.
  function Step(s: State, e: Event): State {
    if Enabled(s, e) then Next(s, e) else s
  }

  function Run(s: State, es: seq<Event>): State {
    if es == [] then s else Step(Run(s, es[..|es| - 1]), es[|es| - 1])
  }

  // ---------------------------------------------------------------- accounting

  // Callers that own a permit.
  function Holders(s: State): set<Ticket> {
    set t | 0 <= t < |s.calls| && s.calls[t].stage == Holding
  }

  // Callers a permit was taken out of the queue for, and that have neither used nor returned it.
  function InFlight(s: State): set<Ticket> {
    set t | 0 <= t < |s.calls| && s.calls[t].stage in {Waiting, Leaving}
            && t !in s.core.waiters && t !in s.dropped
  }

  function Permits(s: State): nat {
    |Holders(s)| + |InFlight(s)| + s.releasing
  }

  predicate Increasing(q: seq<Ticket>) {
    forall i, j :: 0 <= i < j < |q| ==> q[i] < q[j]
  }

  function Last(q: seq<Ticket>): Ticket
    requires q != []
  {
    q[|q| - 1]
  }

  ghost predicate QueueOk(s: State) {
    && Increasing(s.core.waiters)
    && (forall t :: t in s.core.waiters ==>
          && t < |s.calls| && s.calls[t].stage in {Waiting, Leaving} && s.calls[t].fut == Pending
          && t !in s.dropped && t !in s.handing && t !in s.grants)
    && Increasing(s.handed)
    && (s.handed != [] ==> Last(s.handed) < |s.calls|)
    && (s.handed != [] && s.core.waiters != [] ==> Last(s.handed) < s.core.waiters[0])
  }

  ghost predicate HandOverOk(s: State) {
    && (forall t :: t in s.handing || t in s.grants ==>
          && t < |s.calls| && s.calls[t].fut == Pending && t !in s.dropped
          && s.calls[t].stage in {Waiting, Leaving, Gone})
    && s.handing !! s.grants
    && (forall t :: t in s.dropped ==>
          t < |s.calls| && s.calls[t].stage in {Waiting, Leaving, Gone} && s.calls[t].fut != Granted)
    && (forall t :: 0 <= t < |s.calls| && s.calls[t].fut == Failed ==> t in s.dropped)
    && (!s.core.closed ==> forall t :: t in s.dropped ==> s.calls[t].loop in s.closedLoops)
  }

  ghost predicate CountOk(s: State) {
    && s.core.inUse == Permits(s) - s.lateLeaves - s.staleRetries
    && s.core.inUse <= s.capacity
    && (s.core.waiters != [] ==> !s.core.closed && s.core.inUse == s.capacity)
    && (!s.core.closed ==> s.lateLeaves == 0)
    && |Holders(s)| + |InFlight(s)| <= s.capacity + s.staleRetries
  }

  ghost predicate Inv(s: State) {
    QueueOk(s) && HandOverOk(s) && CountOk(s)
  }

  // ---------------------------------------------------------------- every step keeps the invariant

  lemma {:induction false} RemoveFirstKeepsOrder(q: seq<Ticket>, t: Ticket)
    requires Increasing(q) && t in q
    ensures Increasing(RemoveFirst(q, t))
    ensures forall x :: x in RemoveFirst(q, t) <==> x in q && x != t
  {
    if q[0] == t {
      assert forall x :: x in q <==> x == t || x in q[1..];
    } else {
      assert forall x :: x in q <==> x == q[0] || x in q[1..];
      RemoveFirstKeepsOrder(q[1..], t);
      var r := RemoveFirst(q[1..], t);
      forall j | 0 <= j < |r| ensures q[0] < r[j] {
        assert r[j] in r;
      }
    }
  }

  lemma AcquireQueue(s: State, l: LoopId)
    requires QueueOk(s) && HandOverOk(s) && Enabled(s, Acquire(l))
    ensures QueueOk(Next(s, Acquire(l)))
  {
    hide Last;
    assert forall i :: 0 <= i < |s.core.waiters| ==> s.core.waiters[i] in s.core.waiters;
  }

  lemma AcquireHandOver(s: State, l: LoopId)
    requires HandOverOk(s) && Enabled(s, Acquire(l))
    ensures HandOverOk(Next(s, Acquire(l)))
  {
  }

  lemma AcquireSets(s: State, l: LoopId)
    requires Inv(s) && Enabled(s, Acquire(l))
    ensures var s', t := Next(s, Acquire(l)), |s.calls|;
            && t !in Holders(s) && InFlight(s') == InFlight(s)
            && Holders(s') == if !s.core.closed && s.core.inUse < s.capacity then Holders(s) + {t} else Holders(s)
  {
    var s', t := Next(s, Acquire(l)), |s.calls|;
    assert t !in s.core.waiters && t !in s.dropped;
    OneMoreCall(s, s', s'.calls[t]);
  }

  lemma OneMoreCall(s: State, s': State, c: Call)
    requires s'.calls == s.calls + [c] && s'.dropped == s.dropped
    requires |s.calls| !in s.dropped && |s.calls| !in s.core.waiters
    requires s'.core.waiters == s.core.waiters + if c.stage == Waiting then [|s.calls|] else []
    requires c.stage in {Waiting, Holding, Gone}
    ensures |s.calls| !in Holders(s) && InFlight(s') == InFlight(s)
    ensures Holders(s') == if c.stage == Holding then Holders(s) + {|s.calls|} else Holders(s)
  {
  }

  lemma OnAcquire(s: State, l: LoopId)
    requires Inv(s) && Enabled(s, Acquire(l))
    ensures Inv(Next(s, Acquire(l)))
  {
    AcquireSets(s, l);
    hide QueueOk, HandOverOk, Holders, InFlight;
    AcquireQueue(s, l);
    AcquireHandOver(s, l);
  }

  // A waiter that is still queued takes itself out.
  lemma LeaveQueued(s: State, t: Ticket)
    requires Inv(s) && Enabled(s, Leave(t)) && t in s.core.waiters
    ensures Inv(Next(s, Leave(t)))
  {
    var s' := Next(s, Leave(t));
    RemoveFirstKeepsOrder(s.core.waiters, t);
    assert QueueOk(s') && HandOverOk(s') by {
      hide CountOk, Holders, InFlight, RemoveFirst;
      LeftFirst(s.core.waiters, s'.core.waiters);
    }
    hide QueueOk, HandOverOk, RemoveFirst;
    assert Holders(s') == Holders(s) && InFlight(s') == InFlight(s);
    hide Holders, InFlight;
  }

  lemma LeftFirst(q: seq<Ticket>, r: seq<Ticket>)
    requires Increasing(q) && forall x :: x in r ==> x in q
    ensures q != [] && r != [] ==> q[0] <= r[0]
  {
    if q != [] && r != [] {
      assert r[0] in q;
    }
  }

  // What the invariant reads outside the calls and the counts is as before.
  ghost predicate SameQueues(s: State, s': State) {
    && s'.core.waiters == s.core.waiters && s'.core.closed == s.core.closed && s'.handed == s.handed
    && s'.handing == s.handing && s'.grants == s.grants && s'.dropped == s.dropped && s'.closedLoops == s.closedLoops
  }

  lemma StageKeepsQueues(s: State, s': State, t: Ticket, stage: Stage)
    requires QueueOk(s) && HandOverOk(s) && SameQueues(s, s') && t < |s.calls|
    requires s'.calls == s.calls[t := s.calls[t].(stage := stage)]
    requires t in s.core.waiters ==> stage in {Waiting, Leaving}
    requires t in s.handing || t in s.grants || t in s.dropped ==> stage in {Waiting, Leaving, Gone}
    ensures QueueOk(s') && HandOverOk(s')
  {
  }

  lemma StageSets(s: State, s': State, t: Ticket, stage: Stage)
    requires SameQueues(s, s') && t < |s.calls| && s'.calls == s.calls[t := s.calls[t].(stage := stage)]
    ensures Holders(s') == if stage == Holding then Holders(s) + {t} else Holders(s) - {t}
    ensures InFlight(s') == if stage in {Waiting, Leaving} && t !in s.core.waiters && t !in s.dropped
                            then InFlight(s) + {t} else InFlight(s) - {t}
  {
  }

  // The permits change hands, or their number is what it was.
  lemma CountMoves(s: State, s': State)
    requires CountOk(s) && s'.core == s.core.(waiters := s'.core.waiters) && s'.capacity == s.capacity
    requires s.core.waiters == [] ==> s'.core.waiters == []
    requires s'.lateLeaves == s.lateLeaves && s'.staleRetries == s.staleRetries
    requires Permits(s') == Permits(s) && (s'.releasing >= s.releasing || !s.core.closed)
    ensures CountOk(s')
  {
    hide Holders, InFlight;
  }

  // How one caller counts, and what its future says of the queues.
  lemma Standing(s: State, t: Ticket)
    requires QueueOk(s) && HandOverOk(s) && t < |s.calls|
    ensures t in Holders(s) <==> s.calls[t].stage == Holding
    ensures t in InFlight(s) <==> s.calls[t].stage in {Waiting, Leaving} && t !in s.core.waiters && t !in s.dropped
    ensures t in s.core.waiters ==> s.calls[t].fut == Pending && s.calls[t].stage in {Waiting, Leaving}
    ensures t in s.handing || t in s.grants ==> s.calls[t].fut == Pending && s.calls[t].stage != Holding
    ensures t in s.dropped ==> s.calls[t].fut != Granted && s.calls[t].stage != Holding
    ensures s.calls[t].fut == Failed ==> t in s.dropped
    ensures t in s.dropped && !s.core.closed ==> s.calls[t].loop in s.closedLoops
  {
  }

  // One that is not was given a permit, unless it was dropped.
  lemma LeaveGranted(s: State, t: Ticket)
    requires Inv(s) && Enabled(s, Leave(t)) && t !in s.core.waiters
    ensures Inv(Next(s, Leave(t)))
  {
    hide QueueOk, HandOverOk, Holders, InFlight;
    Standing(s, t);
    StageKeepsQueues(s, Next(s, Leave(t)), t, Gone);
    StageSets(s, Next(s, Leave(t)), t, Gone);
  }

  lemma OnLeave(s: State, t: Ticket)
    requires Inv(s) && Enabled(s, Leave(t))
    ensures Inv(Next(s, Leave(t)))
  {
    if t in s.core.waiters {
      LeaveQueued(s, t);
    } else {
      LeaveGranted(s, t);
    }
  }

  lemma OnResume(s: State, t: Ticket)
    requires Inv(s) && Enabled(s, Resume(t))
    ensures Inv(Next(s, Resume(t)))
  {
    hide QueueOk, HandOverOk, Holders, InFlight, CountOk;
    var stage := if s.calls[t].fut == Granted then Holding else Gone;
    var s' := WithStage(s, t, stage);
    assert Next(s, Resume(t)) == s';
    hide Next;
    Standing(s, t);
    StageKeepsQueues(s, s', t, stage);
    StageSets(s, s', t, stage);
    CountMoves(s, s');
  }

  lemma PopKeepsOrder(q: seq<Ticket>, i: nat, h: seq<Ticket>)
    requires i < |q| && Increasing(q) && Increasing(h)
    requires h != [] ==> Last(h) < q[0]
    ensures Increasing(q[i + 1..]) && Increasing(h + [q[i]])
    ensures forall x :: x in q[i + 1..] ==> x in q && q[i] < x && x !in q[..i]
    ensures q[i] !in q[..i] && q[i] !in q[i + 1..]
  {
  }

  // `_release` hands its permit to the waiter at index i, after dropping dead ones.
  lemma PopQueue(s: State, i: nat, s': State)
    requires Inv(s) && s.releasing > 0 && i < |s.core.waiters|
    requires s' == AfterPop(s, s.core.(waiters := s.core.waiters[i + 1..]), Some(s.core.waiters[i]),
                            Elements(s.core.waiters[..i]))
    ensures QueueOk(s')
  {
    var q := s.core.waiters;
    PopKeepsOrder(q, i, s.handed);
    assert q[i] in q;
    assert s'.core.waiters == q[i + 1..] && s'.calls == s.calls && s'.grants == s.grants;
    forall t | t in s'.core.waiters
      ensures t in q && t !in s'.dropped && t !in s'.handing
    {
      assert t in q[i + 1..];
    }
    hide CountOk, Holders, InFlight, HandOverOk;
  }

  lemma PopHandOver(s: State, i: nat, s': State)
    requires Inv(s) && s.releasing > 0 && i < |s.core.waiters|
    requires Elements(s.core.waiters[..i]) <= Dead(s)
    requires s' == AfterPop(s, s.core.(waiters := s.core.waiters[i + 1..]), Some(s.core.waiters[i]),
                            Elements(s.core.waiters[..i]))
    ensures HandOverOk(s')
  {
    var q := s.core.waiters;
    PopKeepsOrder(q, i, s.handed);
    assert q[i] in q && q[i] !in q[..i];
    forall x | x in Elements(q[..i]) ensures x in q && x in Dead(s) {
    }
  }

  lemma PopCount(s: State, i: nat, s': State)
    requires Inv(s) && s.releasing > 0 && i < |s.core.waiters|
    requires s' == AfterPop(s, s.core.(waiters := s.core.waiters[i + 1..]), Some(s.core.waiters[i]),
                            Elements(s.core.waiters[..i]))
    ensures CountOk(s')
  {
    hide Increasing, Last, Holders, InFlight;
    var q := s.core.waiters;
    PopKeepsOrder(q, i, s.handed);
    assert q[i] in q && !s.core.closed;
    hide QueueOk, HandOverOk, CountOk;
    PopSets(s, i, s');
    CountMoves(s, s');
  }

  lemma PopSets(s: State, i: nat, s': State)
    requires s.releasing > 0 && i < |s.core.waiters| && s.core.waiters[i] !in s.dropped
    requires var t := s.core.waiters[i];
             t < |s.calls| && s.calls[t].stage in {Waiting, Leaving}
             && t !in s.core.waiters[..i] && t !in s.core.waiters[i + 1..]
    requires s' == AfterPop(s, s.core.(waiters := s.core.waiters[i + 1..]), Some(s.core.waiters[i]),
                            Elements(s.core.waiters[..i]))
    ensures s.core.waiters[i] !in InFlight(s)
    ensures Holders(s') == Holders(s) && InFlight(s') == InFlight(s) + {s.core.waiters[i]}
  {
    var q := s.core.waiters;
    assert q == q[..i] + [q[i]] + q[i + 1..];
  }

  // Every waiter was dead (or there was none): the permit goes back.
  lemma DrainInv(s: State, s': State)
    requires Inv(s) && s.releasing > 0 && Elements(s.core.waiters) <= Dead(s)
    requires s' == AfterPop(s, s.core.(waiters := [], inUse := s.core.inUse - 1), None,
                            Elements(s.core.waiters))
    ensures Inv(s')
  {
    assert Holders(s') == Holders(s) && InFlight(s') == InFlight(s);
    forall x | x in Elements(s.core.waiters) ensures x in s.core.waiters && x in Dead(s) {
    }
  }

  lemma OnReleaseLocked(s: State)
    requires Inv(s) && Enabled(s, ReleaseLocked)
    ensures Inv(Next(s, ReleaseLocked))
  {
    hide Inv, QueueOk, HandOverOk, CountOk;
    var s' := Next(s, ReleaseLocked);
    var q := s.core.waiters;
    var i := LiveIndex(q, Dead(s));
    hide LiveIndex, Dead;
    if i < |q| {
      PopQueue(s, i, s');
      PopHandOver(s, i, s');
      PopCount(s, i, s');
      PopInv(s');
    } else {
      assert q[..i] == q;
      DrainInv(s, s');
    }
  }

  lemma PopInv(s: State)
    requires QueueOk(s) && HandOverOk(s) && CountOk(s)
    ensures Inv(s)
  {
  }

  lemma ScheduleQueues(s: State, t: Ticket)
    requires QueueOk(s) && HandOverOk(s) && Enabled(s, Schedule(t))
    ensures QueueOk(Next(s, Schedule(t)))
  {
    assert t !in s.core.waiters;
    hide HandOverOk;
  }

  lemma ScheduleHandOver(s: State, t: Ticket)
    requires HandOverOk(s) && Enabled(s, Schedule(t))
    ensures HandOverOk(Next(s, Schedule(t)))
  {
  }

  lemma ScheduleSets(s: State, t: Ticket)
    requires QueueOk(s) && HandOverOk(s) && Enabled(s, Schedule(t))
    ensures Holders(Next(s, Schedule(t))) == Holders(s)
    ensures t in InFlight(s) <==> s.calls[t].stage != Gone
    ensures InFlight(Next(s, Schedule(t)))
            == if s.calls[t].loop in s.closedLoops then InFlight(s) - {t} else InFlight(s)
  {
    var s' := Next(s, Schedule(t));
    assert t !in s.core.waiters && t !in s.dropped;
    assert s'.calls == s.calls && s'.core == s.core;
    assert s'.dropped == if s.calls[t].loop in s.closedLoops then s.dropped + {t} else s.dropped;
    hide QueueOk, Next;
  }

  lemma OnSchedule(s: State, t: Ticket)
    requires Inv(s) && Enabled(s, Schedule(t))
    ensures Inv(Next(s, Schedule(t)))
  {
    hide QueueOk, HandOverOk, Holders, InFlight;
    ScheduleQueues(s, t);
    ScheduleHandOver(s, t);
    ScheduleSets(s, t);
  }

  lemma OnExpire(s: State, t: Ticket)
    requires Inv(s) && Enabled(s, Expire(t))
    ensures Inv(Next(s, Expire(t)))
  {
    hide QueueOk, HandOverOk, Holders, InFlight, CountOk;
    var s' := WithStage(s, t, Leaving);
    assert Next(s, Expire(t)) == s';
    hide Next;
    Standing(s, t);
    StageKeepsQueues(s, s', t, Leaving);
    StageSets(s, s', t, Leaving);
    assert Holders(s') == Holders(s) && InFlight(s') == InFlight(s);
    CountMoves(s, s');
  }

  lemma OnFinish(s: State, t: Ticket)
    requires Inv(s) && Enabled(s, Finish(t))
    ensures Inv(Next(s, Finish(t)))
  {
    hide QueueOk, HandOverOk, Holders, InFlight, CountOk;
    var s' := WithStage(s, t, Gone).(releasing := s.releasing + 1);
    assert Next(s, Finish(t)) == s';
    hide Next;
    Standing(s, t);
    StageKeepsQueues(s, s', t, Gone);
    StageSets(s, s', t, Gone);
    assert InFlight(s') == InFlight(s);
    CountMoves(s, s');
  }

  lemma FutureQueues(s: State, e: Event)
    requires QueueOk(s) && HandOverOk(s) && Enabled(s, e) && (e.GrantRuns? || e.FailLands?)
    ensures QueueOk(Next(s, e)) && HandOverOk(Next(s, e))
  {
    assert e.t !in s.core.waiters;
  }

  lemma FutureSets(s: State, e: Event)
    requires HandOverOk(s) && Enabled(s, e) && (e.GrantRuns? || e.FailLands?)
    ensures Holders(Next(s, e)) == Holders(s) && InFlight(Next(s, e)) == InFlight(s)
  {
  }

  lemma OnFuture(s: State, e: Event)
    requires Inv(s) && Enabled(s, e) && (e.GrantRuns? || e.FailLands?)
    ensures Inv(Next(s, e))
  {
    FutureQueues(s, e);
    FutureSets(s, e);
    assert e.GrantRuns? ==> s.calls[e.t].fut == Pending;
    hide QueueOk, HandOverOk, Holders, InFlight;
  }

  lemma OnShutdown(s: State)
    requires Inv(s)
    ensures Inv(Next(s, Shutdown))
  {
    ShutdownQueues(s);
    ShutdownSets(s);
    hide Holders, InFlight, QueueOk, HandOverOk;
  }

  lemma ShutdownQueues(s: State)
    requires QueueOk(s) && HandOverOk(s)
    ensures QueueOk(Next(s, Shutdown)) && HandOverOk(Next(s, Shutdown))
  {
  }

  lemma ShutdownSets(s: State)
    ensures Holders(Next(s, Shutdown)) == Holders(s) && InFlight(Next(s, Shutdown)) == InFlight(s)
  {
  }

  lemma OnCloseLoop(s: State, l: LoopId)
    requires Inv(s)
    ensures Inv(Next(s, CloseLoop(l)))
  {
    assert Holders(Next(s, CloseLoop(l))) == Holders(s) && InFlight(Next(s, CloseLoop(l))) == InFlight(s);
    hide Holders, InFlight;
  }

  lemma StepInv(s: State, e: Event)
    requires Inv(s)
    ensures Inv(Step(s, e))
  {
    hide Inv, Next;
    if Enabled(s, e) {
      match e
      case Acquire(l) => OnAcquire(s, l);
      case Leave(t) => OnLeave(s, t);
      case Expire(t) => OnExpire(s, t);
      case Resume(t) => OnResume(s, t);
      case Finish(t) => OnFinish(s, t);
      case ReleaseLocked => OnReleaseLocked(s);
      case Schedule(t) => OnSchedule(s, t);
      case Shutdown => OnShutdown(s);
      case CloseLoop(l) => OnCloseLoop(s, l);
      case _ => OnFuture(s, e);
    }
  }

  lemma {:induction false} RunInv(capacity: nat, es: seq<Event>)
    ensures Inv(Run(Init(capacity), es)) && Run(Init(capacity), es).capacity == capacity
  {
    if es == [] {
      assert Holders(Init(capacity)) == {} && InFlight(Init(capacity)) == {};
    } else {
      RunInv(capacity, es[..|es| - 1]);
      StepInv(Run(Init(capacity), es[..|es| - 1]), es[|es| - 1]);
      StepCapacity(Run(Init(capacity), es[..|es| - 1]), es[|es| - 1]);
      hide Inv, Step;
    }
  }

  lemma StepCapacity(s: State, e: Event)
    ensures Step(s, e).capacity == s.capacity
  {
  }

  // ---------------------------------------------------------------- what every run guarantees

  // Step k of the run releases a permit that no caller owned.
  predicate UnbackedAt(capacity: nat, es: seq<Event>, k: nat)
    requires k < |es|
  {
    var s := Run(Init(capacity), es[..k]);
    LateLeave(s, es[k]) || StaleRetry(s, es[k])
  }

  lemma {:induction false} HistoryCounts(capacity: nat, es: seq<Event>)
    ensures var s := Run(Init(capacity), es);
            s.lateLeaves + s.staleRetries == 0 <==> forall k :: 0 <= k < |es| ==> !UnbackedAt(capacity, es, k)
  {
    if es != [] {
      var n := |es| - 1;
      var before := Run(Init(capacity), es[..n]);
      HistoryCounts(capacity, es[..n]);
      UnbackedPrefix(capacity, es, n);
      HistoryStep(before, es[n]);
      assert UnbackedAt(capacity, es, n) <==> LateLeave(before, es[n]) || StaleRetry(before, es[n]);
      hide UnbackedAt, LateLeave, StaleRetry, Step;
    }
  }

  lemma UnbackedPrefix(capacity: nat, es: seq<Event>, n: nat)
    requires n <= |es|
    ensures forall k :: 0 <= k < n ==> UnbackedAt(capacity, es, k) == UnbackedAt(capacity, es[..n], k)
  {
    forall k | 0 <= k < n
      ensures UnbackedAt(capacity, es, k) == UnbackedAt(capacity, es[..n], k)
    {
      assert es[..n][..k] == es[..k] && es[..n][k] == es[k];
      hide Run, LateLeave, StaleRetry;
    }
  }

  lemma HistoryStep(s: State, e: Event)
    ensures var s' := Step(s, e);
            s'.lateLeaves + s'.staleRetries
            == s.lateLeaves + s.staleRetries + if LateLeave(s, e) || StaleRetry(s, e) then 1 else 0
  {
  }

  /** Conservation, exactly: the counter equals permits held, in flight and being released if and
      only if the run took neither a late leave nor a stale retry. */
  lemma {:induction false} Conservation(capacity: nat, es: seq<Event>)
    ensures var s := Run(Init(capacity), es);
            (s.core.inUse == |Holders(s)| + |InFlight(s)| + s.releasing)
            <==> (forall k :: 0 <= k < |es| ==> !UnbackedAt(capacity, es, k))
  {
    RunInv(capacity, es);
    HistoryCounts(capacity, es);
  }

  lemma {:induction false} OpenLoopsNoStaleRetry(capacity: nat, es: seq<Event>)
    requires forall k :: 0 <= k < |es| ==> !es[k].CloseLoop?
    ensures Run(Init(capacity), es).closedLoops == {} && Run(Init(capacity), es).staleRetries == 0
  {
    if es != [] {
      OpenLoopsNoStaleRetry(capacity, es[..|es| - 1]);
    }
  }

  lemma {:induction false} ClosedByShutdown(capacity: nat, es: seq<Event>)
    ensures Run(Init(capacity), es).core.closed <==> Shutdown in es
  {
    if es != [] {
      var n := |es| - 1;
      ClosedByShutdown(capacity, es[..n]);
      assert es == es[..n] + [es[n]];
      ClosedStep(Run(Init(capacity), es[..n]), es[n]);
    }
  }

  lemma ClosedStep(s: State, e: Event)
    ensures Step(s, e).core.closed <==> s.core.closed || e == Shutdown
  {
  }

  /** With open loops and before shutdown, conservation holds without exception. */
  lemma {:induction false} ConservationBeforeShutdown(capacity: nat, es: seq<Event>)
    requires forall k :: 0 <= k < |es| ==> !es[k].CloseLoop? && !es[k].Shutdown?
    ensures var s := Run(Init(capacity), es);
            s.core.inUse == |Holders(s)| + |InFlight(s)| + s.releasing
  {
    RunInv(capacity, es);
    OpenLoopsNoStaleRetry(capacity, es);
    ClosedByShutdown(capacity, es);
  }

  /** In every reachable state, shutdown included, at most `capacity` callers hold a permit; only a
      stale retry, which needs a loop to close, can raise the bound, each by one. */
  lemma HolderBound(capacity: nat, es: seq<Event>)
    ensures var s := Run(Init(capacity), es);
            |Holders(s)| + |InFlight(s)| <= capacity + s.staleRetries
    ensures (forall k :: 0 <= k < |es| ==> !es[k].CloseLoop?) ==>
              |Holders(Run(Init(capacity), es))| <= capacity
  {
    RunInv(capacity, es);
    if forall k :: 0 <= k < |es| ==> !es[k].CloseLoop? {
      OpenLoopsNoStaleRetry(capacity, es);
    }
  }

  /** While someone waits, every permit is out: a newcomer cannot overtake, it queues last. */
  lemma NoOvertaking(capacity: nat, es: seq<Event>, l: LoopId)
    ensures var s := Run(Init(capacity), es);
            s.core.waiters != [] && l !in s.closedLoops ==>
              && s.core.inUse == capacity
              && Step(s, Acquire(l)).core.waiters == s.core.waiters + [|s.calls|]
              && Step(s, Acquire(l)).calls == s.calls + [Call(l, Waiting, Pending)]
  {
    RunInv(capacity, es);
  }

  /** A released permit goes to the first waiter whose loop is open. */
  lemma NoPermitLost(s: State, k: nat)
    requires Inv(s) && s.releasing > 0
    requires k < |s.core.waiters| && Live(s, s.core.waiters[k])
    requires forall j :: 0 <= j < k ==> !Live(s, s.core.waiters[j])
    ensures var t, s' := s.core.waiters[k], Step(s, ReleaseLocked);
            && t !in s.handing && s'.handing == s.handing + {t}
            && s'.core == s.core.(waiters := s.core.waiters[k + 1..])
  {
    var q := s.core.waiters;
    var i := LiveIndex(q, Dead(s));
    assert q[k] in q && q[k] !in Dead(s);
    forall j | 0 <= j < k ensures q[j] in Dead(s) {
      assert q[j] in q;
    }
    hide Dead, Live, HandOverOk, CountOk;
  }

  // ---------------------------------------------------------------- everybody is answered

  // The hand-over is about to be scheduled, or scheduled, or has come.
  predicate Delivered(s: State, t: Ticket) {
    t in s.handing || t in s.grants || (t < |s.calls| && s.calls[t].fut == Granted)
  }

  ghost predicate OnTheWay(s: State) {
    forall t :: t in InFlight(s) ==> Delivered(s, t)
  }

  lemma StepOnTheWay(s: State, e: Event)
    requires Inv(s) && OnTheWay(s)
    ensures OnTheWay(Step(s, e))
  {
    hide Next, InFlight, Inv, Delivered, Owed;
    GrantsPend(s);
    if Enabled(s, e) {
      forall t | t in InFlight(Next(s, e)) ensures Delivered(Next(s, e), t) {
        InFlightIs(s, t);
        InFlightIs(Next(s, e), t);
        match e
        case Acquire(l) => AcquireOnTheWay(s, l, t);
        case Leave(u) => LeaveOnTheWay(s, u, t);
        case ReleaseLocked => PopOnTheWay(s, t);
        case Shutdown => ShutdownOnTheWay(s, t);
        case _ => OthersOnTheWay(s, e, t);
      }
    }
  }

  lemma GrantsPend(s: State)
    requires Inv(s)
    ensures forall u :: u in s.grants ==> u < |s.calls| && s.calls[u].fut == Pending
    ensures s.core.closed ==> s.core.waiters == []
  {
  }

  // The caller waits for a permit that was taken out of the queue for it.
  predicate Owed(s: State, t: Ticket) {
    t < |s.calls| && s.calls[t].stage in {Waiting, Leaving} && t !in s.core.waiters && t !in s.dropped
  }

  lemma InFlightIs(s: State, t: Ticket)
    ensures t in InFlight(s) <==> Owed(s, t)
  {
  }

  lemma AcquireOnTheWay(s: State, l: LoopId, t: Ticket)
    requires Enabled(s, Acquire(l)) && Owed(Next(s, Acquire(l)), t) && (Owed(s, t) ==> Delivered(s, t))
    ensures Delivered(Next(s, Acquire(l)), t)
  {
  }

  lemma LeaveOnTheWay(s: State, u: Ticket, t: Ticket)
    requires Enabled(s, Leave(u)) && Owed(Next(s, Leave(u)), t) && (Owed(s, t) ==> Delivered(s, t))
    ensures Delivered(Next(s, Leave(u)), t)
  {
    hide RemoveFirst;
    if t in s.core.waiters && t != u {
      RemoveFirstLeaves(s.core.waiters, u, t);
    }
  }

  lemma PopOnTheWay(s: State, t: Ticket)
    requires Enabled(s, ReleaseLocked) && Owed(Next(s, ReleaseLocked), t) && (Owed(s, t) ==> Delivered(s, t))
    ensures Delivered(Next(s, ReleaseLocked), t)
  {
    var q, i := s.core.waiters, LiveIndex(s.core.waiters, Dead(s));
    hide LiveIndex, Dead;
    assert q == q[..i] + q[i..] && (i < |q| ==> q[i..] == [q[i]] + q[i + 1..]);
  }

  lemma ShutdownOnTheWay(s: State, t: Ticket)
    requires Owed(Next(s, Shutdown), t) && (Owed(s, t) ==> Delivered(s, t)) && (s.core.closed ==> s.core.waiters == [])
    ensures Delivered(Next(s, Shutdown), t)
  {
  }

  lemma OthersOnTheWay(s: State, e: Event, t: Ticket)
    requires Enabled(s, e) && !e.Acquire? && !e.Leave? && !e.ReleaseLocked? && !e.Shutdown?
    requires Owed(Next(s, e), t) && (Owed(s, t) ==> Delivered(s, t))
    requires forall u :: u in s.grants ==> u < |s.calls| && s.calls[u].fut == Pending
    ensures Delivered(Next(s, e), t)
  {
  }

  lemma {:induction false} RemoveFirstLeaves(q: seq<Ticket>, u: Ticket, t: Ticket)
    requires t in q && t != u
    ensures t in RemoveFirst(q, u)
  {
    if q[0] != u && q[0] != t {
      assert t in q[1..];
      RemoveFirstLeaves(q[1..], u, t);
    }
  }

  lemma {:induction false} RunOnTheWay(capacity: nat, es: seq<Event>)
    ensures OnTheWay(Run(Init(capacity), es))
  {
    if es != [] {
      RunInv(capacity, es[..|es| - 1]);
      RunOnTheWay(capacity, es[..|es| - 1]);
      StepOnTheWay(Run(Init(capacity), es[..|es| - 1]), es[|es| - 1]);
    }
    hide Step, Inv;
  }

  // What the loop runs next for a caller that left the queue.
  function Answered(s: State, t: Ticket): State {
    Step(Step(Step(Step(s, Schedule(t)), GrantRuns(t)), FailLands(t)), Resume(t))
  }

  /** Whoever waits on an open loop and has left the queue is answered, in every reachable state: once its
      grant is scheduled and has run, or its failure has landed, it resumes with a permit, or refused if
      it was dropped. Nobody else, no counter and no queue is touched. */
  lemma LeftQueueIsAnswered(capacity: nat, es: seq<Event>, t: Ticket)
    requires var s := Run(Init(capacity), es); Live(s, t) && s.calls[t].stage == Waiting && t !in s.core.waiters
    ensures var s := Run(Init(capacity), es);
            var s' := Answered(s, t);
            && |s'.calls| == |s.calls| && s'.calls[t].stage == (if t in s.dropped then Gone else Holding)
            && (forall u :: 0 <= u < |s.calls| && u != t ==> s'.calls[u] == s.calls[u])
            && s'.core == s.core && s'.releasing == s.releasing
  {
    RunInv(capacity, es);
    RunOnTheWay(capacity, es);
    AnsweredIs(Run(Init(capacity), es), t);
    hide Inv, Answered, Run;
  }

  lemma AnsweredIs(s: State, t: Ticket)
    requires Inv(s) && Live(s, t) && s.calls[t].stage == Waiting && t !in s.core.waiters
    requires t !in s.dropped ==> Delivered(s, t)
    ensures Answered(s, t) == s.(calls := Answered(s, t).calls, handing := s.handing - {t}, grants := s.grants - {t})
    ensures var calls := Answered(s, t).calls;
            calls == s.calls[t := calls[t]] && calls[t].stage == if t in s.dropped then Gone else Holding
  {
    hide CountOk, QueueOk, Holders, InFlight, Dead, LiveIndex;
    var s1 := Step(s, Schedule(t));
    assert s1 == s.(handing := s.handing - {t}, grants := if t in s.handing then s.grants + {t} else s.grants);
    var s2 := Step(s1, GrantRuns(t));
    assert s2.dropped == s.dropped && s2.core == s.core && s2.closedLoops == s.closedLoops;
    assert s2 == s1.(grants := s.grants - {t}, calls := s2.calls);
    hide HandOverOk;
  }

  /** A waiter that `shutdown` drained and whose loop is open is told so: its failure lands, it resumes
      refused, and no permit is taken or released on the way. */
  lemma DrainedIsRefused(capacity: nat, before: seq<Event>, more: seq<Event>, t: Ticket)
    requires t in Run(Init(capacity), before).core.waiters
    requires var s := Run(Init(capacity), before + [Shutdown] + more); Live(s, t) && s.calls[t].stage == Waiting
    ensures var s := Run(Init(capacity), before + [Shutdown] + more);
            var s' := Step(Step(s, FailLands(t)), Resume(t));
            && s' == s.(calls := s'.calls) && |s'.calls| == |s.calls| && s'.calls[t].stage == Gone
            && (forall u :: 0 <= u < |s.calls| && u != t ==> s'.calls[u] == s.calls[u])
  {
    hide Run, Inv;
    var s0, s := Run(Init(capacity), before), Run(Init(capacity), before + [Shutdown] + more);
    RunInv(capacity, before);
    RunInv(capacity, before + [Shutdown] + more);
    RunSnoc(Init(capacity), before, Shutdown);
    RunConcat(Init(capacity), before + [Shutdown], more);
    ShutdownDrops(s0, t);
    DroppedStays(Step(s0, Shutdown), more, t);
    Refuses(s, t);
  }

  lemma ShutdownDrops(s: State, t: Ticket)
    requires Inv(s) && t in s.core.waiters
    ensures t in Step(s, Shutdown).dropped
  {
  }

  lemma Refuses(s: State, t: Ticket)
    requires Inv(s) && t in s.dropped && Live(s, t) && s.calls[t].stage == Waiting
    ensures var s' := Step(Step(s, FailLands(t)), Resume(t));
            && s' == s.(calls := s'.calls) && |s'.calls| == |s.calls| && s'.calls[t].stage == Gone
            && (forall u :: 0 <= u < |s.calls| && u != t ==> s'.calls[u] == s.calls[u])
  {
    assert s.calls[t].fut != Granted;
    hide Inv;
  }

  lemma {:induction false} DroppedStays(s: State, es: seq<Event>, t: Ticket)
    requires t in s.dropped
    ensures t in Run(s, es).dropped
  {
    if es != [] {
      DroppedStays(s, es[..|es| - 1], t);
    }
  }

  /** A caller on an open loop that gives up is gone: out of the queue, if it is still in it, where the
      others keep their order; and else it releases the permit it takes itself to have. */
  lemma GivesUp(capacity: nat, es: seq<Event>, t: Ticket)
    requires var s := Run(Init(capacity), es); Live(s, t) && s.calls[t].stage == Waiting
    ensures var s := Run(Init(capacity), es);
            var s' := Step(Step(s, Expire(t)), Leave(t));
            && s'.calls == s.calls[t := s.calls[t].(stage := Gone)] && s'.core.inUse == s.core.inUse
            && s'.releasing == s.releasing + (if t in s.core.waiters then 0 else 1)
            && Increasing(s'.core.waiters) && forall u :: u in s'.core.waiters <==> u in s.core.waiters && u != t
  {
    var s := Run(Init(capacity), es);
    RunInv(capacity, es);
    assert s.calls[t := s.calls[t].(stage := Leaving)][t := s.calls[t].(stage := Gone)]
           == s.calls[t := s.calls[t].(stage := Gone)];
    if t in s.core.waiters {
      RemoveFirstKeepsOrder(s.core.waiters, t);
    }
    hide Run, HandOverOk, CountOk;
  }

  /** A newcomer is turned away exactly after `shutdown`, admitted exactly while permits are left, and
      queued otherwise, behind everybody. */
  lemma NewcomerExactly(capacity: nat, es: seq<Event>, l: LoopId)
    requires l !in Run(Init(capacity), es).closedLoops
    ensures var s := Run(Init(capacity), es);
            var s' := Step(s, Acquire(l));
            var stage := if Shutdown in es then Gone else if s.core.inUse < capacity then Holding else Waiting;
            && s'.calls == s.calls + [Call(l, stage, Pending)]
            && s'.core.inUse == s.core.inUse + (if stage == Holding then 1 else 0)
            && s'.core.waiters == s.core.waiters + (if stage == Waiting then [|s.calls|] else [])
  {
    RunInv(capacity, es);
    ClosedByShutdown(capacity, es);
    hide Run, Inv;
  }

  /** When a job is done, its permit goes to the first waiter on an open loop, which then holds it; the
      counter does not move. */
  lemma FinishServesNext(capacity: nat, es: seq<Event>, t: Ticket, k: nat)
    requires var s := Run(Init(capacity), es); Live(s, t) && s.calls[t].stage == Holding
    requires var s := Run(Init(capacity), es);
             && k < |s.core.waiters| && Live(s, s.core.waiters[k]) && s.calls[s.core.waiters[k]].stage == Waiting
             && forall j :: 0 <= j < k ==> !Live(s, s.core.waiters[j])
    ensures var s := Run(Init(capacity), es);
            var w := s.core.waiters[k];
            var s' := Answered(Step(Step(s, Finish(t)), ReleaseLocked), w);
            && |s'.calls| == |s.calls| && s'.calls[t].stage == Gone && s'.calls[w].stage == Holding
            && s'.core == s.core.(waiters := s.core.waiters[k + 1..]) && s'.releasing == s.releasing
  {
    var s := Run(Init(capacity), es);
    var w := s.core.waiters[k];
    var s1 := Step(s, Finish(t));
    var s2 := Step(s1, ReleaseLocked);
    RunInv(capacity, es);
    hide Run, Answered, Inv, Next;
    QueuedIsOther(s, k, t);
    StepInv(s, Finish(t));
    StepInv(s1, ReleaseLocked);
    FinishIs(s, t);
    hide Step;
    NoPermitLost(s1, k);
    ReleaseKeepsCalls(s1);
    Handed(s1, s2, k);
    AnsweredIs(s2, w);
  }

  lemma QueuedIsOther(s: State, k: nat, t: Ticket)
    requires Inv(s) && k < |s.core.waiters| && t < |s.calls| && s.calls[t].stage == Holding
    ensures s.core.waiters[k] != t && Increasing(s.core.waiters)
  {
    assert s.core.waiters[k] in s.core.waiters;
  }

  lemma FinishIs(s: State, t: Ticket)
    requires Live(s, t) && s.calls[t].stage == Holding
    ensures Step(s, Finish(t)) == s.(calls := s.calls[t := s.calls[t].(stage := Gone)], releasing := s.releasing + 1)
  {
  }

  lemma ReleaseKeepsCalls(s: State)
    requires s.releasing > 0
    ensures var s' := Step(s, ReleaseLocked);
            s'.calls == s.calls && s'.closedLoops == s.closedLoops && s'.releasing == s.releasing - 1
  {
    hide LiveIndex, Dead;
  }

  lemma Handed(s: State, s': State, k: nat)
    requires Inv(s') && k < |s.core.waiters| && Increasing(s.core.waiters)
    requires s.core.waiters[k] in s'.handing && s'.core.waiters == s.core.waiters[k + 1..]
    ensures s.core.waiters[k] !in s'.core.waiters && s.core.waiters[k] !in s'.dropped
  {
  }

  /** The counter falls only when no live waiter is left. */
  lemma PermitReturnedOnlyToNobody(s: State)
    requires Inv(s) && s.releasing > 0
    ensures var s' := Step(s, ReleaseLocked);
            s'.core.inUse < s.core.inUse <==> forall t :: t in s.core.waiters ==> !Live(s, t)
  {
    var q := s.core.waiters;
    var i := LiveIndex(q, Dead(s));
    if i < |q| {
      assert q[i] in q;
    } else {
      forall t | t in q ensures !Live(s, t) {
        assert t in Dead(s);
      }
    }
  }

  /** Grants go out in order of arrival: the hand-overs of a run form an increasing sequence of
      tickets, and everyone still queued arrived after everyone handed a permit. */
  lemma GrantsAreFifo(capacity: nat, es: seq<Event>)
    ensures var s := Run(Init(capacity), es);
            Increasing(s.handed) && forall a, b :: a in s.handed && b in s.core.waiters ==> a < b
  {
    RunInv(capacity, es);
    var s := Run(Init(capacity), es);
    forall a, b | a in s.handed && b in s.core.waiters ensures a < b {
      assert a <= Last(s.handed) && s.core.waiters[0] <= b;
    }
  }

  /** A grant callback never finds its waiter done, so `waiter.done()` in `grant` never holds. */
  lemma GrantFindsPendingWaiter(capacity: nat, es: seq<Event>, t: Ticket)
    ensures var s := Run(Init(capacity), es);
            t in s.grants ==> t < |s.calls| && s.calls[t].fut == Pending
  {
    RunInv(capacity, es);
  }

  // ---------------------------------------------------------------- the two exceptions do happen

  lemma RunSnoc(s: State, es: seq<Event>, e: Event)
    ensures Run(s, es + [e]) == Step(Run(s, es), e)
  {
    assert (es + [e])[..|es|] == es;
  }

  lemma RunTwo(s: State, e0: Event, e1: Event)
    ensures Run(s, [e0, e1]) == Step(Step(s, e0), e1)
  {
    RunSnoc(s, [], e0);
    RunSnoc(s, [e0], e1);
    assert [] + [e0] == [e0] && [e0] + [e1] == [e0, e1];
  }

  lemma {:induction false} RunConcat(s: State, es: seq<Event>, more: seq<Event>)
    ensures Run(s, es + more) == Run(Run(s, es), more)
  {
    if more == [] {
      assert es + more == es;
    } else {
      var n := |more| - 1;
      RunConcat(s, es, more[..n]);
      RunSnoc(s, es + more[..n], more[n]);
      assert es + more[..n] + [more[n]] == es + more;
    }
  }

  const BUSY := State(1, Core(1, false, [1]), [Call(0, Holding, Pending), Call(1, Waiting, Pending)],
                      0, {}, {}, {}, {}, [], 0, 0)

  lemma ReachBusy()
    ensures Run(Init(1), [Acquire(0), Acquire(1)]) == BUSY
  {
    RunTwo(Init(1), Acquire(0), Acquire(1));
  }

  const DRAINED := BUSY.(core := Core(1, true, []), dropped := {1},
                         calls := [Call(0, Holding, Pending), Call(1, Leaving, Pending)])

  lemma ReachDrained()
    ensures Run(BUSY, [Shutdown, Expire(1)]) == DRAINED
  {
    RunTwo(BUSY, Shutdown, Expire(1));
    assert Elements([1]) == {1};
  }

  /** A waiter drained by `shutdown` that times out before its exception lands releases a permit
      nobody gave it: the counter reads 0 while a caller holds a permit. */
  lemma LateLeaveHappens()
    ensures var s := Run(Init(1), [Acquire(0), Acquire(1)] + [Shutdown, Expire(1)] + [Leave(1), ReleaseLocked]);
            s.core.inUse == 0 && 0 in Holders(s)
  {
    ReachBusy();
    ReachDrained();
    RunTwo(DRAINED, Leave(1), ReleaseLocked);
    hide Run;
    RunConcat(Init(1), [Acquire(0), Acquire(1)], [Shutdown, Expire(1)]);
    RunConcat(Init(1), [Acquire(0), Acquire(1)] + [Shutdown, Expire(1)], [Leave(1), ReleaseLocked]);
  }

  const STALE_RUN := [Acquire(0), Acquire(1)] + [Finish(0), ReleaseLocked] + [Expire(1), Leave(1)]
                     + [ReleaseLocked, Acquire(0)] + [CloseLoop(1), Schedule(1)] + [ReleaseLocked, Acquire(0)]
  const GONE := Call(0, Gone, Pending)
  const HELD := Call(0, Holding, Pending)
  const POPPED := BUSY.(core := Core(1, false, []), calls := [GONE, Call(1, Waiting, Pending)],
                        handing := {1}, handed := [1])
  const RELEASED := POPPED.(calls := [GONE, Call(1, Gone, Pending)], releasing := 1)
  const TAKEN := RELEASED.(releasing := 0, calls := RELEASED.calls + [HELD])
  const RETRIED := TAKEN.(closedLoops := {1}, handing := {}, releasing := 1, dropped := {1}, staleRetries := 1)
  const TAKEN_TWICE := RETRIED.(releasing := 0, calls := RETRIED.calls + [HELD])

  lemma ReachPopped()
    ensures Run(BUSY, [Finish(0), ReleaseLocked]) == POPPED
  {
    var s := BUSY.(calls := [GONE, Call(1, Waiting, Pending)], releasing := 1);
    RunTwo(BUSY, Finish(0), ReleaseLocked);
    assert Step(BUSY, Finish(0)) == s;
    PopsTheWaiter(s);
    hide Step, Run;
  }

  lemma PopsTheWaiter(s: State)
    requires s == BUSY.(calls := [GONE, Call(1, Waiting, Pending)], releasing := 1)
    ensures Step(s, ReleaseLocked) == POPPED
  {
    assert Dead(s) == {};
    assert LiveIndex([1], {}) == 0;
    assert Elements([1][..0]) == {};
    hide Dead, LiveIndex, Elements;
  }

  lemma ReachReleased()
    ensures Run(POPPED, [Expire(1), Leave(1)]) == RELEASED
  {
    RunTwo(POPPED, Expire(1), Leave(1));
  }

  lemma ReachTaken()
    ensures Run(RELEASED, [ReleaseLocked, Acquire(0)]) == TAKEN
  {
    assert Elements([]) == {};
    RunTwo(RELEASED, ReleaseLocked, Acquire(0));
  }

  lemma ReachRetried()
    ensures Run(TAKEN, [CloseLoop(1), Schedule(1)]) == RETRIED
  {
    RunTwo(TAKEN, CloseLoop(1), Schedule(1));
  }

  lemma ReachTakenTwice()
    ensures Run(RETRIED, [ReleaseLocked, Acquire(0)]) == TAKEN_TWICE
  {
    assert Elements([]) == {};
    RunTwo(RETRIED, ReleaseLocked, Acquire(0));
  }

  /** A loop that closes between the hand-over's `is_closed` test and its `call_soon_threadsafe`,
      after its waiter timed out: the permit is released twice, and two callers hold one permit. */
  lemma StaleRetryHappens()
    ensures Holders(Run(Init(1), STALE_RUN)) == {2, 3}
  {
    var e1, e2, e3 := [Acquire(0), Acquire(1)], [Finish(0), ReleaseLocked], [Expire(1), Leave(1)];
    var e4, e5 := [ReleaseLocked, Acquire(0)], [CloseLoop(1), Schedule(1)];
    ReachHalf();
    ReachTaken();
    ReachRetried();
    ReachTakenTwice();
    hide Run;
    RunConcat(Init(1), e1 + e2 + e3, e4);
    RunConcat(Init(1), e1 + e2 + e3 + e4, e5);
    RunConcat(Init(1), e1 + e2 + e3 + e4 + e5, e4);
    assert Holders(TAKEN_TWICE) == {2, 3};
  }

  lemma ReachHalf()
    ensures Run(Init(1), [Acquire(0), Acquire(1)] + [Finish(0), ReleaseLocked] + [Expire(1), Leave(1)]) == RELEASED
  {
    ReachBusy();
    ReachPopped();
    ReachReleased();
    hide Run;
    RunConcat(Init(1), [Acquire(0), Acquire(1)], [Finish(0), ReleaseLocked]);
    RunConcat(Init(1), [Acquire(0), Acquire(1)] + [Finish(0), ReleaseLocked], [Expire(1), Leave(1)]);
  }
}
