/** The delivery of one ask's answer (`ask_delivery.py`): the writers of its result and the marker of
    the caller's ended turn race, and each follows its locked write with a re-read. Every locked
    section, read, send and journal check is one step; any number of askers, writers, markers, turn
    ends and receipt handlers interleave, from before the ask is prepared. */
module AskDelivery {
  import opened Wrappers
  import opened AskStatus

  const CALLER := "caller"
  const DELIVERY_ID := "ask:id"

  // Async: `write_status_async`. Complete: `complete`, which names the sender to fall back on, with
  // the flag its caller computed earlier. TargetEnd: `on_target_turn_terminal`, which stops where
  // there is no coordinator.
  datatype How =
    | Async
    | Complete(from: string, callerActive: bool)
    | TargetEnd(session: string, lifecycle: string, coordinated: bool)

  // Asker: `prepare`, or the dispatch of the prompt, which re-reads.
  datatype Role =
    | Asker(target: string, lifecycle: string, rereads: bool)
    | Writer(answer: Answer, how: How)
    | Marker(caller: string)
    | Receiver(caller: string)

  datatype Pc =
    | Seed                        // locked write of the caller, the target and the lifecycle id
    | Lookup                      // the target's turn ended: whose ask was it?
    | Probe                       // is an answer still wanted?
    | Write                       // locked write of the result
    | Reread                      // the read that follows a write
    | List                        // the marker's read of the record
    | Mark                        // locked write of caller_terminal
    | Load                        // `deliver_if_needed` reads the record
    | Check(d: Delivery)          // journal barrier and search for a receipt
    | Send(d: Delivery)           // inbox send
    | MarkInbox                   // locked write of the inboxed state
    | Drop                        // locked delete
    | RecvLoad(caller: string)    // `mark_received` reads the record
    | RecvMark(caller: string)    // locked write of the received state
    | Done

  // wrote, marked: the process's own locked writes. early: it looked before the ask was prepared, or
  // dispatched. All three are history; no step reads them.
  datatype Proc = Proc(role: Role, pc: Pc, wrote: bool, marked: bool, early: bool)

  datatype Mail = Mail(sender: string, recipient: string, message: string)

  datatype State = State(
    rec: Option<Record>,
    index: set<string>,                   // the lifecycle ids that lead to this ask
    journal: bool,                        // the caller's journal holds a receipt for this ask
    inbox: map<string, Mail>,             // by delivery id
    recorded: bool,                       // history: a receipt handler has set the received state
    procs: seq<Proc>)

  datatype Event = Spawn(role: Role) | Run(i: nat) | JournalReceipt

  const INIT := State(None, {}, false, map[], false, [])

  function Entry(role: Role): Pc {
    match role
    case Asker(_, _, _) => Seed
    case Writer(_, how) => if how.TargetEnd? then Lookup else Write
    case Marker(_) => List
    case Receiver(c) => RecvLoad(c)
  }

  predicate Enabled(s: State, e: Event) {
    match e
    case Spawn(Asker(_, _, _)) => true
    case Spawn(Writer(a, _)) => a.rendered != ""    // a rendered dict is never empty
    case Spawn(Marker(c)) => c != ""                // `mark_caller_terminal` of nobody returns at once
    case Spawn(Receiver(c)) => c != "" && s.journal // receipts reach the handler through the journal
    case Run(i) => i < |s.procs| && s.procs[i].pc != Done
    case JournalReceipt => true
  }

  predicate Prepared(r: Option<Record>) {
    r.Some? && r.value.delivery.Some?
  }

  predicate Answered(r: Option<Record>) {
    r.Some? && r.value.result.Some?
  }

  // `deliver_if_needed` goes on only for an undelivered record with both flags.
  predicate Deliverable(d: Delivery) {
    (d.state == Pending || d.state == Waiting) && d.terminal && d.fallback != ""
  }

  predicate HoldsFor(r: Option<Record>, caller: string) {
    Prepared(r) && DeliveryOf(r).caller == caller && !Final(DeliveryOf(r).state)
  }

  // The turn end of the target leads to this ask, and the ask still wants an answer from it.
  predicate Wanted(s: State, how: How) {
    && s.rec.Some? && s.rec.value.result.None? && how.TargetEnd?
    && how.session == s.rec.value.target && how.coordinated
  }

  // The caller whose records a marker lists.
  function ListedFor(p: Proc): string {
    if p.role.Marker? then p.role.caller else CALLER
  }

  // The process finishes because it looked before there was anything to see.
  predicate LooksEarly(s: State, p: Proc) {
    || (p.pc == Lookup && !(p.role.Writer? && p.role.how.TargetEnd? && p.role.how.lifecycle in s.index))
    || (p.pc == List && !Prepared(s.rec))
  }

  // Where the process goes next.
  function NextPc(s: State, p: Proc): Pc {
    var d := DeliveryOf(s.rec);
    match p.pc
    case Seed => if p.role.Asker? && p.role.rereads then Reread else Done
    case Lookup => if LooksEarly(s, p) then Done else Probe
    case Probe => if p.role.Writer? && Wanted(s, p.role.how) then Write else Done
    case Write =>
      if !p.role.Writer? then Done
      else if !p.role.how.Complete? then Reread
      else if p.role.how.callerActive then Done
      else List
    case Reread => if d.terminal && d.fallback != "" then Load else Done
    case List => if HoldsFor(s.rec, ListedFor(p)) then Mark else Done
    case Mark => Load
    case Load => if Deliverable(d) then Check(d) else Done
    case Check(d) => if d.caller != "" && s.journal then RecvLoad(d.caller) else Send(d)
    case Send(_) => MarkInbox
    case MarkInbox => Drop
    case Drop => Done
    case RecvLoad(c) => if s.rec.Some? && d.caller == c then RecvMark(c) else Done
    case RecvMark(c) => if DeliveryOf(Some(Updated(s.rec, MarkReceived(c)))).state == Received then Drop else Done
    case Done => Done
  }

  function NextProc(s: State, p: Proc): Proc {
    p.(pc := NextPc(s, p), wrote := p.wrote || (p.pc == Write && p.role.Writer?), marked := p.marked || p.pc == Mark,
       early := p.early || LooksEarly(s, p))
  }

  // What it does to the record, the index and the inbox.
  function Effect(s: State, p: Proc): State {
    match p.pc
    case Seed =>
      if !p.role.Asker? then s
      else
        s.(rec := Some(Merged(s.rec, Fields(CALLER, p.role.target, p.role.lifecycle, None))),
           index := if p.role.lifecycle == "" then s.index else s.index + {p.role.lifecycle})
    case Write =>
      if !p.role.Writer? then s
      else s.(rec := Some(WithResult(s.rec, if p.role.how.Complete? then p.role.how.from else "", p.role.answer)))
    case Mark => s.(rec := Some(Updated(s.rec, MarkTerminal)))
    case Send(d) =>
      if DELIVERY_ID in s.inbox then s
      else s.(inbox := s.inbox[DELIVERY_ID := Mail(d.fallbackSender, d.caller, d.fallback)])
    case MarkInbox => s.(rec := Some(Updated(s.rec, MarkInboxed)))
    case Drop => s.(rec := None, index := s.index - {Current(s.rec).lifecycle})
    case RecvMark(c) =>
      var r := Updated(s.rec, MarkReceived(c));
      s.(rec := Some(r), recorded := s.recorded || DeliveryOf(Some(r)).state == Received)
    case _ => s
  }

  function Advance(s: State, i: nat): State
    requires i < |s.procs|
  {
    Effect(s, s.procs[i]).(procs := s.procs[i := NextProc(s, s.procs[i])])
  }

  // A disabled event changes nothing, so every sequence of events is a run.
  function Step(s: State, e: Event): State {
    if !Enabled(s, e) then s
    else
      match e
      case Spawn(role) => s.(procs := s.procs + [Proc(role, Entry(role), false, false, false)])
      case Run(i) => Advance(s, i)
      case JournalReceipt => s.(journal := true)
  }

  function Runs(es: seq<Event>): State {
    if es == [] then INIT else Step(Runs(es[..|es| - 1]), es[|es| - 1])
  }

  // The caller's receipt is recorded, or its inbox holds the answer.
  predicate Settled(s: State) {
    s.recorded || DELIVERY_ID in s.inbox
  }

  // ---------------------------------------------------------------- the invariant

  predicate InactiveComplete(r: Role) {
    r.Writer? && r.how.Complete? && !r.how.callerActive
  }

  // Who marks the caller's turn as ended.
  predicate EndsTurn(r: Role) {
    r == Marker(CALLER) || InactiveComplete(r)
  }

  // All writers but a `complete` that takes its caller to be active read again after their write.
  predicate Handshakes(p: Proc) {
    p.role.Writer? && !(p.role.how.Complete? && p.role.how.callerActive)
  }

  // Until the ask is settled: an answer is one that can be sent, and once there is a delivery too,
  // the delivery carries it.
  ghost predicate RecOk(r: Option<Record>) {
    && (Answered(r) ==> r.value.result.value.rendered != "")
    && (Prepared(r) ==>
          var d := r.value.delivery.value;
          d.caller == CALLER && (d.state == Waiting || d.state == Pending) && (Answered(r) ==> d.fallback != ""))
  }

  // A locked write takes nothing back.
  ghost predicate Kept(r: Option<Record>, r': Option<Record>) {
    && r'.Some? && (Answered(r) ==> Answered(r'))
    && (Prepared(r) ==> Prepared(r') && (DeliveryOf(r).terminal ==> DeliveryOf(r').terminal))
  }

  ghost predicate ProcOk(r: Option<Record>, p: Proc) {
    && (p.pc == Seed ==> p.role.Asker?)
    && (p.wrote || p.pc == Lookup || p.pc == Probe || p.pc == Write ==> p.role.Writer? && p.role.answer.rendered != "")
    && (p.pc == Lookup || p.pc == Probe ==> p.role.how.TargetEnd? && !p.wrote)
    && (p.pc == Reread ==> if p.role.Asker? then p.role.rereads else p.wrote && !p.role.how.Complete?)
    && (p.role.Writer? && p.pc != Lookup && p.pc != Probe && p.pc != Write ==>
          p.wrote || (p.role.how.TargetEnd? && p.pc == Done))
    && (p.pc == List ==> p.role.Marker? || InactiveComplete(p.role))
    && (p.pc == Mark || p.marked ==> EndsTurn(p.role) && Prepared(r))
    && (p.marked ==> p.pc != Lookup && p.pc != Probe && p.pc != Write && p.pc != List && p.pc != Mark)
    && (p.wrote ==> Answered(r)) && (p.marked ==> DeliveryOf(r).terminal)
    && p.pc != MarkInbox && p.pc != Drop
    && (p.pc.Check? ==> p.pc.d.caller == CALLER && p.pc.d.fallback != "")
    && (p.pc.Send? ==> p.pc.d.caller == CALLER && p.pc.d.fallback != "")
    && (p.pc.RecvLoad? ==> p.pc.caller != "" && (p.role.Receiver? || (p.pc.caller == CALLER && Prepared(r))))
    && (p.pc.RecvMark? ==> p.pc.caller == CALLER && Prepared(r))
    && (p.pc == Reread || p.pc == Load || p.pc.Check? || p.pc.Send? ==> !p.role.Receiver?)
    && (p.pc.Check? || p.pc.Send? ==> Prepared(r))
    // A finished marker of this caller marked, unless it looked before the ask was prepared.
    && (p.pc == Load || p.pc == Done ==> EndsTurn(p.role) ==> p.marked || p.early)
  }

  // Of a writer that re-reads and a marker that marked, one is still under way.
  ghost predicate PairsOk(procs: seq<Proc>) {
    forall i, j :: 0 <= i < |procs| && 0 <= j < |procs| && procs[i].wrote && Handshakes(procs[i]) && procs[j].marked ==>
      procs[i].pc != Done || procs[j].pc != Done
  }

  ghost predicate Inv(s: State) {
    !Settled(s) ==>
      RecOk(s.rec) && PairsOk(s.procs) && forall i :: 0 <= i < |s.procs| ==> ProcOk(s.rec, s.procs[i])
  }

  lemma ProcOkAt(s: State, i: nat)
    requires Inv(s) && !Settled(s) && i < |s.procs|
    ensures RecOk(s.rec) && ProcOk(s.rec, s.procs[i])
  {
    hide RecOk, PairsOk, ProcOk;
  }

  lemma SpawnInv(s: State, role: Role)
    requires Inv(s) && Enabled(s, Spawn(role))
    ensures Inv(Step(s, Spawn(role)))
  {
  }

  // Process i changes, and the record takes nothing back. It may be finished only if its counterpart
  // is missing: a writer finds no mark, a marker no answer.
  lemma ChangeInv(s: State, i: nat, rec: Option<Record>, p: Proc, s': State)
    requires Inv(s) && !Settled(s) && i < |s.procs|
    requires RecOk(rec) && (rec == s.rec || Kept(s.rec, rec)) && ProcOk(rec, p)
    requires p.pc == Done && p.wrote && Handshakes(p) ==> rec == s.rec && !DeliveryOf(rec).terminal
    requires p.pc == Done && p.marked ==> !Answered(rec)
    requires s'.rec == rec && s'.procs == s.procs[i := p] && s'.inbox == s.inbox && s'.recorded == s.recorded
    ensures Inv(s')
  {
    forall k | 0 <= k < |s.procs|
      ensures ProcOk(rec, s'.procs[k])
    {
      if k != i {
        assert ProcOk(s.rec, s.procs[k]);
      }
    }
    assert forall k :: 0 <= k < |s.procs| && k != i ==> ProcOk(rec, s'.procs[k]) && s'.procs[k] == s.procs[k];
    hide RecOk, Kept;
  }

  lemma SeedInv(s: State, i: nat)
    requires Inv(s) && !Settled(s) && i < |s.procs| && s.procs[i].pc == Seed
    ensures Inv(Advance(s, i))
  {
    assert ProcOk(s.rec, s.procs[i]);
    ChangeInv(s, i, Advance(s, i).rec, Advance(s, i).procs[i], Advance(s, i));
  }

  lemma WriteInv(s: State, i: nat)
    requires Inv(s) && !Settled(s) && i < |s.procs| && s.procs[i].pc == Write
    ensures Inv(Advance(s, i))
  {
    assert ProcOk(s.rec, s.procs[i]);
    ChangeInv(s, i, Advance(s, i).rec, Advance(s, i).procs[i], Advance(s, i));
  }

  lemma MarkInv(s: State, i: nat)
    requires Inv(s) && !Settled(s) && i < |s.procs| && s.procs[i].pc == Mark
    ensures Inv(Advance(s, i))
  {
    assert ProcOk(s.rec, s.procs[i]);
    ChangeInv(s, i, Advance(s, i).rec, Advance(s, i).procs[i], Advance(s, i));
  }

  // The target's turn end looks, before it writes.
  lemma LookInv(s: State, i: nat)
    requires Inv(s) && !Settled(s) && i < |s.procs| && (s.procs[i].pc == Lookup || s.procs[i].pc == Probe)
    ensures Inv(Advance(s, i))
  {
    hide PairsOk, Kept, RecOk;
    assert ProcOk(s.rec, s.procs[i]);
    ChangeInv(s, i, s.rec, Advance(s, i).procs[i], Advance(s, i));
  }

  lemma ListInv(s: State, i: nat)
    requires Inv(s) && !Settled(s) && i < |s.procs| && s.procs[i].pc == List
    ensures Inv(Advance(s, i))
  {
    hide PairsOk, Kept, Merged, Updated, WithResult;
    assert ProcOk(s.rec, s.procs[i]);
    assert Effect(s, s.procs[i]) == s;
    hide Effect, Inv;
    ListNext(s, s.procs[i]);
    ChangeInv(s, i, s.rec, Advance(s, i).procs[i], Advance(s, i));
  }

  lemma ListNext(s: State, p: Proc)
    requires RecOk(s.rec) && ProcOk(s.rec, p) && p.pc == List
    ensures ProcOk(s.rec, NextProc(s, p)) && !NextProc(s, p).marked
    ensures NextProc(s, p).pc == Done && p.wrote ==> !DeliveryOf(s.rec).terminal
    ensures NextProc(s, p).wrote == p.wrote
  {
  }

  lemma ReceiptInv(s: State, i: nat)
    requires Inv(s) && !Settled(s) && i < |s.procs| && s.procs[i].pc.RecvLoad?
    ensures Inv(Advance(s, i))
  {
    hide PairsOk, Kept;
    assert ProcOk(s.rec, s.procs[i]);
    ChangeInv(s, i, s.rec, Advance(s, i).procs[i], Advance(s, i));
  }

  // The re-read after a write, and the delivery it may lead to.
  lemma RereadInv(s: State, i: nat)
    requires Inv(s) && !Settled(s) && i < |s.procs|
    requires var pc := s.procs[i].pc; pc == Reread || pc == Load || pc.Check?
    ensures Inv(Advance(s, i))
  {
    hide PairsOk, Kept;
    assert ProcOk(s.rec, s.procs[i]);
    ChangeInv(s, i, s.rec, Advance(s, i).procs[i], Advance(s, i));
  }

  lemma {:induction false} AdvanceInv(s: State, i: nat)
    requires Inv(s) && i < |s.procs| && s.procs[i].pc != Done
    ensures Inv(Advance(s, i))
  {
    if !Settled(s) {
      assert ProcOk(s.rec, s.procs[i]);
      match s.procs[i].pc
      case Seed => SeedInv(s, i);
      case Write => WriteInv(s, i);
      case Mark => MarkInv(s, i);
      case Reread => RereadInv(s, i);
      case Load => RereadInv(s, i);
      case Check(_) => RereadInv(s, i);
      case Send(_) =>
      case RecvMark(_) =>
      case MarkInbox =>
      case Drop =>
      case Done =>
      case List => ListInv(s, i);
      case RecvLoad(_) => ReceiptInv(s, i);
      case _ => LookInv(s, i);
    }
  }

  lemma {:induction false} StepInv(s: State, e: Event)
    requires Inv(s)
    ensures Inv(Step(s, e))
  {
    if Enabled(s, e) {
      match e
      case Spawn(role) => SpawnInv(s, role);
      case Run(i) => AdvanceInv(s, i);
      case JournalReceipt =>
    }
  }

  lemma {:induction false} RunInv(es: seq<Event>)
    ensures Inv(Runs(es))
  {
    if es != [] {
      RunInv(es[..|es| - 1]);
      StepInv(Runs(es[..|es| - 1]), es[|es| - 1]);
    }
  }

  /** The receipt counts as recorded from the step on that leaves the record in the received state. */
  lemma RecordedExactly(s: State, e: Event)
    requires !s.recorded
    ensures Step(s, e).recorded <==>
              && e.Run? && e.i < |s.procs| && s.procs[e.i].pc.RecvMark?
              && DeliveryOf(Step(s, e).rec).state == Received
  {
    hide Merged, WithResult;
  }

  // ---------------------------------------------------------------- no loss

  /** No loss: once a result writer that re-reads and a marker of the caller's ended turn are both
      finished, and the marker did not look before the ask was prepared, the receipt is recorded or
      the caller's inbox holds an answer that was written. */
  lemma NoLoss(es: seq<Event>, w: nat, m: nat)
    requires var s := Runs(es);
             && w < |s.procs| && s.procs[w].role.Writer? && s.procs[w].role.how == Async && s.procs[w].pc == Done
             && m < |s.procs| && s.procs[m].role == Marker(CALLER) && s.procs[m].pc == Done && !s.procs[m].early
    ensures Reached(Runs(es))
  {
    SettledReaches(es);
    RunInv(es);
  }

  /** `complete` for a caller it takes to be inactive marks the turn itself, so it settles alone. */
  lemma InactiveCompleteSettles(es: seq<Event>, w: nat)
    requires var s := Runs(es);
             && w < |s.procs| && InactiveComplete(s.procs[w].role)
             && s.procs[w].pc == Done && !s.procs[w].early
    ensures Reached(Runs(es))
  {
    SettledReaches(es);
    RunInv(es);
  }

  /** The record is deleted only after the receipt was recorded or the answer was sent. */
  lemma DeletedOnlyWhenSettled(es: seq<Event>, e: Event)
    requires Runs(es).rec.Some? && Step(Runs(es), e).rec.None?
    ensures Settled(Runs(es))
  {
    RunInv(es);
  }

  lemma FinalForever(r: Record)
    requires Final(DeliveryOf(Some(r)).state)
    ensures forall f :: Final(DeliveryOf(Some(Merged(Some(r), f))).state)
    ensures forall u :: Final(DeliveryOf(Some(Updated(Some(r), u))).state)
  {
    forall f {
      FinalStaysFinal(r, f, MarkTerminal);
    }
    forall u {
      FinalStaysFinal(r, Fields("", "", "", None), u);
    }
  }

  lemma EffectKeepsOutcome(s: State, p: Proc)
    ensures var s' := Effect(s, p);
            && (Settled(s) ==> Settled(s'))
            && (s.rec.Some? && Final(DeliveryOf(s.rec).state) && s'.rec.Some? ==> Final(DeliveryOf(s'.rec).state))
  {
    hide Merged, Updated, DeliveryOf, Final;
    if s.rec.Some? && Final(DeliveryOf(s.rec).state) {
      FinalForever(s.rec.value);
    }
  }

  /** Settled stays settled, and a record that lives through a step in a final state stays final. */
  lemma StepKeepsOutcome(s: State, e: Event)
    ensures Settled(s) ==> Settled(Step(s, e))
    ensures var s' := Step(s, e);
            s.rec.Some? && Final(DeliveryOf(s.rec).state) && s'.rec.Some? ==> Final(DeliveryOf(s'.rec).state)
  {
    if Enabled(s, e) && e.Run? {
      EffectKeepsOutcome(s, s.procs[e.i]);
    }
    hide Effect, NextProc;
  }

  // ---------------------------------------------------------------- who is still under way

  ghost predicate SomeoneWrote(procs: seq<Proc>) {
    exists i :: 0 <= i < |procs| && procs[i].wrote
  }

  ghost predicate SomeoneMarked(procs: seq<Proc>) {
    exists i :: 0 <= i < |procs| && procs[i].marked
  }

  // The process has made a locked write that it follows with a re-read.
  predicate Reads(p: Proc) {
    p.marked || (p.wrote && Handshakes(p)) || (p.role.Asker? && p.role.rereads && p.pc != Seed)
  }

  // Process c is not finished, or has not even begun.
  predicate UnderWay(s: State, c: nat) {
    c < |s.procs| ==> s.procs[c].pc != Done
  }

  // An answer is in, and of a process that re-reads and one that marked, one is still under way.
  ghost predicate Due(s: State, c: nat, m: nat) {
    !Settled(s) ==>
      && SomeoneWrote(s.procs)
      && (c < |s.procs| && m < |s.procs| && Reads(s.procs[c]) && s.procs[m].marked ==>
            s.procs[c].pc != Done || s.procs[m].pc != Done)
  }

  // What a step leaves of a process: its role, its writes, and that it is finished.
  ghost predicate Moves(p: Proc, q: Proc) {
    && q.role == p.role && (p.wrote ==> q.wrote) && (p.marked ==> q.marked)
    && (p.pc == Done ==> q == p) && (Reads(p) ==> Reads(q))
  }

  lemma NextMoves(s: State, p: Proc)
    ensures Moves(p, NextProc(s, p))
  {
    hide HoldsFor, Prepared, Deliverable, Wanted, Updated;
  }

  lemma AdvanceMoves(s: State, i: nat)
    requires i < |s.procs|
    ensures var s' := Advance(s, i);
            && |s'.procs| == |s.procs| && Moves(s.procs[i], s'.procs[i])
            && forall k :: 0 <= k < |s.procs| && k != i ==> s'.procs[k] == s.procs[k]
  {
    NextMoves(s, s.procs[i]);
    hide Effect, NextProc, Moves;
  }

  lemma ProcsGrow(s: State, e: Event)
    ensures |s.procs| <= |Step(s, e).procs|
    ensures forall k :: 0 <= k < |s.procs| ==> Moves(s.procs[k], Step(s, e).procs[k])
    ensures forall k :: 0 <= k < |s.procs| && e != Run(k) ==> Step(s, e).procs[k] == s.procs[k]
  {
    if Enabled(s, e) && e.Run? {
      AdvanceMoves(s, e.i);
      hide Advance;
    }
  }

  lemma StillWrote(procs: seq<Proc>, later: seq<Proc>)
    requires |procs| <= |later| && forall k :: 0 <= k < |procs| ==> Moves(procs[k], later[k])
    ensures SomeoneWrote(procs) ==> SomeoneWrote(later)
    ensures SomeoneMarked(procs) ==> SomeoneMarked(later)
  {
    if SomeoneWrote(procs) {
      var k :| 0 <= k < |procs| && procs[k].wrote;
      assert later[k].wrote;
    }
    if SomeoneMarked(procs) {
      var k :| 0 <= k < |procs| && procs[k].marked;
      assert later[k].marked;
    }
  }

  // With an answer in and the caller's turn marked, the record is due for delivery.
  lemma RecordDue(s: State)
    requires Inv(s) && !Settled(s) && SomeoneWrote(s.procs) && SomeoneMarked(s.procs)
    ensures Prepared(s.rec) && DeliveryOf(s.rec).caller == CALLER && Deliverable(DeliveryOf(s.rec))
    ensures HoldsFor(s.rec, CALLER)
  {
    var k :| 0 <= k < |s.procs| && s.procs[k].wrote;
    var m :| 0 <= m < |s.procs| && s.procs[m].marked;
    ProcOkAt(s, k);
    ProcOkAt(s, m);
    hide Inv, PairsOk;
  }

  // Then no re-read finishes without delivering.
  lemma NoFinish(s: State, i: nat)
    requires Inv(s) && !Settled(s) && SomeoneWrote(s.procs) && SomeoneMarked(s.procs)
    requires i < |s.procs| && s.procs[i].pc != Done && Reads(Advance(s, i).procs[i])
    ensures Advance(s, i).procs[i].pc != Done || Settled(Advance(s, i))
  {
    assert ProcOk(s.rec, s.procs[i]);
    RecordDue(s);
    hide RecOk, PairsOk, Merged, WithResult, Inv;
  }

  // A marker that has marked finishes only if no answer is in.
  lemma MarkerNoFinish(s: State, i: nat)
    requires Inv(s) && !Settled(s) && SomeoneWrote(s.procs)
    requires i < |s.procs| && s.procs[i].pc != Done && Advance(s, i).procs[i].marked
    ensures Advance(s, i).procs[i].pc != Done || Settled(Advance(s, i))
  {
    if s.procs[i].marked {
      assert SomeoneMarked(s.procs);
      NoFinish(s, i);
    } else {
      hide Inv, Settled, Merged, Updated, WithResult;
    }
  }

  lemma StepDue(s: State, e: Event, c: nat, m: nat)
    requires Inv(s) && Due(s, c, m)
    ensures Due(Step(s, e), c, m)
  {
    var s' := Step(s, e);
    ProcsGrow(s, e);
    StepKeepsOutcome(s, e);
    if !Settled(s') && Enabled(s, e) {
      StillWrote(s.procs, s'.procs);
      if e.Run? && m == e.i && s'.procs[m].marked {
        MarkerNoFinish(s, m);
      } else if e.Run? && c == e.i && m < |s.procs| && s.procs[m].marked && Reads(s'.procs[c]) {
        assert SomeoneMarked(s.procs);
        NoFinish(s, c);
      }
      NewNotDone(s, e);
      hide Step, Settled, ProcOk, Reads, Inv;
    }
  }

  lemma NewNotDone(s: State, e: Event)
    ensures forall k :: |s.procs| <= k < |Step(s, e).procs| ==>
              Step(s, e).procs[k].pc != Done && !Step(s, e).procs[k].marked
  {
    if Enabled(s, e) && e.Run? {
      AdvanceMoves(s, e.i);
      hide Advance;
    }
  }

  lemma {:induction false} RunDue(before: seq<Event>, more: seq<Event>, c: nat, m: nat)
    requires Due(Runs(before), c, m)
    ensures Due(Runs(before + more), c, m)
  {
    if more == [] {
      assert before + more == before;
    } else {
      var n := |more| - 1;
      RunDue(before, more[..n], c, m);
      RunInv(before + more[..n]);
      StepDue(Runs(before + more[..n]), more[n], c, m);
      assert (before + more)[..|before| + n] == before + more[..n] && (before + more)[|before| + n] == more[n];
    }
  }

  // The k-th event of the run is the locked write of an answer.
  predicate WritesAt(es: seq<Event>, k: nat)
    requires k < |es|
  {
    var s := Runs(es[..k]);
    es[k].Run? && es[k].i < |s.procs| && s.procs[es[k].i].pc == Write && s.procs[es[k].i].role.Writer?
  }

  lemma WriteMakesDue(s: State, w: nat, c: nat, m: nat)
    requires Inv(s) && w < |s.procs| && s.procs[w].pc == Write && s.procs[w].role.Writer? && UnderWay(s, c)
    ensures Due(Step(s, Run(w)), c, m)
  {
    AdvanceMoves(s, w);
    var q := Advance(s, w).procs[w];
    assert q.wrote && q.marked == s.procs[w].marked && (q.pc == Done ==> !Handshakes(q));
    if !Settled(s) {
      assert ProcOk(s.rec, s.procs[w]);
    }
    hide Inv, ProcOk, WithResult;
  }

  /** An answer reaches its caller if, when it was written, a process that re-reads was still under
      way, and somebody marks the caller's turn: once those two are finished, the ask is settled. Who
      wrote it, a `complete` that trusts an "active" flag included, does not matter. */
  lemma UnderWaySettles(es: seq<Event>, k: nat, c: nat, m: nat)
    requires k < |es| && WritesAt(es, k) && UnderWay(Runs(es[..k]), c)
    requires var s := Runs(es);
             && c < |s.procs| && Reads(s.procs[c]) && s.procs[c].pc == Done
             && m < |s.procs| && s.procs[m].marked && s.procs[m].pc == Done
    ensures Reached(Runs(es))
  {
    UnderWayDue(es, k, c, m);
    SettledReaches(es);
    hide Runs, Reached;
  }

  lemma UnderWayDue(es: seq<Event>, k: nat, c: nat, m: nat)
    requires k < |es| && WritesAt(es, k) && UnderWay(Runs(es[..k]), c)
    ensures Due(Runs(es), c, m)
  {
    hide Runs, Step, Due, Inv;
    var before, more := es[..k + 1], es[k + 1..];
    assert before == es[..k] + [es[k]] && before + more == es;
    RunsSnoc(es[..k], es[k]);
    RunInv(es[..k]);
    WriteMakesDue(Runs(es[..k]), es[k].i, c, m);
    RunDue(before, more, c, m);
  }

  /** In particular, an answer written while a marker of the caller's turn is under way, or before it
      begins: once that marker is finished, the ask is settled. */
  lemma LaterMarkerSettles(es: seq<Event>, k: nat, m: nat)
    requires k < |es| && WritesAt(es, k) && UnderWay(Runs(es[..k]), m)
    requires var s := Runs(es);
             m < |s.procs| && s.procs[m].role == Marker(CALLER) && s.procs[m].pc == Done && !s.procs[m].early
    ensures Reached(Runs(es))
  {
    SettledReaches(es);
    RunInv(es);
    if !Settled(Runs(es)) {
      assert ProcOk(Runs(es).rec, Runs(es).procs[m]);
      UnderWaySettles(es, k, m, m);
    }
  }

  // ---------------------------------------------------------------- exactly when an answer arrives

  // What is in the record, and what a process is about, was brought about by somebody.
  ghost predicate Caused(s: State) {
    && (Answered(s.rec) || DeliveryOf(s.rec).fallback != "" ==> SomeoneWrote(s.procs))
    && (DeliveryOf(s.rec).terminal ==> SomeoneMarked(s.procs))
    && forall i :: 0 <= i < |s.procs| && Delivers(s.procs[i]) ==> Reads(s.procs[i])
  }

  predicate Delivers(p: Proc) {
    p.pc == Reread || p.pc == Load || p.pc.Check? || p.pc.Send?
  }

  // What a locked write can bring into the record.
  lemma WriteBrings(r: Option<Record>, f: Fields, u: Update)
    ensures var m, v := Some(Merged(r, f)), Some(Updated(r, u));
            && (Answered(m) ==> Answered(r) || f.result.Some?) && (Answered(v) ==> Answered(r))
            && (DeliveryOf(m).fallback != "" ==> DeliveryOf(r).fallback != "" || Answered(m))
            && DeliveryOf(v).fallback == DeliveryOf(r).fallback
            && (DeliveryOf(m).terminal ==> DeliveryOf(r).terminal)
            && (DeliveryOf(v).terminal ==> DeliveryOf(r).terminal || u == MarkTerminal)
  {
  }

  lemma EffectBrings(s: State, p: Proc)
    ensures var s', q := Effect(s, p), NextProc(s, p);
            && (Answered(s'.rec) ==> Answered(s.rec) || q.wrote)
            && (DeliveryOf(s'.rec).fallback != "" ==> DeliveryOf(s.rec).fallback != "" || Answered(s.rec) || q.wrote)
            && (DeliveryOf(s'.rec).terminal ==> DeliveryOf(s.rec).terminal || q.marked)
  {
    var none := Fields("", "", "", None);
    if p.pc == Seed && p.role.Asker? {
      WriteBrings(s.rec, Fields(CALLER, p.role.target, p.role.lifecycle, None), MarkTerminal);
    } else if p.pc == Write && p.role.Writer? {
      var from := if p.role.how.Complete? then p.role.how.from else "";
      WriteBrings(s.rec, Fields("", from, "", Some(p.role.answer)), MarkTerminal);
    } else if p.pc.RecvMark? {
      WriteBrings(s.rec, none, MarkReceived(p.pc.caller));
    } else if p.pc == MarkInbox {
      WriteBrings(s.rec, none, MarkInboxed);
    } else if p.pc == Mark {
      WriteBrings(s.rec, none, MarkTerminal);
    }
    hide Merged, Updated, NextPc;
  }

  lemma RecordCaused(s: State, i: nat)
    requires Caused(s) && i < |s.procs|
    ensures var s' := Advance(s, i);
            && (Answered(s'.rec) || DeliveryOf(s'.rec).fallback != "" ==> SomeoneWrote(s'.procs))
            && (DeliveryOf(s'.rec).terminal ==> SomeoneMarked(s'.procs))
  {
    var s' := Advance(s, i);
    AdvanceMoves(s, i);
    StillWrote(s.procs, s'.procs);
    EffectBrings(s, s.procs[i]);
    assert s'.procs[i] == NextProc(s, s.procs[i]) && s'.rec == Effect(s, s.procs[i]).rec;
    assert s'.procs[i].wrote ==> SomeoneWrote(s'.procs);
    assert s'.procs[i].marked ==> SomeoneMarked(s'.procs);
    hide SomeoneWrote, SomeoneMarked, Moves, NextProc, Effect, Reads, DeliveryOf, Answered;
  }

  lemma StepCaused(s: State, e: Event)
    requires Caused(s)
    ensures Caused(Step(s, e))
  {
    if Enabled(s, e) {
      var s' := Step(s, e);
      ProcsGrow(s, e);
      if e.Run? {
        RecordCaused(s, e.i);
        assert Delivers(s'.procs[e.i]) ==> Reads(s'.procs[e.i]) by {
          hide Effect, Merged, Updated;
        }
      } else {
        StillWrote(s.procs, s'.procs);
      }
      hide Reads, Delivers, SomeoneWrote, SomeoneMarked, Effect, NextProc;
    }
  }

  lemma {:induction false} RunCaused(es: seq<Event>)
    ensures Caused(Runs(es))
  {
    if es != [] {
      RunCaused(es[..|es| - 1]);
      StepCaused(Runs(es[..|es| - 1]), es[|es| - 1]);
    }
  }

  // Somebody who wrote an answer did so in some event of the run.
  lemma {:induction false} WroteSomewhere(es: seq<Event>)
    requires SomeoneWrote(Runs(es).procs)
    ensures exists k :: 0 <= k < |es| && WritesAt(es, k)
  {
    if es != [] {
      var n := |es| - 1;
      var before := es[..n];
      if SomeoneWrote(Runs(before).procs) {
        WroteSomewhere(before);
        var k :| 0 <= k < n && WritesAt(before, k);
        assert before[..k] == es[..k] && before[k] == es[k];
        assert WritesAt(es, k);
      } else {
        FirstWrite(Runs(before), es[n]);
        assert WritesAt(es, n);
      }
    }
  }

  lemma FirstWrite(s: State, e: Event)
    requires !SomeoneWrote(s.procs) && SomeoneWrote(Step(s, e).procs)
    ensures e.Run? && e.i < |s.procs| && s.procs[e.i].pc == Write && s.procs[e.i].role.Writer?
  {
    var i :| 0 <= i < |Step(s, e).procs| && Step(s, e).procs[i].wrote;
    hide Effect, NextPc;
  }

  lemma {:induction false} UnderWayBefore(es: seq<Event>, k: nat, c: nat)
    requires k <= |es| && UnderWay(Runs(es), c)
    ensures UnderWay(Runs(es[..k]), c)
  {
    if k == |es| {
      assert es[..k] == es;
    } else {
      var n := |es| - 1;
      ProcsGrow(Runs(es[..n]), es[n]);
      UnderWayBefore(es[..n], k, c);
      assert es[..n][..k] == es[..k];
    }
  }

  // When an answer was written, process c was under way, which re-reads; and m marked the turn.
  ghost predicate Meets(es: seq<Event>, k: nat, c: nat, m: nat) {
    && k < |es| && WritesAt(es, k) && UnderWay(Runs(es[..k]), c)
    && c < |Runs(es).procs| && Reads(Runs(es).procs[c])
    && m < |Runs(es).procs| && Runs(es).procs[m].marked
  }

  ghost predicate Met(es: seq<Event>) {
    exists k: nat, c: nat, m: nat :: Meets(es, k, c, m)
  }

  lemma MetGrows(es: seq<Event>, e: Event)
    requires Met(es)
    ensures Met(es + [e])
  {
    var k: nat, c: nat, m: nat :| Meets(es, k, c, m);
    var all := es + [e];
    assert all[..|es|] == es && all[..k] == es[..k] && all[k] == es[k];
    ProcsGrow(Runs(es), e);
    assert Meets(all, k, c, m);
  }

  // A process that is about to deliver, and an inbox that holds the answer, come of such a meeting.
  ghost predicate Delivering(s: State) {
    DELIVERY_ID in s.inbox || exists i :: 0 <= i < |s.procs| && (s.procs[i].pc.Check? || s.procs[i].pc.Send?)
  }

  ghost predicate Explained(es: seq<Event>) {
    Delivering(Runs(es)) ==> Met(es)
  }

  lemma LoadMeets(es: seq<Event>, i: nat)
    requires i < |Runs(es).procs| && Runs(es).procs[i].pc == Load && Deliverable(DeliveryOf(Runs(es).rec))
    ensures Met(es)
  {
    var s := Runs(es);
    RunCaused(es);
    WroteSomewhere(es);
    var k :| 0 <= k < |es| && WritesAt(es, k);
    var m :| 0 <= m < |s.procs| && s.procs[m].marked;
    UnderWayBefore(es, k, i);
    assert Meets(es, k, i, m);
  }

  // Delivery begins with the read of a record that is due.
  lemma FirstDelivery(s: State, e: Event)
    requires Delivering(Step(s, e))
    ensures || Delivering(s)
            || (e.Run? && e.i < |s.procs| && s.procs[e.i].pc == Load && Deliverable(DeliveryOf(s.rec)))
  {
    hide DeliveryOf, Deliverable, HoldsFor, Merged, Updated, WithResult;
    if Enabled(s, e) && e.Run? {
      AdvanceMoves(s, e.i);
    }
  }

  lemma {:induction false} RunExplained(es: seq<Event>)
    ensures Explained(es)
  {
    if es != [] {
      var n := |es| - 1;
      var before := es[..n];
      RunExplained(before);
      assert before + [es[n]] == es;
      if Delivering(Runs(es)) {
        FirstDelivery(Runs(before), es[n]);
        if es[n].Run? && es[n].i < |Runs(before).procs| && Runs(before).procs[es[n].i].pc == Load
           && Deliverable(DeliveryOf(Runs(before).rec)) {
          LoadMeets(before, es[n].i);
        }
        MetGrows(before, es[n]);
      }
    }
  }

  /** Exactly when an answer arrives. In every run whose processes are all finished, the ask is settled
      if and only if a receipt was recorded, or, when some answer was written, a process that re-reads
      was still under way, and somebody marked the caller's turn. An answer written by a `complete` that
      trusts an "active" flag, after everybody else is finished, therefore waits for the caller's next
      turn to end. */
  lemma SettledExactly(es: seq<Event>)
    requires forall i :: 0 <= i < |Runs(es).procs| ==> Runs(es).procs[i].pc == Done
    ensures Reached(Runs(es)) <==> Runs(es).recorded || Met(es)
  {
    SettledReaches(es);
    RunExplained(es);
    if Met(es) {
      var k: nat, c: nat, m: nat :| Meets(es, k, c, m);
      UnderWaySettles(es, k, c, m);
    }
  }

  lemma RunsSnoc(es: seq<Event>, e: Event)
    ensures Runs(es + [e]) == Step(Runs(es), e)
  {
    assert (es + [e])[..|es|] == es;
  }

  const PREPARED := EMPTY.(sender := CALLER, delivery := Some(Delivery(Waiting, CALLER, false, "", "")))
  const MARKED := PREPARED.(delivery := Some(Delivery(Waiting, CALLER, true, "", "")))
  const PREPARER := Proc(Asker("", "", false), Done, false, false, false)
  const MARKER := Proc(Marker(CALLER), Done, false, true, false)

  // The ask is prepared, and the caller's turn ends before there is an answer.
  const TURN_ENDED := [Spawn(Asker("", "", false)), Run(0), Spawn(Marker(CALLER))] + [Run(1)] + [Run(1)] + [Run(1)]

  lemma MarkerAloneFinishes()
    ensures Runs(TURN_ENDED) == State(Some(MARKED), {}, false, map[], false, [PREPARER, MARKER])
  {
    var e1, e2, e3 := Spawn(Asker("", "", false)), Run(0), Spawn(Marker(CALLER));
    assert [] + [e1] == [e1] && [e1] + [e2] == [e1, e2] && [e1, e2] + [e3] == [e1, e2, e3];
    RunsSnoc([], e1);
    RunsSnoc([e1], e2);
    assert Runs([e1, e2]) == State(Some(PREPARED), {}, false, map[], false, [PREPARER]);
    RunsSnoc([e1, e2], e3);
    MarkerMarks([e1, e2, e3]);
  }

  lemma MarkerMarks(es: seq<Event>)
    requires Runs(es)
             == State(Some(PREPARED), {}, false, map[], false, [PREPARER, MARKER.(pc := List, marked := false)])
    ensures Runs(es + [Run(1)] + [Run(1)] + [Run(1)])
            == State(Some(MARKED), {}, false, map[], false, [PREPARER, MARKER])
  {
    hide Runs;
    RunsSnoc(es, Run(1));
    RunsSnoc(es + [Run(1)], Run(1));
    RunsSnoc(es + [Run(1)] + [Run(1)], Run(1));
    assert Runs(es + [Run(1)]).procs == [PREPARER, MARKER.(pc := Mark, marked := false)];
    assert Runs(es + [Run(1)] + [Run(1)]).procs == [PREPARER, MARKER.(pc := Load)];
  }

  /** A `complete` that takes its caller to be active when the turn has ended and been marked: all are
      finished, and the answer has reached nobody. */
  lemma StaleCompleteLoses(a: Answer, from: string)
    requires a.rendered != ""
    ensures var s := Runs(TURN_ENDED + [Spawn(Writer(a, Complete(from, true)))] + [Run(2)]);
            && !Settled(s) && |s.procs| == 3 && s.procs[1] == MARKER && s.procs[2].wrote
            && forall i :: 0 <= i < 3 ==> s.procs[i].pc == Done
  {
    MarkerAloneFinishes();
    RunsSnoc(TURN_ENDED, Spawn(Writer(a, Complete(from, true))));
    RunsSnoc(TURN_ENDED + [Spawn(Writer(a, Complete(from, true)))], Run(2));
    hide Runs, WithResult;
  }

  // ---------------------------------------------------------------- both turns ended

  // Whoever dispatched the prompt sent it to this session.
  ghost predicate AimedAt(procs: seq<Proc>, session: string) {
    forall i :: 0 <= i < |procs| && procs[i].role.Asker? ==>
      procs[i].role.target == session || (procs[i].role.target == "" && procs[i].role.lifecycle == "")
  }

  // The session's turn end found the ask, and left it alone.
  predicate LeftAlone(p: Proc, session: string) {
    && p.role.Writer? && p.role.how.TargetEnd? && p.role.how.session == session && p.role.how.coordinated
    && p.pc == Done && !p.wrote && !p.early
  }

  ghost predicate Aimed(s: State, session: string) {
    && (s.rec.Some? ==> s.rec.value.target == "" || s.rec.value.target == session)
    && (s.index != {} ==> s.rec.Some? && s.rec.value.target == session)
  }

  // Until the ask is settled or answered, whoever it was dispatched to is its target, and a turn end
  // of the target that found the ask goes on to write.
  ghost predicate AwaitsTarget(s: State, session: string) {
    !Settled(s) && AimedAt(s.procs, session) && !SomeoneWrote(s.procs) ==>
      && Aimed(s, session)
      && (forall i :: 0 <= i < |s.procs| ==> (s.procs[i].pc == Probe ==> s.index != {}))
      && (forall i :: 0 <= i < |s.procs| ==> !LeftAlone(s.procs[i], session))
  }

  lemma EffectAwaits(s: State, p: Proc, session: string)
    requires !p.wrote && !NextProc(s, p).wrote && p.pc != MarkInbox && p.pc != Drop && !p.pc.RecvMark?
    requires p.role.Asker? ==> p.role.target == session || (p.role.target == "" && p.role.lifecycle == "")
    requires Aimed(s, session)
    ensures var s' := Effect(s, p);
            s.index <= s'.index && Aimed(s', session)
  {
  }

  lemma AdvanceAwaits(s: State, i: nat, session: string)
    requires Inv(s) && Caused(s) && AwaitsTarget(s, session) && i < |s.procs| && s.procs[i].pc != Done
    ensures AwaitsTarget(Advance(s, i), session)
  {
    hide Effect, NextProc, ProcOk, RecOk, LeftAlone, Settled, DeliveryOf, Reads, Delivers;
    var s', p := Advance(s, i), s.procs[i];
    AdvanceMoves(s, i);
    StillWrote(s.procs, s'.procs);
    EffectKeepsOutcome(s, p);
    AdvanceSettled(s, i);
    if !Settled(s') && AimedAt(s'.procs, session) && !SomeoneWrote(s'.procs) {
      assert AimedAt(s.procs, session);
      assert !s'.procs[i].wrote && !p.wrote;
      ProcOkAt(s, i);
      OneAwaits(s, p, session);
      AdvanceAimed(s, i, session);
      hide Aimed, Inv, Moves, Caused;
    }
  }

  // Both read the state beside the processes only.
  lemma AdvanceSettled(s: State, i: nat)
    requires i < |s.procs|
    ensures Settled(Advance(s, i)) <==> Settled(Effect(s, s.procs[i]))
  {
    hide Effect, NextProc, DeliveryOf;
  }

  lemma AdvanceAimed(s: State, i: nat, session: string)
    requires i < |s.procs|
    ensures Aimed(Advance(s, i), session) <==> Aimed(Effect(s, s.procs[i]), session)
    ensures Advance(s, i).index == Effect(s, s.procs[i]).index
  {
    hide Effect, NextProc;
  }

  lemma OneAwaits(s: State, p: Proc, session: string)
    requires ProcOk(s.rec, p) && RecOk(s.rec) && p.pc != Done && !p.wrote && !NextProc(s, p).wrote
    requires !Settled(s) && !Settled(Effect(s, p)) && !Answered(s.rec) && Aimed(s, session)
    requires p.role.Asker? ==> p.role.target == session || (p.role.target == "" && p.role.lifecycle == "")
    requires p.pc == Probe ==> s.index != {}
    ensures Aimed(Effect(s, p), session) && s.index <= Effect(s, p).index
    ensures (NextProc(s, p).pc == Probe ==> s.index != {}) && !LeftAlone(NextProc(s, p), session)
  {
    if !p.pc.RecvMark? {
      EffectAwaits(s, p, session);
      NextAwaits(s, p, session);
      hide Effect, NextProc, ProcOk, RecOk, Aimed, LeftAlone, Settled;
    }
  }

  lemma NextAwaits(s: State, p: Proc, session: string)
    requires ProcOk(s.rec, p) && p.pc != Done && !NextProc(s, p).wrote && !Answered(s.rec) && !p.pc.RecvMark?
    requires Aimed(s, session)
    requires p.pc == Probe ==> s.index != {}
    ensures (NextProc(s, p).pc == Probe ==> s.index != {}) && !LeftAlone(NextProc(s, p), session)
  {
  }

  lemma SpawnAwaits(s: State, role: Role, session: string)
    requires AwaitsTarget(s, session)
    ensures AwaitsTarget(s.(procs := s.procs + [Proc(role, Entry(role), false, false, false)]), session)
  {
    var procs := s.procs + [Proc(role, Entry(role), false, false, false)];
    assert AimedAt(procs, session) ==> AimedAt(s.procs, session) by {
      assert forall k :: 0 <= k < |s.procs| ==> procs[k] == s.procs[k];
    }
    StillWrote(s.procs, procs);
  }

  lemma {:induction false} RunAwaits(es: seq<Event>, session: string)
    ensures AwaitsTarget(Runs(es), session)
  {
    if es != [] {
      var s, e := Runs(es[..|es| - 1]), es[|es| - 1];
      RunAwaits(es[..|es| - 1], session);
      RunInv(es[..|es| - 1]);
      RunCaused(es[..|es| - 1]);
      if Enabled(s, e) {
        match e
        case Run(i) => AdvanceAwaits(s, i, session);
        case Spawn(role) => SpawnAwaits(s, role, session);
        case JournalReceipt =>
      }
      hide Advance, AwaitsTarget, Entry;
    }
  }

  lemma WrittenSettles(s: State, m: nat)
    requires Inv(s) && SomeoneWrote(s.procs)
    requires m < |s.procs| && s.procs[m].role == Marker(CALLER) && s.procs[m].pc == Done && !s.procs[m].early
    requires forall i :: 0 <= i < |s.procs| && s.procs[i].role.Writer? ==>
               Handshakes(s.procs[i]) && s.procs[i].pc == Done
    ensures Settled(s)
  {
    var k :| 0 <= k < |s.procs| && s.procs[k].wrote;
  }

  /** A caller whose turn has ended does not wait for ever: once the turn of the session its prompt was
      dispatched to has ended too, after the dispatch, and both handlers are finished, and every result
      writer, none of them trusting an "active" flag, is finished, the ask is settled. */
  lemma EndedTurnsSettle(es: seq<Event>, w: nat, m: nat)
    requires var s := Runs(es);
             && w < |s.procs| && s.procs[w].role.Writer? && s.procs[w].role.how.TargetEnd? && s.procs[w].pc == Done
             && s.procs[w].role.how.coordinated && !s.procs[w].early && AimedAt(s.procs, s.procs[w].role.how.session)
             && m < |s.procs| && s.procs[m].role == Marker(CALLER) && s.procs[m].pc == Done && !s.procs[m].early
    requires var s := Runs(es);
             forall i :: 0 <= i < |s.procs| && s.procs[i].role.Writer? ==>
               Handshakes(s.procs[i]) && s.procs[i].pc == Done
    ensures Reached(Runs(es))
  {
    SettledReaches(es);
    var s := Runs(es);
    var session := s.procs[w].role.how.session;
    RunInv(es);
    RunAwaits(es, session);
    if !Settled(s) {
      assert s.procs[w].wrote || LeftAlone(s.procs[w], session);
      WrittenSettles(s, m);
    }
  }

  // ---------------------------------------------------------------- what is recorded is true

  // A recorded receipt is in the journal, and unless one is recorded, the inbox holds nothing but
  // a message to the caller.
  ghost predicate Truthful(s: State) {
    && (s.recorded ==> s.journal)
    && (forall i :: 0 <= i < |s.procs| ==> ReceiptSeen(s, s.procs[i]))
    && s.inbox.Keys <= {DELIVERY_ID}
    && (DELIVERY_ID in s.inbox && !s.recorded ==> s.inbox[DELIVERY_ID].recipient == CALLER)
  }

  predicate ReceiptSeen(s: State, p: Proc) {
    p.pc.RecvLoad? || p.pc.RecvMark? ==> s.journal
  }

  lemma AdvanceTruthful(s: State, i: nat)
    requires Truthful(s) && Inv(s) && i < |s.procs| && s.procs[i].pc != Done
    ensures Truthful(Advance(s, i))
  {
    var s' := Advance(s, i);
    AdvanceMoves(s, i);
    assert ReceiptSeen(s, s.procs[i]);
    assert ReceiptSeen(s', s'.procs[i]);
    forall k | 0 <= k < |s'.procs| ensures ReceiptSeen(s', s'.procs[k]) {
      assert ReceiptSeen(s, s.procs[k]);
    }
    if s.procs[i].pc.Send? && !Settled(s) {
      assert ProcOk(s.rec, s.procs[i]);
    }
    hide NextProc, ProcOk, Moves, ReceiptSeen, Merged, Updated, WithResult, DeliveryOf;
  }

  lemma {:induction false} RunTruthful(es: seq<Event>)
    ensures Truthful(Runs(es))
  {
    if es != [] {
      var s, e := Runs(es[..|es| - 1]), es[|es| - 1];
      RunTruthful(es[..|es| - 1]);
      RunInv(es[..|es| - 1]);
      if Enabled(s, e) {
        match e
        case Run(i) => AdvanceTruthful(s, i);
        case _ =>
          forall k | 0 <= k < |Step(s, e).procs| ensures ReceiptSeen(Step(s, e), Step(s, e).procs[k]) {
            if k < |s.procs| {
              assert ReceiptSeen(s, s.procs[k]);
            }
          }
      }
      hide Advance;
    }
  }

  // ---------------------------------------------------------------- what arrives is an answer

  // Some process has written this answer.
  ghost predicate Wrote(procs: seq<Proc>, a: Answer) {
    exists i :: 0 <= i < |procs| && procs[i].wrote && procs[i].role.Writer? && procs[i].role.answer == a
  }

  // A process that writes a target of the ask: the asker, the answer, or the sender `complete` falls back on.
  predicate Names(role: Role, target: string) {
    match role
    case Asker(t, _, _) => t == target
    case Writer(a, how) => a.target == target || (how.Complete? && how.from == target)
    case _ => false
  }

  ghost predicate Named(procs: seq<Proc>, target: string) {
    target == "" || exists i :: 0 <= i < |procs| && Names(procs[i].role, target)
  }

  // The message is an answer that was written, in its own words or rendered; it comes from the target
  // the answer names, or from one that was named for the ask.
  ghost predicate Carries(procs: seq<Proc>, sender: string, message: string) {
    && Named(procs, sender)
    && exists a :: && Wrote(procs, a) && message == (if a.content != "" then a.content else a.rendered)
                   && (a.target != "" ==> sender == a.target)
  }

  ghost predicate DeliverySourced(procs: seq<Proc>, d: Delivery) {
    Named(procs, d.fallbackSender) && (d.fallback != "" ==> Carries(procs, d.fallbackSender, d.fallback))
  }

  ghost predicate RecSourced(procs: seq<Proc>, r: Option<Record>) {
    && (Answered(r) ==> Wrote(procs, r.value.result.value))
    && (r.Some? ==> Named(procs, r.value.target))
    && DeliverySourced(procs, DeliveryOf(r))
  }

  ghost predicate ProcSourced(procs: seq<Proc>, p: Proc) {
    && (p.pc.Check? ==> p.pc.d.fallback != "" && DeliverySourced(procs, p.pc.d))
    && (p.pc.Send? ==> p.pc.d.fallback != "" && DeliverySourced(procs, p.pc.d))
  }

  ghost predicate Sourced(s: State) {
    && RecSourced(s.procs, s.rec)
    && (forall i :: 0 <= i < |s.procs| ==> ProcSourced(s.procs, s.procs[i]))
    && (DELIVERY_ID in s.inbox ==> Carries(s.procs, s.inbox[DELIVERY_ID].sender, s.inbox[DELIVERY_ID].message))
  }

  // Later processes have written and named no less.
  ghost predicate Extends(procs: seq<Proc>, later: seq<Proc>) {
    |procs| <= |later| && forall k :: 0 <= k < |procs| ==> Moves(procs[k], later[k])
  }

  lemma NamedGrows(procs: seq<Proc>, later: seq<Proc>, target: string)
    requires Extends(procs, later) && Named(procs, target)
    ensures Named(later, target)
  {
    if target != "" {
      var i :| 0 <= i < |procs| && Names(procs[i].role, target);
      assert Names(later[i].role, target);
    }
  }

  lemma WroteGrows(procs: seq<Proc>, later: seq<Proc>, a: Answer)
    requires Extends(procs, later) && Wrote(procs, a)
    ensures Wrote(later, a)
  {
    var i :| 0 <= i < |procs| && procs[i].wrote && procs[i].role.Writer? && procs[i].role.answer == a;
    assert later[i].wrote && later[i].role == procs[i].role;
  }

  lemma CarriesGrows(procs: seq<Proc>, later: seq<Proc>, sender: string, message: string)
    requires Extends(procs, later) && Carries(procs, sender, message)
    ensures Carries(later, sender, message)
  {
    NamedGrows(procs, later, sender);
    var a :| && Wrote(procs, a) && message == (if a.content != "" then a.content else a.rendered)
             && (a.target != "" ==> sender == a.target);
    WroteGrows(procs, later, a);
    hide Wrote, Named, Extends;
  }

  lemma DeliveryGrows(procs: seq<Proc>, later: seq<Proc>, d: Delivery)
    requires Extends(procs, later) && DeliverySourced(procs, d)
    ensures DeliverySourced(later, d)
  {
    hide Carries, Named, Extends;
    NamedGrows(procs, later, d.fallbackSender);
    if d.fallback != "" {
      CarriesGrows(procs, later, d.fallbackSender, d.fallback);
    }
  }

  lemma RecGrows(procs: seq<Proc>, later: seq<Proc>, r: Option<Record>)
    requires Extends(procs, later) && RecSourced(procs, r)
    ensures RecSourced(later, r)
  {
    hide Wrote, Named, Extends, DeliverySourced, DeliveryOf;
    DeliveryGrows(procs, later, DeliveryOf(r));
    if r.Some? {
      NamedGrows(procs, later, r.value.target);
    }
    if Answered(r) {
      WroteGrows(procs, later, r.value.result.value);
    }
  }

  lemma MergedSourced(procs: seq<Proc>, r: Option<Record>, f: Fields)
    requires RecSourced(procs, r) && Named(procs, f.target)
    requires f.result.Some? ==> Wrote(procs, f.result.value) && Named(procs, f.result.value.target)
    requires Answered(r) ==> Named(procs, r.value.result.value.target)
    ensures RecSourced(procs, Some(Merged(r, f)))
  {
    hide Wrote, Named;
    var m := Merged(r, f);
    if m.result.Some? && m.delivery.Some? {
      var a, d := m.result.value, m.delivery.value;
      assert d.fallback == if a.content != "" then a.content else a.rendered;
      assert Named(procs, d.fallbackSender) && (a.target != "" ==> d.fallbackSender == a.target);
      assert Carries(procs, d.fallbackSender, d.fallback);
    }
  }

  lemma AnswerNamed(procs: seq<Proc>, a: Answer)
    requires Wrote(procs, a)
    ensures Named(procs, a.target)
  {
    var i :| 0 <= i < |procs| && procs[i].wrote && procs[i].role.Writer? && procs[i].role.answer == a;
    assert Names(procs[i].role, a.target);
  }

  lemma UpdatedSourced(procs: seq<Proc>, r: Option<Record>, u: Update)
    requires RecSourced(procs, r)
    ensures RecSourced(procs, Some(Updated(r, u)))
  {
    hide Wrote, Carries;
  }

  lemma EffectSourced(s: State, p: Proc, later: seq<Proc>)
    requires RecSourced(later, s.rec) && ProcSourced(later, p)
    requires DELIVERY_ID in s.inbox ==> Carries(later, s.inbox[DELIVERY_ID].sender, s.inbox[DELIVERY_ID].message)
    requires p.pc == Seed && p.role.Asker? ==> Named(later, p.role.target)
    requires p.pc == Write && p.role.Writer? ==>
               Wrote(later, p.role.answer) && (p.role.how.Complete? ==> Named(later, p.role.how.from))
    ensures RecSourced(later, Effect(s, p).rec)
    ensures var inbox := Effect(s, p).inbox;
            DELIVERY_ID in inbox ==> Carries(later, inbox[DELIVERY_ID].sender, inbox[DELIVERY_ID].message)
  {
    if Answered(s.rec) {
      AnswerNamed(later, s.rec.value.result.value);
    }
    match p.pc
    case Seed =>
      if p.role.Asker? {
        MergedSourced(later, s.rec, Fields(CALLER, p.role.target, p.role.lifecycle, None));
      }
    case Write =>
      if p.role.Writer? {
        var from := if p.role.how.Complete? then p.role.how.from else "";
        AnswerNamed(later, p.role.answer);
        MergedSourced(later, s.rec, Fields("", from, "", Some(p.role.answer)));
      }
    case Mark => UpdatedSourced(later, s.rec, MarkTerminal);
    case MarkInbox => UpdatedSourced(later, s.rec, MarkInboxed);
    case RecvMark(c) => UpdatedSourced(later, s.rec, MarkReceived(c));
    case _ =>
  }

  lemma AdvanceSourced(s: State, i: nat)
    requires Sourced(s) && i < |s.procs|
    ensures Sourced(Advance(s, i))
  {
    var later, p := Advance(s, i).procs, s.procs[i];
    AdvanceMoves(s, i);
    assert Extends(s.procs, later);
    RecGrows(s.procs, later, s.rec);
    forall k | 0 <= k < |s.procs| ensures ProcSourced(later, s.procs[k]) {
      ProcGrows(s.procs, later, s.procs[k]);
    }
    if DELIVERY_ID in s.inbox {
      CarriesGrows(s.procs, later, s.inbox[DELIVERY_ID].sender, s.inbox[DELIVERY_ID].message);
    }
    OwnWrite(s, i);
    EffectSourced(s, p, later);
    NextSourced(s, p, later);
    hide Effect, NextProc, RecSourced, ProcSourced, Carries, Extends, Wrote, Named, Moves;
  }

  lemma ProcGrows(procs: seq<Proc>, later: seq<Proc>, p: Proc)
    requires Extends(procs, later) && ProcSourced(procs, p)
    ensures ProcSourced(later, p)
  {
    hide DeliverySourced, Extends;
    if p.pc.Check? || p.pc.Send? {
      DeliveryGrows(procs, later, p.pc.d);
    }
  }

  // The process that writes has written, and what it names is named.
  lemma OwnWrite(s: State, i: nat)
    requires i < |s.procs|
    ensures var later, p := Advance(s, i).procs, s.procs[i];
            && (p.pc == Seed && p.role.Asker? ==> Named(later, p.role.target))
            && (p.pc == Write && p.role.Writer? ==>
                  Wrote(later, p.role.answer) && (p.role.how.Complete? ==> Named(later, p.role.how.from)))
  {
    var later, p := Advance(s, i).procs, s.procs[i];
    assert later[i].role == p.role && (p.pc == Write && p.role.Writer? ==> later[i].wrote);
    hide NextPc, Effect;
    if p.pc == Seed && p.role.Asker? {
      assert Names(later[i].role, p.role.target);
    }
    if p.pc == Write && p.role.Writer? && p.role.how.Complete? {
      assert Names(later[i].role, p.role.how.from);
    }
  }

  lemma NextSourced(s: State, p: Proc, later: seq<Proc>)
    requires RecSourced(later, s.rec) && ProcSourced(later, p)
    ensures ProcSourced(later, NextProc(s, p))
  {
    hide DeliverySourced, HoldsFor, Wanted, Updated, Wrote, Named;
  }

  lemma {:induction false} RunSourced(es: seq<Event>)
    ensures Sourced(Runs(es))
  {
    if es != [] {
      var s, e := Runs(es[..|es| - 1]), es[|es| - 1];
      RunSourced(es[..|es| - 1]);
      if Enabled(s, e) {
        match e
        case Run(i) => AdvanceSourced(s, i);
        case Spawn(role) => SpawnSourced(s, role);
        case JournalReceipt =>
      }
      hide Advance, RecSourced, ProcSourced, Carries;
    }
  }

  lemma SpawnSourced(s: State, role: Role)
    requires Sourced(s)
    ensures Sourced(s.(procs := s.procs + [Proc(role, Entry(role), false, false, false)]))
  {
    var later := s.procs + [Proc(role, Entry(role), false, false, false)];
    assert Extends(s.procs, later);
    RecGrows(s.procs, later, s.rec);
    forall k | 0 <= k < |s.procs| ensures ProcSourced(later, s.procs[k]) {
      ProcGrows(s.procs, later, s.procs[k]);
    }
    if DELIVERY_ID in s.inbox {
      CarriesGrows(s.procs, later, s.inbox[DELIVERY_ID].sender, s.inbox[DELIVERY_ID].message);
    }
    hide RecSourced, Carries, Extends;
  }

  // The receipt is recorded, or the caller's inbox holds an answer that was written.
  ghost predicate Reached(s: State) {
    || s.recorded
    || (DELIVERY_ID in s.inbox && s.inbox[DELIVERY_ID].recipient == CALLER
        && Carries(s.procs, s.inbox[DELIVERY_ID].sender, s.inbox[DELIVERY_ID].message))
  }

  /** Whatever the inbox holds is an answer some process wrote, and without a recorded receipt it is
      addressed to the caller. */
  lemma SettledReaches(es: seq<Event>)
    ensures var s := Runs(es);
            && (Settled(s) <==> Reached(s))
            && (DELIVERY_ID in s.inbox ==> Carries(s.procs, s.inbox[DELIVERY_ID].sender, s.inbox[DELIVERY_ID].message))
  {
    RunSourced(es);
    RunTruthful(es);
    hide Carries, Runs, RecSourced, ProcSourced, ReceiptSeen;
  }

  // ---------------------------------------------------------------- every process finishes

  // How many steps a process has left at most.
  function Left(pc: Pc): nat {
    match pc
    case Done => 0
    case Drop => 1
    case MarkInbox => 2
    case RecvMark(_) => 2
    case Send(_) => 3
    case RecvLoad(_) => 3
    case Check(_) => 4
    case Load => 5
    case Mark => 6
    case Reread => 6
    case List => 7
    case Seed => 7
    case Write => 8
    case Probe => 9
    case Lookup => 10
  }

  /** Whatever the others do, each step of a process brings it nearer to its end: none takes more than ten. */
  lemma StepNearsEnd(s: State, i: nat)
    requires i < |s.procs| && s.procs[i].pc != Done
    ensures Left(Step(s, Run(i)).procs[i].pc) < Left(s.procs[i].pc) <= 10
  {
    hide Effect, HoldsFor, Wanted, LooksEarly, Updated;
  }

  // ---------------------------------------------------------------- one delivery by itself

  function RunTimes(s: State, i: nat, n: nat): (r: State)
    ensures |r.procs| == |s.procs|
    decreases n
  {
    if n == 0 then s else RunTimes(Step(s, Run(i)), i, n - 1)
  }

  /** `deliver_if_needed` by itself: an undelivered record of an ended turn that has an answer is acknowledged
      when the caller's journal holds the receipt, and else put into its inbox, unless that has it already;
      and either way it is deleted. Any other record is left alone. */
  lemma DeliversAlone(s: State, i: nat)
    requires i < |s.procs| && s.procs[i].pc == Load
    ensures var d := DeliveryOf(s.rec);
            if d.state in {Pending, Waiting} && d.terminal && d.fallback != "" then
              var s' := RunTimes(s, i, 5);
              && s'.procs[i].pc == Done && s'.rec.None?
              && if d.caller != "" && s.journal then s'.recorded && s'.inbox == s.inbox
                 else s'.inbox == (if DELIVERY_ID in s.inbox then s.inbox
                                   else s.inbox[DELIVERY_ID := Mail(d.fallbackSender, d.caller, d.fallback)])
            else Step(s, Run(i)) == s.(procs := s.procs[i := s.procs[i].(pc := Done)])
  {
    var d := DeliveryOf(s.rec);
    if Deliverable(d) {
      var s1 := Step(s, Run(i));
      assert s1 == s.(procs := s.procs[i := s.procs[i].(pc := Check(d))]);
      if d.caller != "" && s.journal {
        AcknowledgesAlone(s1, i, d);
      } else {
        SendsAlone(s1, i, d);
      }
      FourMore(s, i);
      hide Step, RunTimes;
    }
  }

  lemma FourMore(s: State, i: nat)
    ensures RunTimes(s, i, 5) == RunTimes(Step(s, Run(i)), i, 4)
  {
    hide Step;
  }

  lemma FourSteps(s: State, i: nat)
    ensures RunTimes(s, i, 4) == Step(Step(Step(Step(s, Run(i)), Run(i)), Run(i)), Run(i))
  {
    hide Step;
    var s1 := Step(s, Run(i));
    var s2 := Step(s1, Run(i));
    var s3 := Step(s2, Run(i));
    assert RunTimes(s3, i, 1) == RunTimes(Step(s3, Run(i)), i, 0);
  }

  lemma SendsAlone(s: State, i: nat, d: Delivery)
    requires i < |s.procs| && s.procs[i].pc == Check(d) && !(d.caller != "" && s.journal)
    ensures var s' := RunTimes(s, i, 4);
            && s'.procs[i].pc == Done && s'.rec.None?
            && s'.inbox == if DELIVERY_ID in s.inbox then s.inbox
                           else s.inbox[DELIVERY_ID := Mail(d.fallbackSender, d.caller, d.fallback)]
  {
    FourSteps(s, i);
    hide RunTimes, Step;
    Checks(s, i, d);
    var s1 := Step(s, Run(i));
    Sends(s1, i, d);
    var s2 := Step(s1, Run(i));
    Inboxes(s2, i);
    var s3 := Step(s2, Run(i));
    Drops(s3, i);
  }

  lemma Checks(s: State, i: nat, d: Delivery)
    requires i < |s.procs| && s.procs[i].pc == Check(d) && !(d.caller != "" && s.journal)
    ensures var s' := Step(s, Run(i));
            s' == s.(procs := s'.procs) && |s'.procs| == |s.procs| && s'.procs[i].pc == Send(d)
  {
    hide Merged, WithResult, Updated, HoldsFor, Wanted;
  }

  lemma Sends(s: State, i: nat, d: Delivery)
    requires i < |s.procs| && s.procs[i].pc == Send(d)
    ensures var s' := Step(s, Run(i));
            && |s'.procs| == |s.procs| && s'.procs[i].pc == MarkInbox
            && s'.inbox == if DELIVERY_ID in s.inbox then s.inbox
                           else s.inbox[DELIVERY_ID := Mail(d.fallbackSender, d.caller, d.fallback)]
  {
    hide Merged, WithResult, Updated, HoldsFor, Wanted;
  }

  lemma Inboxes(s: State, i: nat)
    requires i < |s.procs| && s.procs[i].pc == MarkInbox
    ensures var s' := Step(s, Run(i));
            |s'.procs| == |s.procs| && s'.procs[i].pc == Drop && s'.inbox == s.inbox
  {
    hide Merged, WithResult, Updated, HoldsFor, Wanted;
  }

  lemma AcknowledgesAlone(s: State, i: nat, d: Delivery)
    requires i < |s.procs| && s.procs[i].pc == Check(d) && d.caller != "" && s.journal
    requires s.rec.Some? && DeliveryOf(s.rec) == d && d.state != Inboxed
    ensures var s' := RunTimes(s, i, 4);
            s'.procs[i].pc == Done && s'.rec.None? && s'.recorded && s'.inbox == s.inbox
  {
    FourSteps(s, i);
    ReceiptAlone(Step(s, Run(i)), i, d.caller);
    hide RunTimes, Merged, WithResult, HoldsFor, Wanted;
  }

  // `mark_received`, of a record that the inbox did not have first.
  lemma ReceiptAlone(s: State, i: nat, caller: string)
    requires i < |s.procs| && s.procs[i].pc == RecvLoad(caller)
    requires s.rec.Some? && DeliveryOf(s.rec).caller == caller && DeliveryOf(s.rec).state != Inboxed
    ensures var s' := Step(Step(Step(s, Run(i)), Run(i)), Run(i));
            |s'.procs| == |s.procs| && s'.procs[i].pc == Done && s'.rec.None? && s'.recorded && s'.inbox == s.inbox
  {
    hide Merged, WithResult, HoldsFor, Wanted;
    var s1 := Step(s, Run(i));
    assert s1.procs[i].pc == RecvMark(caller) && s1.rec == s.rec && s1.inbox == s.inbox;
    var s2 := Step(s1, Run(i));
    assert s2.procs[i].pc == Drop && s2.recorded && s2.inbox == s.inbox;
  }

  /** A receipt that is written to the journal is recorded by its handler, whatever state of the handshake it
      meets: in every reachable state with an ask not yet settled. */
  lemma ReceiptIsRecorded(es: seq<Event>)
    requires var s := Runs(es); !Settled(s) && Prepared(s.rec)
    ensures var s := Runs(es);
            var i, s1 := |s.procs|, Step(Step(s, JournalReceipt), Spawn(Receiver(CALLER)));
            var s' := Step(Step(Step(s1, Run(i)), Run(i)), Run(i));
            |s'.procs| == i + 1 && s'.procs[i].pc == Done && s'.recorded && s'.rec.None? && s'.inbox == s.inbox
  {
    var s := Runs(es);
    RunInv(es);
    var s1 := Step(Step(s, JournalReceipt), Spawn(Receiver(CALLER)));
    assert s1 == s.(journal := true, procs := s1.procs) && s1.procs[|s.procs|].pc == RecvLoad(CALLER);
    hide Step, Runs, ProcOk, PairsOk;
    ReceiptAlone(s1, |s.procs|, CALLER);
  }

  // ---------------------------------------------------------------- the others by themselves

  // A new process, run n times.
  function Alone(s: State, role: Role, n: nat): State {
    RunTimes(Step(s, Spawn(role)), |s.procs|, n)
  }

  lemma AloneSteps(s: State, role: Role)
    ensures Alone(s, role, 1) == Step(Step(s, Spawn(role)), Run(|s.procs|))
    ensures Alone(s, role, 2) == Step(Alone(s, role, 1), Run(|s.procs|))
    ensures Alone(s, role, 3) == Step(Alone(s, role, 2), Run(|s.procs|))
  {
    hide Step;
    var i, s0 := |s.procs|, Step(s, Spawn(role));
    var s1 := Step(s0, Run(i));
    var s2 := Step(s1, Run(i));
    var s3 := Step(s2, Run(i));
    assert RunTimes(s1, i, 0) == s1 && RunTimes(s2, i, 0) == s2 && RunTimes(s3, i, 0) == s3;
    assert RunTimes(s1, i, 1) == s2 && RunTimes(s2, i, 1) == s3 && RunTimes(s1, i, 2) == s3;
  }

  /** `on_target_turn_terminal` writes its result exactly for the ask its lifecycle id leads to, if that has
      no answer, is asked of this session, and there is a coordinator. */
  lemma TurnEndAlone(s: State, a: Answer, session: string, lifecycle: string, coordinated: bool)
    requires a.rendered != ""
    ensures Alone(s, Writer(a, TargetEnd(session, lifecycle, coordinated)), 3).rec
            == if lifecycle in s.index && s.rec.Some? && s.rec.value.result.None? && s.rec.value.target == session
                  && coordinated
               then Some(WithResult(s.rec, "", a)) else s.rec
  {
    var role, i := Writer(a, TargetEnd(session, lifecycle, coordinated)), |s.procs|;
    AloneSteps(s, role);
    hide Alone, RunTimes, WithResult, HoldsFor;
    var s0 := Step(s, Spawn(role));
    assert s0 == s.(procs := s0.procs) && s0.procs[i].pc == Lookup;
    var s1 := Alone(s, role, 1);
    assert s1 == s.(procs := s1.procs);
    var s2 := Alone(s, role, 2);
    assert s2 == s.(procs := s2.procs);
  }

  /** The other writers write at once: `complete` names the sender to fall back on. */
  lemma WriterAlone(s: State, a: Answer, how: How)
    requires a.rendered != "" && !how.TargetEnd?
    ensures var s' := Alone(s, Writer(a, how), 1);
            && s'.rec == Some(WithResult(s.rec, if how.Complete? then how.from else "", a))
            && s'.procs[|s.procs|].pc == (if how == Async then Reread else if how.callerActive then Done else List)
  {
    AloneSteps(s, Writer(a, how));
    hide Alone, RunTimes, WithResult;
  }

  /** `prepare` and the dispatch write the caller, the target and the lifecycle id, which leads to the ask from
      then on; the dispatch reads again. */
  lemma AskerAlone(s: State, target: string, lifecycle: string, rereads: bool)
    ensures var s' := Alone(s, Asker(target, lifecycle, rereads), 1);
            && s'.rec == Some(Merged(s.rec, Fields(CALLER, target, lifecycle, None)))
            && s'.index == (if lifecycle == "" then s.index else s.index + {lifecycle})
            && |s'.procs| == |s.procs| + 1 && s'.procs[|s.procs|].pc == if rereads then Reread else Done
  {
    AloneSteps(s, Asker(target, lifecycle, rereads));
    hide Alone, RunTimes, Merged;
  }

  /** `mark_caller_terminal` marks exactly an undelivered record of its caller, and then delivers it. */
  lemma MarkerAlone(s: State, caller: string)
    ensures var marks := caller != "" && Prepared(s.rec) && DeliveryOf(s.rec).caller == caller
                         && DeliveryOf(s.rec).state !in {Received, Inboxed};
            var s' := Alone(s, Marker(caller), 2);
            && s'.rec == (if marks then Some(Updated(s.rec, MarkTerminal)) else s.rec)
            && (marks ==> |s'.procs| == |s.procs| + 1 && s'.procs[|s.procs|].pc == Load)
  {
    AloneSteps(s, Marker(caller));
    if caller != "" {
      var i, s0 := |s.procs|, Step(s, Spawn(Marker(caller)));
      assert s0 == s.(procs := s0.procs) && |s0.procs| == i + 1;
      assert s0.procs[i] == Proc(Marker(caller), List, false, false, false);
      hide Alone, RunTimes, Step, DeliveryOf, Prepared;
      Lists(s0, i);
      var s1 := Step(s0, Run(i));
      if s1.procs[i].pc == Done {
        Rests(s1, i);
      } else {
        Marks(s1, i);
      }
    } else {
      NobodyMarks(s);
    }
  }

  lemma NobodyMarks(s: State)
    ensures Step(s, Spawn(Marker(""))) == s && Step(s, Run(|s.procs|)) == s
  {
  }

  lemma Lists(s: State, i: nat)
    requires i < |s.procs| && s.procs[i].pc == List && s.procs[i].role.Marker?
    ensures var s' := Step(s, Run(i));
            && s' == s.(procs := s'.procs) && |s'.procs| == |s.procs|
            && s'.procs[i].pc == if Prepared(s.rec) && DeliveryOf(s.rec).caller == s.procs[i].role.caller
                                    && DeliveryOf(s.rec).state !in {Received, Inboxed} then Mark else Done
  {
    hide Merged, WithResult, Updated, DeliveryOf, Wanted, Prepared;
  }

  lemma Marks(s: State, i: nat)
    requires i < |s.procs| && s.procs[i].pc == Mark
    ensures var s' := Step(s, Run(i));
            && s' == s.(procs := s'.procs, rec := Some(Updated(s.rec, MarkTerminal)))
            && |s'.procs| == |s.procs| && s'.procs[i].pc == Load
  {
    hide Merged, WithResult, Updated, HoldsFor, Wanted;
  }

  lemma RecvLoads(s: State, i: nat, caller: string)
    requires i < |s.procs| && s.procs[i].pc == RecvLoad(caller)
    ensures var s' := Step(s, Run(i));
            && s' == s.(procs := s'.procs) && |s'.procs| == |s.procs|
            && s'.procs[i].pc == if s.rec.Some? && DeliveryOf(s.rec).caller == caller then RecvMark(caller) else Done
  {
    hide Merged, WithResult, Updated, HoldsFor, Wanted, DeliveryOf;
  }

  lemma RecvMarks(s: State, i: nat, caller: string)
    requires i < |s.procs| && s.procs[i].pc == RecvMark(caller) && s.rec.Some? && DeliveryOf(s.rec).caller == caller
    ensures var s', received := Step(s, Run(i)), DeliveryOf(s.rec).state != Inboxed;
            && s' == s.(procs := s'.procs, rec := s'.rec, recorded := s.recorded || received)
            && |s'.procs| == |s.procs| && s'.procs[i].pc == (if received then Drop else Done)
            && (!received ==> s'.rec == s.rec)
  {
    hide Merged, WithResult, HoldsFor, Wanted;
  }

  lemma Drops(s: State, i: nat)
    requires i < |s.procs| && s.procs[i].pc == Drop
    ensures var s' := Step(s, Run(i));
            && s' == s.(procs := s'.procs, rec := None, index := s'.index)
            && |s'.procs| == |s.procs| && s'.procs[i].pc == Done
  {
    hide Merged, WithResult, Updated, HoldsFor, Wanted;
  }

  lemma Rests(s: State, i: nat)
    requires i < |s.procs| && s.procs[i].pc == Done
    ensures Step(s, Run(i)) == s
  {
  }

  /** `mark_received` deletes exactly a record of its caller that the inbox did not have first. */
  lemma ReceiverAlone(s: State, caller: string)
    requires caller != "" && s.journal
    ensures var received := s.rec.Some? && DeliveryOf(s.rec).caller == caller && DeliveryOf(s.rec).state != Inboxed;
            var s' := Alone(s, Receiver(caller), 3);
            && s'.rec == (if received then None else s.rec) && s'.inbox == s.inbox
            && s'.recorded == (s.recorded || received)
  {
    AloneSteps(s, Receiver(caller));
    var i, s0 := |s.procs|, Step(s, Spawn(Receiver(caller)));
    assert s0 == s.(procs := s0.procs) && |s0.procs| == i + 1 && s0.procs[i].pc == RecvLoad(caller);
    hide Alone, RunTimes, Step, DeliveryOf;
    RecvLoads(s0, i, caller);
    var s1 := Step(s0, Run(i));
    if s1.procs[i].pc == Done {
      Rests(s1, i);
    } else {
      RecvMarks(s1, i, caller);
      var s2 := Step(s1, Run(i));
      if s2.procs[i].pc == Done {
        Rests(s2, i);
      } else {
        Drops(s2, i);
      }
    }
  }

  /** The last two writes of a delivery: the inbox is noted in the record, and the record goes with the entry of
      the lifecycle id it has; and a re-read goes on to deliver exactly when there is something to deliver. */
  lemma ClosesDelivery(s: State, i: nat)
    requires i < |s.procs|
    ensures var s', d := Step(s, Run(i)), DeliveryOf(s.rec);
            && (s.procs[i].pc == MarkInbox ==> s'.rec.Some? && DeliveryOf(s'.rec) == d.(state := Inboxed))
            && (s.procs[i].pc == Drop ==> s'.rec.None? && s'.index == s.index - {Current(s.rec).lifecycle})
            && (s.procs[i].pc == Reread ==>
                  s' == s.(procs := s'.procs)
                  && s'.procs[i].pc == if d.terminal && d.fallback != "" then Load else Done)
  {
    hide Merged, WithResult, HoldsFor, Wanted;
  }
}
