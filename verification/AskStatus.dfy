/** The ask-status record of `ask_status_store.py`: one record per ask, changed only by locked
    read-modify-writes. */
module AskStatus {
  import opened Wrappers

  // NoState: a delivery without a "state" field, left behind by an update of a deleted record.
  datatype DeliveryState = NoState | Waiting | Pending | Received | Inboxed

  // An empty string stands for a missing or empty field.
  datatype Delivery = Delivery(state: DeliveryState, caller: string, terminal: bool,
                               fallback: string, fallbackSender: string)

  datatype Answer = Answer(content: string, rendered: string, target: string)

  datatype Route = Route(kind: string, value: string, affinity: string)

  datatype Record = Record(sender: string, target: string, lifecycle: string, route: Option<Route>,
                           result: Option<Answer>, delivery: Option<Delivery>)

  const EMPTY := Record("", "", "", None, None, None)
  const BLANK := Delivery(NoState, "", false, "", "")

  function Current(r: Option<Record>): Record {
    if r.Some? then r.value else EMPTY
  }

  function DeliveryOf(r: Option<Record>): Delivery {
    if r.Some? && r.value.delivery.Some? then r.value.delivery.value else BLANK
  }

  predicate Final(d: DeliveryState) {
    d == Received || d == Inboxed
  }

  // `_project_result`: nothing without a delivery; a final state stays, any other becomes pending.
  function Projected(r: Record, a: Answer): Record {
    if r.delivery.None? then r
    else
      var d := r.delivery.value;
      var from := if a.target != "" then a.target else r.target;
      var d1 := if Final(d.state) then d else d.(state := Pending);
      var d2 := if from != "" then d1.(fallbackSender := from) else d1;
      r.(delivery := Some(d2.(fallback := if a.content != "" then a.content else a.rendered)))
  }

  // `write_status`, with the fields this model follows; an empty string is a field not given.
  datatype Fields = Fields(sender: string, target: string, lifecycle: string, result: Option<Answer>)

  function Merged(r: Option<Record>, f: Fields): Record {
    var c := Current(r);
    var c1 := if f.sender != "" && c.delivery.None?
              then c.(delivery := Some(Delivery(Waiting, f.sender, false, "", ""))) else c;
    var c2 := c1.(sender := if f.sender != "" then f.sender else c.sender,
                  target := if f.target != "" then f.target else c.target,
                  lifecycle := if f.lifecycle != "" then f.lifecycle else c.lifecycle,
                  result := if f.result.Some? then f.result else c.result);
    if c2.result.Some? then Projected(c2, c2.result.value) else c2
  }

  function WithResult(r: Option<Record>, target: string, a: Answer): Record {
    Merged(r, Fields("", target, "", Some(a)))
  }

  // The update callbacks of `ask_delivery.py`. On a missing record they start from an empty one.
  datatype Update = MarkReceived(caller: string) | MarkTerminal | MarkInboxed

  function Updated(r: Option<Record>, u: Update): Record {
    var c := Current(r);
    var d := DeliveryOf(r);
    match u
    case MarkReceived(caller) =>
      if d.caller != caller || d.state == Inboxed then c
      else c.(delivery := Some(d.(state := Received)))
    case MarkTerminal => c.(delivery := Some(d.(terminal := true)))
    case MarkInboxed => c.(delivery := Some(d.(state := Inboxed)))
  }

  /** What the callbacks leave: a receipt makes the delivery received if it comes from its caller and the
      inbox was not first; the others set their mark. Nothing else changes. */
  lemma UpdatesAre(r: Option<Record>, u: Update)
    ensures var c, d, m := Current(r), DeliveryOf(r), Updated(r, u);
            && m == c.(delivery := m.delivery)
            && (u == MarkTerminal ==> m.delivery == Some(d.(terminal := true)))
            && (u == MarkInboxed ==> m.delivery == Some(d.(state := Inboxed)))
            && (u.MarkReceived? ==>
                  && (DeliveryOf(Some(m)).state == Received <==>
                        d.state == Received || (d.caller == u.caller && d.state != Inboxed))
                  && DeliveryOf(Some(m)) == d.(state := DeliveryOf(Some(m)).state))
  {
  }

  /** A record in a final state never leaves the final states, whatever is written to it. */
  lemma FinalStaysFinal(r: Record, f: Fields, u: Update)
    requires DeliveryOf(Some(r)).state in {Received, Inboxed}
    ensures DeliveryOf(Some(Merged(Some(r), f))).state in {Received, Inboxed}
    ensures DeliveryOf(Some(Updated(Some(r), u))).state in {Received, Inboxed}
    ensures DeliveryOf(Some(r)).state == Inboxed ==> DeliveryOf(Some(Updated(Some(r), u))).state == Inboxed
  {
  }

  /** What an answer leaves: the result, and in a delivery its words, or else all of it rendered, from the
      target it names, or else the one the ask has; pending, unless the state is final. */
  lemma AnswerIsFiled(r: Option<Record>, target: string, a: Answer)
    ensures var c, m := Current(r), WithResult(r, target, a);
            && m == c.(result := Some(a), target := m.target, delivery := m.delivery)
            && m.target == (if target == "" then c.target else target)
            && (c.delivery.None? ==> m.delivery.None?)
            && (c.delivery.Some? ==>
                  var d, from := c.delivery.value, if a.target == "" then m.target else a.target;
                  && m.delivery == Some(Delivery(if d.state in {Received, Inboxed} then d.state else Pending,
                                                 d.caller, d.terminal,
                                                 if a.content == "" then a.rendered else a.content,
                                                 if from == "" then d.fallbackSender else from)))
  {
  }

  /** Whichever comes first, the caller that prepares the ask or the answer, the record is the same. */
  lemma PrepareAndAnswerCommute(r: Option<Record>, caller: string, target: string, a: Answer)
    requires caller != "" && Current(r).delivery.None? && Current(r).result.None?
    ensures var prepare := Fields(caller, "", "", None);
            WithResult(Some(Merged(r, prepare)), target, a) == Merged(Some(WithResult(r, target, a)), prepare)
  {
  }

  /** Every write leaves a delivery with an answer due: final, or pending with something to send. */
  lemma AnsweredIsDue(r: Option<Record>, f: Fields)
    ensures var m := Merged(r, f);
            m.result.Some? && m.delivery.Some? ==>
              && (m.delivery.value.state == Pending || Final(m.delivery.value.state))
              && (m.result.value.rendered != "" ==> m.delivery.value.fallback != "")
  {
  }

  // ---------------------------------------------------------------- claiming a route

  datatype Claim = Claim(sender: string, route: Route, target: string)

  predicate ClaimWellFormed(c: Claim) {
    && c.sender != "" && c.route.kind in {"session", "worker", "pool"} && c.route.value != ""
    && (c.route.kind != "pool" ==> c.target != "")
  }

  function Bound(r: Record, c: Claim): Record {
    r.(sender := c.sender, route := Some(c.route), target := if r.target == "" then c.target else r.target)
  }

  // `claim_route`; Err is the ValueError, and then nothing is written.
  function Claimed(r: Option<Record>, c: Claim): Result<Record, string> {
    if !ClaimWellFormed(c) then Err("ask route requires a valid sender and target")
    else if r.None? then Ok(EMPTY.(sender := c.sender, route := Some(c.route), target := c.target))
    else
      var cur := r.value;
      var claimed := cur.route.Some?;
      if claimed && (cur.sender != c.sender || cur.route != Some(c.route)) then Err("bound to a different route")
      else if !claimed && cur.sender != "" && cur.sender != c.sender then Err("bound to a different route")
      else if c.route.kind != "pool" && cur.target != c.target then Err("bound to a different route")
      else if c.route.kind == "pool" && c.target != "" && cur.target != c.target then
        if cur.lifecycle != "" || cur.result.Some? then Err("bound to a different target")
        else Ok(Bound(cur.(target := c.target), c))
      else if !claimed then Ok(Bound(cur, c))
      else Ok(cur)
  }

  // A sender, one of the three kinds of route, and a target unless a pool is to find one.
  predicate Sound(c: Claim) {
    && c.sender != "" && c.route.value != ""
    && (c.route.kind == "pool" || (c.route.kind in {"session", "worker"} && c.target != ""))
  }

  /** Exactly which claims are let through, and what they leave: on a new ask every sound one; on a record, those
      that agree with its sender, with its route if it has one, and with its target, unless a pool leaves the
      target as it is or moves an ask that has neither been dispatched nor answered. */
  lemma ClaimExactly(r: Option<Record>, c: Claim)
    ensures Claimed(r, c).Ok? <==>
              && Sound(c)
              && (r.Some? ==>
                    var cur := r.value;
                    && (cur.sender == c.sender || (cur.sender == "" && cur.route.None?))
                    && (cur.route.None? || cur.route == Some(c.route))
                    && (cur.target == c.target
                        || (c.route.kind == "pool" && (c.target == "" || (cur.lifecycle == "" && cur.result.None?)))))
    ensures Claimed(r, c).Ok? ==>
              Claimed(r, c).value == Current(r).(sender := c.sender, route := Some(c.route),
                                                 target := if c.target == "" then Current(r).target else c.target)
    ensures Claimed(r, c).Err? ==>
              Claimed(r, c).error
              == if !Sound(c) then "ask route requires a valid sender and target"
                 else if c.route.kind == "pool" && r.value.sender in {"", c.sender}
                         && r.value.route in {None, Some(c.route)} && !(r.value.route.Some? && r.value.sender == "")
                      then "bound to a different target"
                 else "bound to a different route"
  {
    hide Bound;
    if r.Some? {
      BoundIs(r.value, c);
      BoundIs(r.value.(target := c.target), c);
    }
  }

  lemma BoundIs(r: Record, c: Claim)
    ensures Bound(r, c).target == if r.target == "" then c.target else r.target
    ensures Bound(r, c) == r.(sender := c.sender, route := Some(c.route), target := Bound(r, c).target)
  {
  }

  /** Re-attaching: a claim that succeeded succeeds again and writes nothing new. */
  lemma ClaimIsIdempotent(r: Option<Record>, c: Claim)
    requires Claimed(r, c).Ok?
    ensures Claimed(Some(Claimed(r, c).value), c) == Claimed(r, c)
  {
  }

  /** After a claim, exactly the claims for the same sender and route are let through: the target
      must agree too, except that a pool claim without a target goes anywhere and one with a target
      may move an ask that has neither been dispatched nor answered. */
  lemma ClaimIsExclusive(r: Option<Record>, c: Claim, d: Claim)
    requires Claimed(r, c).Ok?
    ensures var cur := Claimed(r, c).value;
            Claimed(Some(cur), d).Ok? <==>
              && d.sender == c.sender && d.route == c.route && ClaimWellFormed(d)
              && (cur.target == d.target
                  || (d.route.kind == "pool" && (d.target == "" || (cur.lifecycle == "" && cur.result.None?))))
  {
  }

  /** A record seeded before any claim accepts a session claim only if it already names that
      session as its target; a seeded record without a target is refused. */
  lemma SeededRecordNeedsTarget(r: Record, c: Claim)
    requires r.route.None? && c.route.kind != "pool" && ClaimWellFormed(c)
    ensures Claimed(Some(r), c).Ok? <==> r.target == c.target && (r.sender == "" || r.sender == c.sender)
  {
  }

  /** What `prepare` leaves is such a record: every claim of a session or a worker is refused. */
  lemma PreparedRefusesSession(caller: string, c: Claim)
    requires c.route.kind != "pool"
    ensures Claimed(Some(Merged(None, Fields(caller, "", "", None))), c).Err?
  {
    if ClaimWellFormed(c) {
      SeededRecordNeedsTarget(Merged(None, Fields(caller, "", "", None)), c);
    }
  }

  // ---------------------------------------------------------------- the lifecycle index

  // Every record that has a lifecycle id is found by it.
  ghost predicate Indexed(records: map<string, Record>, index: map<string, string>) {
    forall ask :: ask in records && records[ask].lifecycle != "" ==>
      records[ask].lifecycle in index && index[records[ask].lifecycle] == ask
  }

  function Filed(index: map<string, string>, lifecycle: string, ask: string): map<string, string> {
    if lifecycle == "" then index else index[lifecycle := ask]
  }

  /** A write keeps every record findable if and only if no other record goes by the id it files. */
  lemma WriteKeepsIndexed(records: map<string, Record>, index: map<string, string>, ask: string, f: Fields)
    requires Indexed(records, index)
    ensures var r := if ask in records then Some(records[ask]) else None;
            Indexed(records[ask := Merged(r, f)], Filed(index, f.lifecycle, ask)) <==>
            f.lifecycle == ""
            || forall other :: other in records && other != ask ==> records[other].lifecycle != f.lifecycle
  {
    var r := if ask in records then Some(records[ask]) else None;
    var later, filed := records[ask := Merged(r, f)], Filed(index, f.lifecycle, ask);
    assert later[ask].lifecycle == if f.lifecycle != "" then f.lifecycle else Current(r).lifecycle;
    hide Merged;
    if other :| other in records && other != ask && f.lifecycle != "" && records[other].lifecycle == f.lifecycle {
      assert later[other] == records[other] && filed[f.lifecycle] == ask;
    }
  }

  // A change that leaves the lifecycle id of one record as it is.
  lemma ChangeKeepsIndexed(records: map<string, Record>, index: map<string, string>, ask: string, r: Record)
    requires Indexed(records, index)
    requires r.lifecycle == if ask in records then records[ask].lifecycle else ""
    ensures Indexed(records[ask := r], index)
  {
  }

  /** A deletion keeps the others findable: only its own id can lead to the record. */
  lemma DeleteKeepsIndexed(records: map<string, Record>, index: map<string, string>, ask: string)
    requires Indexed(records, index)
    ensures var l := if ask in records then records[ask].lifecycle else "";
            Indexed(records - {ask}, if l != "" then index - {l} else index)
  {
  }

  // ---------------------------------------------------------------- the store

  class AskStatusStore {
    var records: map<string, Record>
    var byLifecycle: map<string, string>

    ghost predicate Valid() reads this {
      Indexed(records, byLifecycle)
    }

    constructor ()
      ensures Valid() && records == map[] && byLifecycle == map[]
    {
      records, byLifecycle := map[], map[];
    }

    function Read(ask: string): (r: Option<Record>)
      reads this
      ensures r.Some? <==> ask in records
      ensures r.Some? ==> r.value == records[ask]
    {
      if ask in records then Some(records[ask]) else None
    }

    // Lifecycle ids are made afresh for each dispatch: then every record stays findable.
    method WriteStatus(ask: string, f: Fields)
      requires Valid()
      modifies this
      ensures records == old(records)[ask := Merged(old(Read(ask)), f)]
      ensures byLifecycle == if f.lifecycle == "" then old(byLifecycle) else old(byLifecycle)[f.lifecycle := ask]
      ensures (f.lifecycle == ""
               || forall a :: a in old(records) && a != ask ==> old(records)[a].lifecycle != f.lifecycle)
              ==> Valid()
    {
      WriteKeepsIndexed(records, byLifecycle, ask, f);
      var current := if ask in records then records[ask] else EMPTY;
      if f.sender != "" && current.delivery.None? {
        current := current.(delivery := Some(Delivery(Waiting, f.sender, false, "", "")));
      }
      if f.sender != "" {
        current := current.(sender := f.sender);
      }
      if f.target != "" {
        current := current.(target := f.target);
      }
      if f.lifecycle != "" {
        current := current.(lifecycle := f.lifecycle);
      }
      if f.result.Some? {
        current := current.(result := f.result);
      }
      if current.result.Some? {
        current := Projected(current, current.result.value);
      }
      hide Projected, Indexed;
      records := records[ask := current];
      if f.lifecycle != "" {
        byLifecycle := byLifecycle[f.lifecycle := ask];
      }
    }

    method UpdateStatus(ask: string, u: Update) returns (updated: Record)
      requires Valid()
      modifies this
      ensures Valid() && updated == Updated(old(Read(ask)), u)
      ensures records == old(records)[ask := updated] && byLifecycle == old(byLifecycle)
    {
      updated := if ask in records then records[ask] else EMPTY;
      var delivery := if updated.delivery.Some? then updated.delivery.value else BLANK;
      match u {
        case MarkReceived(caller) =>
          if delivery.caller == caller && delivery.state != Inboxed {
            updated := updated.(delivery := Some(delivery.(state := Received)));
          }
        case MarkTerminal =>
          updated := updated.(delivery := Some(delivery.(terminal := true)));
        case MarkInboxed =>
          updated := updated.(delivery := Some(delivery.(state := Inboxed)));
      }
      ChangeKeepsIndexed(records, byLifecycle, ask, updated);
      records := records[ask := updated];
    }

    method DeleteStatus(ask: string)
      requires Valid()
      modifies this
      ensures Valid() && records == old(records) - {ask}
      ensures var l := Current(old(Read(ask))).lifecycle;
              byLifecycle == if l != "" then old(byLifecycle) - {l} else old(byLifecycle)
    {
      DeleteKeepsIndexed(records, byLifecycle, ask);
      var lifecycle := Current(Read(ask)).lifecycle;
      records := records - {ask};
      if lifecycle != "" {
        byLifecycle := byLifecycle - {lifecycle};
      }
    }

    method ClaimRoute(ask: string, c: Claim) returns (r: Result<Record, string>)
      requires Valid()
      modifies this
      ensures Valid() && r == Claimed(old(Read(ask)), c)
      ensures records == if r.Ok? then old(records)[ask := r.value] else old(records)
      ensures byLifecycle == old(byLifecycle)
    {
      if c.sender == "" || c.route.kind !in {"session", "worker", "pool"} || c.route.value == "" {
        return Err("ask route requires a valid sender and target");
      }
      if c.route.kind != "pool" && c.target == "" {
        return Err("ask route requires a valid sender and target");
      }
      var current := EMPTY.(sender := c.sender, route := Some(c.route), target := c.target);
      if ask in records {
        current := records[ask];
        var claimed := current.route.Some?;
        if claimed && (current.sender != c.sender || current.route != Some(c.route)) {
          return Err("bound to a different route");
        }
        if !claimed && current.sender != "" && current.sender != c.sender {
          return Err("bound to a different route");
        }
        if c.route.kind != "pool" && current.target != c.target {
          return Err("bound to a different route");
        }
        if c.route.kind == "pool" && c.target != "" && current.target != c.target {
          if current.lifecycle != "" || current.result.Some? {
            return Err("bound to a different target");
          }
          current := current.(target := c.target);
          claimed := false;
        }
        if !claimed {
          current := current.(sender := c.sender, route := Some(c.route));
          if c.target != "" && current.target == "" {
            current := current.(target := c.target);
          }
        }
      }
      ChangeKeepsIndexed(records, byLifecycle, ask, current);
      records := records[ask := current];
      r := Ok(current);
    }

    // The first half of `on_target_turn_terminal`: the ask that the end of this turn answers.
    method AskAnsweredBy(lifecycle: string, session: string, coordinated: bool) returns (ask: Option<string>)
      requires Valid()
      ensures ask == if lifecycle != "" && lifecycle in byLifecycle && byLifecycle[lifecycle] in records
                        && records[byLifecycle[lifecycle]].result.None?
                        && records[byLifecycle[lifecycle]].target == session && coordinated
                     then Some(byLifecycle[lifecycle]) else None
      // It is the ask that goes by the turn's lifecycle id, if one does.
      ensures forall a :: a in records && lifecycle != "" && records[a].lifecycle == lifecycle ==>
                ask == if records[a].result.None? && records[a].target == session && coordinated then Some(a) else None
    {
      if lifecycle == "" || lifecycle !in byLifecycle {
        return None;
      }
      var a := byLifecycle[lifecycle];
      if a !in records || records[a].result.Some? || records[a].target != session || !coordinated {
        return None;
      }
      ask := Some(a);
    }
  }

  /** An id that a later dispatch of the ask has superseded still leads to it, as its entry stays: the
      end of that earlier turn answers the ask. */
  method SupersededTurnAnswers(ask: string, session: string, first: string, second: string)
      returns (found: Option<string>)
    requires session != "" && first != "" && second != "" && first != second
    ensures found == Some(ask)
  {
    var store := new AskStatusStore();
    store.WriteStatus(ask, Fields("", session, first, None));
    store.WriteStatus(ask, Fields("", session, second, None));
    found := store.AskAnsweredBy(first, session, true);
  }
}
