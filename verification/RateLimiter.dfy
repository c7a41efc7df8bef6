/** The sliding-window limiter of `auth.py`: pruned deques against a log that forgets nothing. */
module RateLimiter {

  type Ip = string

  const WINDOW: real := 300.0

  const BUDGET: nat := 5

  // ---------------------------------------------------------------- the naive specification

  // What the limiter is asked, with the monotonic clock read by each check.
  datatype Event = Check(ip: Ip, now: real) | Reset(ip: Ip)

  function Since(times: seq<real>, from: real): seq<real> {
    if times == [] then []
    else Since(times[..|times| - 1], from) + if times[|times| - 1] >= from then [times[|times| - 1]] else []
  }

  predicate HasRoom(times: seq<real>, now: real) {
    |Since(times, now - WINDOW)| < BUDGET
  }

  function NextAccepted(all: seq<real>, event: Event, ip: Ip): seq<real> {
    if event.ip != ip then all
    else if event.Reset? then []
    else if HasRoom(all, event.now) then all + [event.now]
    else all
  }

  // The accepted attempts of an address since its last reset, none forgotten.
  function Accepted(events: seq<Event>, ip: Ip): seq<real> {
    if events == [] then []
    else NextAccepted(Accepted(events[..|events| - 1], ip), events[|events| - 1], ip)
  }

  predicate Allowed(events: seq<Event>, ip: Ip, now: real) {
    HasRoom(Accepted(events, ip), now)
  }

  // The latest reading of the clock, which starts at zero and does not go back.
  function Clock(events: seq<Event>): real {
    if events == [] then 0.0
    else if events[|events| - 1].Check? then events[|events| - 1].now
    else Clock(events[..|events| - 1])
  }

  predicate Timed(events: seq<Event>) {
    events != [] ==>
      var before, last := events[..|events| - 1], events[|events| - 1];
      Timed(before) && (last.Check? ==> last.now >= Clock(before))
  }

  // ---------------------------------------------------------------- the table

  datatype Table = Table(attempts: map<Ip, seq<real>>, lastSweep: real)

  // How many leading times are out of the window.
  function Old(times: seq<real>, cutoff: real): (n: nat)
    ensures n <= |times| && (n < |times| ==> times[n] >= cutoff)
    ensures forall i :: 0 <= i < n ==> times[i] < cutoff
  {
    if times != [] && times[0] < cutoff then 1 + Old(times[1..], cutoff) else 0
  }

  function DropOld(times: seq<real>, cutoff: real): seq<real> {
    times[Old(times, cutoff)..]
  }

  function Stored(t: Table, ip: Ip): seq<real> {
    if ip in t.attempts then t.attempts[ip] else []
  }

  predicate Stale(times: seq<real>, cutoff: real) {
    times == [] || times[|times| - 1] < cutoff
  }

  function Pruned(attempts: map<Ip, seq<real>>, cutoff: real): map<Ip, seq<real>> {
    map ip | ip in attempts && !Stale(attempts[ip], cutoff) :: attempts[ip]
  }

  function Swept(t: Table, now: real): Table {
    if now - t.lastSweep >= WINDOW then Table(Pruned(t.attempts, now - WINDOW), now) else t
  }

  // `rate_limit_check`
  function Checked(t: Table, ip: Ip, now: real): (Table, bool) {
    var s := Swept(t, now);
    var times := DropOld(Stored(s, ip), now - WINDOW);
    if |times| >= BUDGET then (s.(attempts := s.attempts[ip := times]), false)
    else (s.(attempts := s.attempts[ip := times + [now]]), true)
  }

  // `rate_limit_reset`
  function Forgotten(t: Table, ip: Ip): Table {
    t.(attempts := t.attempts - {ip})
  }

  function StepTable(t: Table, event: Event): Table {
    if event.Check? then Checked(t, event.ip, event.now).0 else Forgotten(t, event.ip)
  }

  function TableAfter(events: seq<Event>): Table {
    if events == [] then Table(map[], 0.0)
    else StepTable(TableAfter(events[..|events| - 1]), events[|events| - 1])
  }

  // One more event.
  lemma Snoc(events: seq<Event>, event: Event)
    ensures TableAfter(events + [event]) == StepTable(TableAfter(events), event)
    ensures Clock(events + [event]) == if event.Check? then event.now else Clock(events)
    ensures Timed(events + [event]) <==> Timed(events) && (event.Check? ==> event.now >= Clock(events))
  {
    assert (events + [event])[..|events|] == events;
  }

  lemma AcceptedSnoc(events: seq<Event>, event: Event, ip: Ip)
    ensures Accepted(events + [event], ip) == NextAccepted(Accepted(events, ip), event, ip)
  {
    assert (events + [event])[..|events|] == events;
  }

  // ---------------------------------------------------------------- the invariant

  ghost predicate Rising(times: seq<real>) {
    forall i, j :: 0 <= i <= j < |times| ==> times[i] <= times[j]
  }

  // The kept times are the end of all of them, and what was dropped is out of every window to come.
  ghost predicate Keeps(all: seq<real>, kept: seq<real>, clock: real) {
    |kept| <= |all| && kept == all[|all| - |kept|..]
    && forall i :: 0 <= i < |all| - |kept| ==> all[i] < clock - WINDOW
  }

  ghost predicate RisingUpTo(all: seq<real>, clock: real) {
    Rising(all) && forall i :: 0 <= i < |all| ==> all[i] <= clock
  }

  // What is stored of one address against all it was ever accepted at: the latest is not before `from`.
  ghost predicate Good(all: seq<real>, stored: seq<real>, from: real, clock: real) {
    RisingUpTo(all, clock) && Keeps(all, stored, clock) && (stored != [] ==> stored[|stored| - 1] >= from)
  }

  ghost predicate GoodTable(t: Table, events: seq<Event>, clock: real) {
    && (forall ip :: Good(Accepted(events, ip), Stored(t, ip), t.lastSweep - WINDOW, clock))
    && (forall ip :: ip in t.attempts ==> Stored(t, ip) != [])
    && t.lastSweep <= clock < t.lastSweep + WINDOW
  }

  ghost predicate Inv(t: Table, events: seq<Event>) {
    GoodTable(t, events, Clock(events))
  }

  lemma {:induction false} SinceIsSuffix(times: seq<real>, from: real, n: nat)
    requires n <= |times|
    requires (forall i :: 0 <= i < n ==> times[i] < from) && (forall i :: n <= i < |times| ==> times[i] >= from)
    ensures Since(times, from) == times[n..]
  {
    if times != [] {
      var m := |times| - 1;
      if n <= m {
        SinceIsSuffix(times[..m], from, n);
        assert times[..m][n..] + [times[m]] == times[n..];
      } else {
        SinceIsSuffix(times[..m], from, m);
      }
    }
  }

  lemma SinceIsDropOld(times: seq<real>, from: real)
    requires Rising(times)
    ensures Since(times, from) == DropOld(times, from)
  {
    SinceIsSuffix(times, from, Old(times, from));
  }

  lemma {:induction false} DropOldSkips(dropped: seq<real>, kept: seq<real>, cutoff: real)
    requires forall i :: 0 <= i < |dropped| ==> dropped[i] < cutoff
    ensures DropOld(dropped + kept, cutoff) == DropOld(kept, cutoff)
  {
    if dropped == [] {
      assert dropped + kept == kept;
    } else {
      DropOldSkips(dropped[1..], kept, cutoff);
      assert (dropped + kept)[1..] == dropped[1..] + kept;
    }
  }

  // Dropping from what is kept leaves the window of everything.
  lemma DropOldIsSince(all: seq<real>, kept: seq<real>, clock: real, now: real)
    requires Rising(all) && Keeps(all, kept, clock) && clock <= now
    ensures DropOld(kept, now - WINDOW) == Since(all, now - WINDOW)
  {
    var m := |all| - |kept|;
    SinceIsDropOld(all, now - WINDOW);
    DropOldSkips(all[..m], kept, now - WINDOW);
    assert all[..m] + kept == all;
  }

  lemma DropOldKeeps(all: seq<real>, kept: seq<real>, clock: real, now: real)
    requires Keeps(all, kept, clock) && clock <= now
    ensures Keeps(all, DropOld(kept, now - WINDOW), now)
  {
    var m, n := |all| - |kept|, Old(kept, now - WINDOW);
    hide Old;
    forall i | 0 <= i < m + n
      ensures all[i] < now - WINDOW
    {
      assert i >= m ==> all[i] == kept[i - m];
    }
    assert kept[n..] == all[m + n..];
  }

  // A sweep at `now` keeps an address as it is, or drops it when it is stale.
  lemma GoodSwept(all: seq<real>, stored: seq<real>, from: real, clock: real, now: real)
    requires Good(all, stored, from, clock) && clock <= now
    ensures Good(all, stored, from, now)
    ensures if Stale(stored, now - WINDOW) then Good(all, [], now - WINDOW, now)
            else Good(all, stored, now - WINDOW, now)
  {
    if Stale(stored, now - WINDOW) && stored != [] {
      assert stored[|stored| - 1] == all[|all| - 1];
    }
  }

  lemma SweptGood(t: Table, events: seq<Event>, now: real)
    requires Inv(t, events) && now >= Clock(events)
    ensures GoodTable(Swept(t, now), events, now)
  {
    var s := Swept(t, now);
    hide Good, Accepted;
    forall ip
      ensures Good(Accepted(events, ip), Stored(s, ip), s.lastSweep - WINDOW, now)
    {
      GoodSwept(Accepted(events, ip), Stored(t, ip), t.lastSweep - WINDOW, Clock(events), now);
    }
    assert forall ip :: ip in s.attempts ==> Stored(s, ip) == Stored(t, ip);
  }

  // What a check keeps of its own address.
  lemma GoodChecked(all: seq<real>, stored: seq<real>, from: real, now: real)
    requires Good(all, stored, from, now) && from <= now - WINDOW
    ensures var times := DropOld(stored, now - WINDOW);
            && (|times| < BUDGET <==> HasRoom(all, now))
            && (if |times| < BUDGET then Good(all + [now], times + [now], from, now)
                else Good(all, times, from, now))
  {
    var times := DropOld(stored, now - WINDOW);
    DropOldIsSince(all, stored, now, now);
    DropOldKeeps(all, stored, now, now);
    assert times != [] ==> times[|times| - 1] == stored[|stored| - 1];
    hide DropOld, Since;
    if |times| < BUDGET {
      KeepsOneMore(all, times, now);
      RisesOneMore(all, now);
      hide Keeps, RisingUpTo;
    }
  }

  lemma RisesOneMore(all: seq<real>, now: real)
    requires RisingUpTo(all, now)
    ensures RisingUpTo(all + [now], now)
  {
  }

  lemma KeepsOneMore(all: seq<real>, kept: seq<real>, now: real)
    requires Keeps(all, kept, now)
    ensures Keeps(all + [now], kept + [now], now)
  {
    var m := |all| - |kept|;
    assert forall i :: 0 <= i < m ==> (all + [now])[i] == all[i];
    assert kept + [now] == (all + [now])[m..];
  }

  lemma CheckedIs(t: Table, ip: Ip, now: real)
    ensures var (t', ok) := Checked(t, ip, now);
            var s := Swept(t, now);
            var times := DropOld(Stored(s, ip), now - WINDOW);
            && t'.lastSweep == s.lastSweep && t'.attempts.Keys == s.attempts.Keys + {ip}
            && (ok <==> |times| < BUDGET) && Stored(t', ip) == (if ok then times + [now] else times)
            && forall other :: other != ip ==> Stored(t', other) == Stored(s, other)
  {
    hide Swept, DropOld;
  }

  lemma CheckedKeeps(t: Table, events: seq<Event>, ip: Ip, now: real, other: Ip)
    requires GoodTable(Swept(t, now), events, now)
    ensures var t' := Checked(t, ip, now).0;
            Good(Accepted(events + [Check(ip, now)], other), Stored(t', other), t'.lastSweep - WINDOW, now)
  {
    var s, all := Swept(t, now), Accepted(events, other);
    CheckedIs(t, ip, now);
    AcceptedSnoc(events, Check(ip, now), other);
    assert Good(all, Stored(s, other), s.lastSweep - WINDOW, now);
    hide Checked, Accepted, Good, Swept, HasRoom, DropOld, Stored;
    if other == ip {
      GoodChecked(all, Stored(s, ip), s.lastSweep - WINDOW, now);
    }
  }

  lemma CheckedDecides(t: Table, events: seq<Event>, ip: Ip, now: real)
    requires GoodTable(Swept(t, now), events, now)
    ensures Checked(t, ip, now).1 == Allowed(events, ip, now)
    ensures Checked(t, ip, now).0.lastSweep == Swept(t, now).lastSweep
    ensures var t' := Checked(t, ip, now).0;
            forall other :: other in t'.attempts ==> Stored(t', other) != []
  {
    var s, all := Swept(t, now), Accepted(events, ip);
    CheckedIs(t, ip, now);
    assert Good(all, Stored(s, ip), s.lastSweep - WINDOW, now);
    hide Good, Checked, Accepted, Swept, DropOld, Stored;
    GoodChecked(all, Stored(s, ip), s.lastSweep - WINDOW, now);
    forall other | other in Checked(t, ip, now).0.attempts
      ensures Stored(Checked(t, ip, now).0, other) != []
    {
      assert other != ip ==> other in s.attempts;
    }
  }

  lemma CheckedInv(t: Table, events: seq<Event>, ip: Ip, now: real)
    requires Inv(t, events) && now >= Clock(events)
    ensures Inv(Checked(t, ip, now).0, events + [Check(ip, now)])
    ensures Checked(t, ip, now).1 == Allowed(events, ip, now)
  {
    hide Checked, Accepted, Good, Swept, HasRoom, DropOld, Stored;
    SweptGood(t, events, now);
    CheckedDecides(t, events, ip, now);
    assert Clock(events + [Check(ip, now)]) == now by {
      Snoc(events, Check(ip, now));
    }
    forall other {
      CheckedKeeps(t, events, ip, now, other);
    }
  }

  lemma ForgottenInv(t: Table, events: seq<Event>, ip: Ip)
    requires Inv(t, events)
    ensures Inv(Forgotten(t, ip), events + [Reset(ip)])
  {
    Snoc(events, Reset(ip));
    ForgottenIs(t, ip);
    hide Forgotten, Stored, Accepted, Good, HasRoom;
    forall other {
      ForgottenKeeps(t, events, ip, other);
    }
  }

  lemma ForgottenIs(t: Table, ip: Ip)
    ensures var t' := Forgotten(t, ip);
            && t'.lastSweep == t.lastSweep && StepTable(t, Reset(ip)) == t'
            && forall other :: other in t'.attempts ==> other in t.attempts && Stored(t', other) == Stored(t, other)
  {
  }

  lemma ForgottenKeeps(t: Table, events: seq<Event>, ip: Ip, other: Ip)
    requires Inv(t, events)
    ensures Good(Accepted(events + [Reset(ip)], other), Stored(Forgotten(t, ip), other), t.lastSweep - WINDOW,
                 Clock(events))
  {
    AcceptedSnoc(events, Reset(ip), other);
    assert Good(Accepted(events, other), Stored(t, other), t.lastSweep - WINDOW, Clock(events));
    hide Accepted, Clock;
  }

  lemma {:induction false} RunInv(events: seq<Event>)
    requires Timed(events)
    ensures Inv(TableAfter(events), events)
  {
    if events != [] {
      var before, last := events[..|events| - 1], events[|events| - 1];
      RunInv(before);
      assert before + [last] == events;
      if last.Check? {
        CheckedInv(TableAfter(before), before, last.ip, last.now);
      } else {
        ForgottenInv(TableAfter(before), before, last.ip);
      }
    }
  }

  // ---------------------------------------------------------------- what the limiter promises

  /** Pruning is invisible: over every run, each decision is the one of the log that forgets nothing. */
  lemma DecisionsAreNaive(events: seq<Event>, ip: Ip, now: real)
    requires Timed(events) && now >= Clock(events)
    ensures Checked(TableAfter(events), ip, now).1 == Allowed(events, ip, now)
  {
    RunInv(events);
    CheckedInv(TableAfter(events), events, ip, now);
  }

  /** The sixth accepted attempt after any other comes more than a window after it. */
  lemma {:induction false} SixthIsLater(events: seq<Event>, ip: Ip, i: nat)
    requires Timed(events) && i + BUDGET < |Accepted(events, ip)|
    ensures Accepted(events, ip)[i + BUDGET] - Accepted(events, ip)[i] > WINDOW
  {
    var before, last := events[..|events| - 1], events[|events| - 1];
    var prior := Accepted(before, ip);
    if i + BUDGET < |prior| {
      SixthIsLater(before, ip, i);
    } else {
      assert last == Check(ip, last.now) && Allowed(before, ip, last.now);
      assert Rising(prior) by {
        RunInv(before);
        assert Good(prior, Stored(TableAfter(before), ip), TableAfter(before).lastSweep - WINDOW, Clock(before));
      }
      if prior[i] >= last.now - WINDOW {
        AllSince(prior, last.now - WINDOW, i);
      }
    }
  }

  lemma {:induction false} AllSince(times: seq<real>, from: real, i: nat)
    requires Rising(times) && i < |times| && times[i] >= from
    ensures |Since(times, from)| >= |times| - i
  {
    if i < |times| - 1 {
      AllSince(times[..|times| - 1], from, i);
    }
  }

  // How many times fall in a closed interval.
  function Within(times: seq<real>, from: real, to: real): nat {
    if times == [] then 0
    else Within(times[..|times| - 1], from, to) + if from <= times[|times| - 1] <= to then 1 else 0
  }

  /** Without a reset, no closed interval of one window holds more than five accepted attempts. */
  lemma BudgetHolds(events: seq<Event>, ip: Ip, from: real)
    requires Timed(events)
    ensures Within(Accepted(events, ip), from, from + WINDOW) <= BUDGET
  {
    RunInv(events);
    var all, t := Accepted(events, ip), TableAfter(events);
    assert Good(all, Stored(t, ip), t.lastSweep - WINDOW, Clock(events));
    forall i, j | 0 <= i && i + BUDGET <= j < |all|
      ensures all[j] - all[i] > WINDOW
    {
      SixthIsLater(events, ip, i);
      assert all[i + BUDGET] <= all[j];
    }
    AtMostFive(all, from, |all|);
    assert all[..|all|] == all;
  }

  lemma {:induction false} AtMostFive(all: seq<real>, from: real, n: nat)
    requires n <= |all| && Rising(all)
    requires forall i, j :: 0 <= i && i + BUDGET <= j < |all| ==> all[j] - all[i] > WINDOW
    ensures Within(all[..n], from, from + WINDOW) <= BUDGET
    ensures forall k :: 0 <= k < n && all[k] < from ==> Within(all[..n], from, from + WINDOW) <= n - k - 1
    ensures Within(all[..n], from, from + WINDOW) <= n
  {
    if n > 0 {
      AtMostFive(all, from, n - 1);
      assert all[..n][..n - 1] == all[..n - 1];
      var count := Within(all[..n - 1], from, from + WINDOW);
      assert Within(all[..n], from, from + WINDOW) == count + if from <= all[n - 1] <= from + WINDOW then 1 else 0;
      if from <= all[n - 1] <= from + WINDOW && n - 1 >= BUDGET {
        assert all[n - 1] - all[n - 1 - BUDGET] > WINDOW;
        assert count <= n - 1 - (n - 1 - BUDGET) - 1;
      }
      if all[n - 1] < from && n > 1 {
        assert all[n - 2] <= all[n - 1];
      }
    }
  }

  /** A run without a reset of the address only adds to its accepted attempts. */
  lemma {:induction false} NoResetKeeps(before: seq<Event>, more: seq<Event>, ip: Ip)
    requires Reset(ip) !in more
    ensures Accepted(before, ip) <= Accepted(before + more, ip)
  {
    if more == [] {
      assert before + more == before;
    } else {
      var n := |more| - 1;
      NoResetKeeps(before, more[..n], ip);
      assert (before + more)[..|before| + n] == before + more[..n] && (before + more)[|before| + n] == more[n];
    }
  }

  /** Every stored address has an accepted attempt within a window of the last sweep, which is itself
      less than a window ago. */
  lemma StoredIsRecent(events: seq<Event>, ip: Ip)
    requires Timed(events) && ip in TableAfter(events).attempts
    ensures var t, all := TableAfter(events), Accepted(events, ip);
            && all != [] && all[|all| - 1] >= t.lastSweep - WINDOW
            && Clock(events) - all[|all| - 1] < 2.0 * WINDOW
  {
    RunInv(events);
    var all, t := Accepted(events, ip), TableAfter(events);
    assert Good(all, Stored(t, ip), t.lastSweep - WINDOW, Clock(events)) && Stored(t, ip) != [];
    assert Stored(t, ip)[|Stored(t, ip)| - 1] == all[|all| - 1];
  }

  // The table forgets an address only when its latest attempt is a window older than a sweep.
  lemma {:induction false} ForgottenIsOld(events: seq<Event>, ip: Ip)
    requires Timed(events) && ip !in TableAfter(events).attempts && Accepted(events, ip) != []
    ensures Latest(events, ip) < TableAfter(events).lastSweep - WINDOW
  {
    var before, last := events[..|events| - 1], events[|events| - 1];
    var t := TableAfter(before);
    assert before + [last] == events;
    RunInv(before);
    AcceptedSnoc(before, last, ip);
    if last.Check? {
      CheckedIs(t, last.ip, last.now);
    }
    if ip !in t.attempts {
      ForgottenIsOld(before, ip);
    } else if last.Check? && last.ip != ip {
      var all := Accepted(before, ip);
      assert Good(all, Stored(t, ip), t.lastSweep - WINDOW, Clock(before)) && Stored(t, ip) != [];
      assert Stored(t, ip)[|Stored(t, ip)| - 1] == all[|all| - 1];
      assert Stored(Swept(t, last.now), ip) == Stored(TableAfter(events), ip) == [];
    }
  }

  // The latest accepted attempt since the last reset.
  function Latest(events: seq<Event>, ip: Ip): real
    requires Accepted(events, ip) != []
  {
    Accepted(events, ip)[|Accepted(events, ip)| - 1]
  }

  /** Exactly which addresses are stored: those with an attempt accepted since a window before the last
      sweep. */
  lemma StoredExactly(events: seq<Event>, ip: Ip)
    requires Timed(events)
    ensures ip in TableAfter(events).attempts <==>
              Accepted(events, ip) != [] && Latest(events, ip) >= TableAfter(events).lastSweep - WINDOW
  {
    if ip in TableAfter(events).attempts {
      StoredIsRecent(events, ip);
    } else if Accepted(events, ip) != [] {
      ForgottenIsOld(events, ip);
    }
  }

  // What the comment on `_rl_last_sweep` says: every stored address was seen within one window.
  ghost predicate SeenWithinOneWindow(events: seq<Event>) {
    forall ip :: ip in TableAfter(events).attempts ==>
      Accepted(events, ip) != [] && Clock(events) - Latest(events, ip) <= WINDOW
  }

  /** That holds if and only if no address was last seen after the cutoff of the last sweep and before
      that of a sweep now; and so whenever the last check swept. */
  lemma OneWindowExactly(events: seq<Event>)
    requires Timed(events)
    ensures SeenWithinOneWindow(events) <==>
            forall ip :: Accepted(events, ip) != [] ==>
              !(TableAfter(events).lastSweep - WINDOW <= Latest(events, ip) < Clock(events) - WINDOW)
    ensures TableAfter(events).lastSweep == Clock(events) ==> SeenWithinOneWindow(events)
  {
    forall ip {
      StoredExactly(events, ip);
    }
    hide TableAfter, Accepted, Latest, Clock;
  }

  /** An address can stay stored for almost two windows, not one, after its last attempt. */
  lemma StoredForAlmostTwoWindows(ip: Ip, other: Ip)
    requires ip != other
    ensures var events := [Check(ip, 1.0)] + [Check(other, 300.0)] + [Check(other, 599.0)];
            && Timed(events) && Clock(events) == 599.0
            && ip in TableAfter(events).attempts && TableAfter(events).attempts[ip] == [1.0]
  {
    var a, b, c := Check(ip, 1.0), Check(other, 300.0), Check(other, 599.0);
    StoredAfterSweep(ip, other);
    Snoc([a] + [b], c);
    hide TableAfter, Timed, Clock, Checked;
    NotSwept(TableAfter([a] + [b]), ip, other, 599.0);
  }

  lemma StoredAfterSweep(ip: Ip, other: Ip)
    requires ip != other
    ensures var events := [Check(ip, 1.0)] + [Check(other, 300.0)];
            && Timed(events) && Clock(events) == 300.0 && TableAfter(events).lastSweep == 300.0
            && ip in TableAfter(events).attempts && TableAfter(events).attempts[ip] == [1.0]
  {
    StoredAtFirst(ip);
    Snoc([Check(ip, 1.0)], Check(other, 300.0));
    hide TableAfter, Timed, Clock, Checked;
    NotSwept(TableAfter([Check(ip, 1.0)]), ip, other, 300.0);
  }

  lemma StoredAtFirst(ip: Ip)
    ensures var events := [Check(ip, 1.0)];
            && Timed(events) && Clock(events) == 1.0 && TableAfter(events).lastSweep == 0.0
            && ip in TableAfter(events).attempts && TableAfter(events).attempts[ip] == [1.0]
  {
    Snoc([], Check(ip, 1.0));
    assert [] + [Check(ip, 1.0)] == [Check(ip, 1.0)];
    hide Checked;
    FirstStored(Table(map[], 0.0), ip, 1.0);
  }

  lemma FirstStored(t: Table, ip: Ip, now: real)
    requires ip !in t.attempts && now - t.lastSweep < WINDOW
    ensures var t' := Checked(t, ip, now).0;
            t'.lastSweep == t.lastSweep && ip in t'.attempts && t'.attempts[ip] == [now]
  {
    CheckedIs(t, ip, now);
  }

  lemma NotSwept(t: Table, ip: Ip, other: Ip, now: real)
    requires ip in t.attempts && ip != other && (now - t.lastSweep < WINDOW || !Stale(t.attempts[ip], now - WINDOW))
    ensures var t' := Checked(t, other, now).0;
            && t'.lastSweep == (if now - t.lastSweep < WINDOW then t.lastSweep else now)
            && ip in t'.attempts && t'.attempts[ip] == t.attempts[ip]
  {
    CheckedIs(t, other, now);
    hide DropOld, Checked;
    assert ip in Swept(t, now).attempts && Stored(Swept(t, now), ip) == t.attempts[ip];
  }

  // ---------------------------------------------------------------- the limiter

  class Limiter {
    var attempts: map<Ip, seq<real>>
    var lastSweep: real

    constructor ()
      ensures Table(attempts, lastSweep) == TableAfter([])
    {
      attempts, lastSweep := map[], 0.0;
    }

    method PruneStale(now: real)
      modifies this
      ensures attempts == Pruned(old(attempts), now - WINDOW) && lastSweep == old(lastSweep)
    {
      var stale := set ip | ip in attempts && Stale(attempts[ip], now - WINDOW);
      while stale != {}
        invariant stale <= old(attempts).Keys && forall ip :: ip in stale ==> Stale(old(attempts)[ip], now - WINDOW)
        invariant attempts.Keys <= old(attempts).Keys
        invariant forall ip :: ip in attempts ==> attempts[ip] == old(attempts)[ip]
        invariant forall ip :: ip in old(attempts) && !Stale(old(attempts)[ip], now - WINDOW) ==> ip in attempts
        invariant forall ip :: ip in attempts && Stale(attempts[ip], now - WINDOW) ==> ip in stale
        invariant lastSweep == old(lastSweep)
        decreases stale
      {
        var ip :| ip in stale;
        stale := stale - {ip};
        attempts := attempts - {ip};
      }
    }

    method Check(ip: Ip, now: real) returns (ok: bool)
      modifies this
      ensures Table(attempts, lastSweep) == Checked(old(Table(attempts, lastSweep)), ip, now).0
      ensures ok == Checked(old(Table(attempts, lastSweep)), ip, now).1
    {
      if now - lastSweep >= WINDOW {
        PruneStale(now);
        lastSweep := now;
      }
      assert Table(attempts, lastSweep) == Swept(old(Table(attempts, lastSweep)), now);
      var times := if ip in attempts then attempts[ip] else [];
      ghost var stored := times;
      while times != [] && times[0] < now - WINDOW
        invariant |times| <= |stored| && times == stored[|stored| - |times|..]
        invariant |stored| - |times| <= Old(stored, now - WINDOW)
        decreases |times|
      {
        times := times[1..];
      }
      assert times == DropOld(stored, now - WINDOW);
      ok := |times| < BUDGET;
      attempts := attempts[ip := if ok then times + [now] else times];
    }

    method Reset(ip: Ip)
      modifies this
      ensures Table(attempts, lastSweep) == Forgotten(old(Table(attempts, lastSweep)), ip)
    {
      attempts := attempts - {ip};
    }
  }
}
