/** The shared chat of `chat_store.py`: one log, a last-read cursor per reader, and paging back
    through the history. */
module ChatStore {
  import opened Wrappers

  type Id = string

  datatype Message = Message(number: nat, sender: Id, text: string)

  datatype Policy = Open | Allowlist | Disallowlist

  datatype Mode = Unspecified | UnreadHistory | CaughtUp

  datatype Chat = Chat(owner: Id, newReadersSeeHistory: bool, policy: Policy, senders: set<Id>,
                       messages: seq<Message>, cursors: map<Id, nat>)

  // The largest sequence number, 0 for an empty chat.
  function Head(ms: seq<Message>): nat {
    if ms == [] then 0
    else
      var h, last := Head(ms[..|ms| - 1]), ms[|ms| - 1].number;
      if last > h then last else h
  }

  lemma {:induction false} HeadIsLargest(ms: seq<Message>)
    ensures forall i :: 0 <= i < |ms| ==> ms[i].number <= Head(ms)
    ensures Head(ms) == 0 || exists i :: 0 <= i < |ms| && ms[i].number == Head(ms)
  {
    if ms != [] {
      var n := |ms| - 1;
      HeadIsLargest(ms[..n]);
      assert forall i :: 0 <= i < n ==> ms[..n][i] == ms[i];
    }
  }

  predicate CanPost(c: Chat, sender: Id) {
    sender == c.owner || match c.policy
                         case Open => true
                         case Allowlist => sender in c.senders
                         case Disallowlist => sender !in c.senders
  }

  function NewerThan(ms: seq<Message>, cursor: nat): seq<Message> {
    if ms == [] then []
    else NewerThan(ms[..|ms| - 1], cursor) + if ms[|ms| - 1].number > cursor then [ms[|ms| - 1]] else []
  }

  datatype Reply = Refused | Read(messages: seq<Message>, cursor: nat)

  // The cursor a reader starts from: a new one starts at the head unless it sees the history.
  function Start(c: Chat, reader: Id, mode: Mode): nat {
    var seesHistory := mode == UnreadHistory || (mode == Unspecified && c.newReadersSeeHistory);
    if reader in c.cursors then c.cursors[reader] else if seesHistory then 0 else Head(c.messages)
  }

  // The log once the call has posted its text, if it has one.
  function LogAfter(c: Chat, reader: Id, text: string): seq<Message> {
    if text == "" then c.messages else c.messages + [Message(Head(c.messages) + 1, reader, text)]
  }

  // `post_and_read`: an empty text is a read-only check, though it still moves the cursor.
  function Posted(c: Chat, reader: Id, text: string, mode: Mode): (Chat, Reply) {
    if reader == "" || (text != "" && !CanPost(c, reader)) then (c, Refused)
    else
      var ms, prev := LogAfter(c, reader, text), Start(c, reader, mode);
      var cursors := if ms != [] then c.cursors[reader := Head(ms)] else c.cursors;
      (c.(messages := ms, cursors := cursors),
       Read(NewerThan(ms, prev), if reader in cursors then cursors[reader] else prev))
  }

  function WithPolicy(c: Chat, who: Id, policy: Policy, senders: set<Id>): Option<Chat> {
    if who != c.owner then None else Some(c.(policy := policy, senders := senders))
  }

  // ---------------------------------------------------------------- the invariant

  // The i-th message has sequence number i + 1.
  ghost predicate Numbered(ms: seq<Message>) {
    forall i :: 0 <= i < |ms| ==> ms[i].number == i + 1
  }

  // No cursor is ahead of the log.
  ghost predicate Inv(c: Chat) {
    && Numbered(c.messages)
    && (forall r :: r in c.cursors ==> 0 < c.cursors[r] <= |c.messages|)
  }

  lemma {:induction false} HeadIsLength(ms: seq<Message>)
    requires Numbered(ms)
    ensures Head(ms) == |ms|
  {
    if ms != [] {
      HeadIsLength(ms[..|ms| - 1]);
    }
  }

  lemma {:induction false} NewerThanIsSuffix(ms: seq<Message>, cursor: nat)
    requires Numbered(ms) && cursor <= |ms|
    ensures NewerThan(ms, cursor) == ms[cursor..]
  {
    if ms != [] {
      var n := |ms| - 1;
      if cursor <= n {
        NewerThanIsSuffix(ms[..n], cursor);
        SuffixSnoc(ms, cursor);
      } else {
        NewerThanEmpty(ms, cursor);
      }
    }
  }

  lemma SuffixSnoc(ms: seq<Message>, cursor: nat)
    requires ms != [] && cursor <= |ms| - 1
    ensures ms[..|ms| - 1][cursor..] + [ms[|ms| - 1]] == ms[cursor..]
  {
  }

  lemma {:induction false} NewerThanEmpty(ms: seq<Message>, cursor: nat)
    requires forall i :: 0 <= i < |ms| ==> ms[i].number <= cursor
    ensures NewerThan(ms, cursor) == []
  {
    if ms != [] {
      NewerThanEmpty(ms[..|ms| - 1], cursor);
    }
  }

  lemma LogAfterGrows(c: Chat, reader: Id, text: string)
    requires Inv(c)
    ensures var ms := LogAfter(c, reader, text);
            && Numbered(ms) && Head(ms) == |ms| && c.messages <= ms
            && ms == c.messages + (if text == "" then [] else [Message(|c.messages| + 1, reader, text)])
  {
    HeadIsLength(c.messages);
    HeadIsLength(LogAfter(c, reader, text));
  }

  // Where a reader starts: at its cursor, or else at the beginning or the end of the log.
  lemma StartIs(c: Chat, reader: Id, mode: Mode)
    requires Inv(c)
    ensures Start(c, reader, mode) <= |c.messages|
    ensures Start(c, reader, mode)
            == if reader in c.cursors then c.cursors[reader]
               else match mode
                    case UnreadHistory => 0
                    case CaughtUp => |c.messages|
                    case Unspecified => if c.newReadersSeeHistory then 0 else |c.messages|
  {
    HeadIsLength(c.messages);
  }

  /** What a call that is not refused does: its post goes to the end of the log, its cursor to the
      end of that, and it is given the log after the cursor it had. A reader that had none is given the
      whole log, if it asked for the history or the chat shows it to new readers, and else its own post. */
  lemma PostedIs(c: Chat, reader: Id, text: string, mode: Mode)
    requires Inv(c) && Posted(c, reader, text, mode).1.Read?
    ensures var (c', reply) := Posted(c, reader, text, mode);
            var ms := c.messages + (if text == "" then [] else [Message(|c.messages| + 1, reader, text)]);
            var start := if reader in c.cursors then c.cursors[reader]
                         else match mode
                              case UnreadHistory => 0
                              case CaughtUp => |c.messages|
                              case Unspecified => if c.newReadersSeeHistory then 0 else |c.messages|;
            && start <= |c.messages|
            && c' == c.(messages := ms, cursors := if ms == [] then c.cursors else c.cursors[reader := |ms|])
            && reply.messages == ms[start..] && reply.cursor == |ms|
  {
    hide Start, LogAfter, NewerThan, Numbered, CanPost, Head;
    StartIs(c, reader, mode);
    LogAfterGrows(c, reader, text);
    NewerThanIsSuffix(LogAfter(c, reader, text), Start(c, reader, mode));
  }

  lemma PostAndReadInv(c: Chat, reader: Id, text: string, mode: Mode)
    requires Inv(c)
    ensures var (c', reply) := Posted(c, reader, text, mode);
            && Inv(c') && c.messages <= c'.messages && c.cursors.Keys <= c'.cursors.Keys
            && (reply.Refused? ==> c' == c)
  {
    if Posted(c, reader, text, mode).1.Read? {
      PostedIs(c, reader, text, mode);
      LogAfterGrows(c, reader, text);
    }
  }

  /** A `caught_up` reader that first looks at an empty room gets no cursor. */
  lemma EmptyRoomGivesNoCursor(c: Chat, reader: Id, mode: Mode)
    requires Inv(c) && c.messages == [] && reader != ""
    ensures Posted(c, reader, "", mode) == (c, Read([], 0))
  {
    assert reader !in c.cursors;
  }

  // ---------------------------------------------------------------- runs

  datatype Op =
    | Call(reader: Id, text: string, mode: Mode)
    | SetPolicy(who: Id, policy: Policy, senders: set<Id>)

  function Apply(c: Chat, op: Op): (Chat, Reply) {
    match op
    case Call(reader, text, mode) => Posted(c, reader, text, mode)
    case SetPolicy(who, policy, senders) =>
      var r := WithPolicy(c, who, policy, senders);
      (if r.Some? then r.value else c, Refused)
  }

  function Run(c: Chat, ops: seq<Op>): Chat {
    if ops == [] then c else Apply(Run(c, ops[..|ops| - 1]), ops[|ops| - 1]).0
  }

  // Everything the reader's calls in the run gave back, in order.
  function Given(c: Chat, ops: seq<Op>, reader: Id): seq<Message> {
    if ops == [] then []
    else
      var n := |ops| - 1;
      var reply := Apply(Run(c, ops[..n]), ops[n]).1;
      Given(c, ops[..n], reader)
      + if ops[n].Call? && ops[n].reader == reader && reply.Read? then reply.messages else []
  }

  lemma {:induction false} RunInv(c: Chat, ops: seq<Op>)
    requires Inv(c)
    ensures Inv(Run(c, ops)) && c.messages <= Run(c, ops).messages && c.cursors.Keys <= Run(c, ops).cursors.Keys
  {
    if ops != [] {
      var n := |ops| - 1;
      RunInv(c, ops[..n]);
      var mid := Run(c, ops[..n]);
      if ops[n].Call? {
        PostAndReadInv(mid, ops[n].reader, ops[n].text, ops[n].mode);
      }
    }
  }

  /** Once a reader has a cursor, what it is given over any run, whoever else posts in between, is
      the log from that cursor to its latest one: no gap, no repeat. */
  lemma {:induction false} BatchesConcatenate(c: Chat, ops: seq<Op>, reader: Id)
    requires Inv(c) && reader in c.cursors
    ensures var c' := Run(c, ops);
            && reader in c'.cursors && c.cursors[reader] <= c'.cursors[reader] <= |c'.messages|
            && Given(c, ops, reader) == c'.messages[c.cursors[reader]..c'.cursors[reader]]
  {
    if ops != [] {
      var n := |ops| - 1;
      var mid := Run(c, ops[..n]);
      BatchesConcatenate(c, ops[..n], reader);
      RunInv(c, ops[..n]);
      NextBatch(mid, ops[n], reader, c.cursors[reader]);
    }
  }

  // What one step adds to what a reader has been given since `start`.
  ghost predicate Batched(mid: Chat, c': Chat, reader: Id, start: nat, batch: seq<Message>) {
    && reader in mid.cursors && reader in c'.cursors
    && start <= mid.cursors[reader] <= |mid.messages|
    && mid.cursors[reader] <= c'.cursors[reader] <= |c'.messages|
    && mid.messages[start..mid.cursors[reader]] + batch == c'.messages[start..c'.cursors[reader]]
  }

  lemma NextBatch(mid: Chat, op: Op, reader: Id, start: nat)
    requires Inv(mid) && reader in mid.cursors && start <= mid.cursors[reader]
    ensures var (c', reply) := Apply(mid, op);
            Batched(mid, c', reader, start,
                    if op.Call? && op.reader == reader && reply.Read? then reply.messages else [])
  {
    hide Posted, Numbered, Batched;
    if op.Call? && Posted(mid, op.reader, op.text, op.mode).1.Read? {
      if op.reader == reader {
        OwnBatch(mid, reader, op.text, op.mode, start);
      } else {
        OthersBatch(mid, op.reader, op.text, op.mode, reader, start);
      }
    } else {
      if op.Call? {
        PostAndReadInv(mid, op.reader, op.text, op.mode);
      }
      NoBatch(mid, Apply(mid, op).0, reader, start);
    }
  }

  lemma OwnBatch(mid: Chat, reader: Id, text: string, mode: Mode, start: nat)
    requires Inv(mid) && reader in mid.cursors && start <= mid.cursors[reader]
    requires Posted(mid, reader, text, mode).1.Read?
    ensures var (c', reply) := Posted(mid, reader, text, mode); Batched(mid, c', reader, start, reply.messages)
  {
    hide Posted, Numbered;
    PostedIs(mid, reader, text, mode);
    ReadOn(mid.messages, Posted(mid, reader, text, mode).0.messages, start, mid.cursors[reader]);
  }

  lemma OthersBatch(mid: Chat, other: Id, text: string, mode: Mode, reader: Id, start: nat)
    requires Inv(mid) && reader in mid.cursors && start <= mid.cursors[reader] && other != reader
    requires Posted(mid, other, text, mode).1.Read?
    ensures Batched(mid, Posted(mid, other, text, mode).0, reader, start, [])
  {
    hide Posted, Numbered;
    PostedIs(mid, other, text, mode);
    ReadOn(mid.messages, Posted(mid, other, text, mode).0.messages, start, mid.cursors[reader]);
  }

  lemma NoBatch(mid: Chat, c': Chat, reader: Id, start: nat)
    requires Inv(mid) && reader in mid.cursors && start <= mid.cursors[reader]
    requires c'.messages == mid.messages && c'.cursors == mid.cursors
    ensures Batched(mid, c', reader, start, [])
  {
  }

  // A longer log from an earlier place on.
  lemma ReadOn(ms: seq<Message>, later: seq<Message>, a: nat, b: nat)
    requires ms <= later && a <= b <= |ms|
    ensures later[a..b] == ms[a..b] && ms[a..b] + later[b..] == later[a..|later|] && ms[a..b] + [] == ms[a..b]
  {
    EarlierSlice(ms, later, a, b);
    SlicesMeet(later, a, b);
  }

  lemma EarlierSlice(ms: seq<Message>, later: seq<Message>, a: nat, b: nat)
    requires ms <= later && a <= b <= |ms|
    ensures later[a..b] == ms[a..b]
  {
    assert later[..|ms|] == ms;
  }

  lemma SlicesMeet(ms: seq<Message>, a: nat, b: nat)
    requires a <= b <= |ms|
    ensures ms[a..b] + ms[b..] == ms[a..|ms|]
  {
  }

  // Who may post: the owner, anybody when the chat is open, those on an allowlist, those not on a disallowlist.
  predicate Permitted(owner: Id, policy: Policy, senders: set<Id>, who: Id) {
    who == owner || policy == Open || (policy == Allowlist <==> who in senders)
  }

  /** A call without a reader is refused, and a post by somebody whom the policy does not permit, and
      nothing else; a refused call changes nothing. */
  lemma RefusedExactly(c: Chat, reader: Id, text: string, mode: Mode)
    ensures var (c', reply) := Posted(c, reader, text, mode);
            && (reply.Refused? <==> reader == "" || (text != "" && !Permitted(c.owner, c.policy, c.senders, reader)))
            && (reply.Refused? ==> c' == c)
  {
  }

  // The policy after a run: the owner's latest setting, or the one there was.
  function InForce(c: Chat, ops: seq<Op>): (Policy, set<Id>) {
    if ops == [] then (c.policy, c.senders)
    else
      var op := ops[|ops| - 1];
      if op.SetPolicy? && op.who == c.owner then (op.policy, op.senders) else InForce(c, ops[..|ops| - 1])
  }

  // What was posted in a run by somebody the policy then in force permitted.
  function Posts(c: Chat, ops: seq<Op>): seq<(Id, string)> {
    if ops == [] then []
    else
      var before, op := ops[..|ops| - 1], ops[|ops| - 1];
      var (policy, senders) := InForce(c, before);
      Posts(c, before)
      + if op.Call? && op.reader != "" && op.text != "" && Permitted(c.owner, policy, senders, op.reader)
        then [(op.reader, op.text)] else []
  }

  // The log of `ms` followed by these posts.
  ghost predicate Continues(ms: seq<Message>, posts: seq<(Id, string)>, later: seq<Message>) {
    && ms <= later && |later| == |ms| + |posts|
    && forall i :: 0 <= i < |posts| ==> later[|ms| + i] == Message(|ms| + i + 1, posts[i].0, posts[i].1)
  }

  lemma ContinuesOn(ms: seq<Message>, posts: seq<(Id, string)>, mid: seq<Message>, op: Op)
    requires Continues(ms, posts, mid)
    ensures Continues(ms, posts + [], mid + [])
    ensures op.Call? ==>
              Continues(ms, posts + [(op.reader, op.text)], mid + [Message(|mid| + 1, op.reader, op.text)])
  {
  }

  lemma OneMorePost(c: Chat, op: Op)
    requires Inv(c)
    ensures var c', post := Apply(c, op).0, op.Call? && op.reader != "" && op.text != "";
            && c'.messages == c.messages + (if post && Permitted(c.owner, c.policy, c.senders, op.reader)
                                            then [Message(|c.messages| + 1, op.reader, op.text)] else [])
            && c'.owner == c.owner
            && (c'.policy, c'.senders) == if op.SetPolicy? && op.who == c.owner then (op.policy, op.senders)
                                          else (c.policy, c.senders)
  {
    if op.Call? {
      hide Posted, Permitted;
      RefusedExactly(c, op.reader, op.text, op.mode);
      if Posted(c, op.reader, op.text, op.mode).1.Read? {
        PostedIs(c, op.reader, op.text, op.mode);
      }
    }
  }

  /** After any run the log is what it was and then, numbered in order, exactly the texts posted by those
      whom the policy in force permitted when they posted; the policy is the owner's latest. */
  lemma {:induction false} LogIsPosts(c: Chat, ops: seq<Op>)
    requires Inv(c)
    ensures var c' := Run(c, ops);
            && Continues(c.messages, Posts(c, ops), c'.messages)
            && c'.owner == c.owner && (c'.policy, c'.senders) == InForce(c, ops)
  {
    if ops != [] {
      var n := |ops| - 1;
      var mid := Run(c, ops[..n]);
      hide Apply, Permitted, Continues, Inv;
      LogIsPosts(c, ops[..n]);
      RunInv(c, ops[..n]);
      OneMorePost(mid, ops[n]);
      ContinuesOn(c.messages, Posts(c, ops[..n]), mid.messages, ops[n]);
    } else {
      assert Run(c, ops) == c && Posts(c, ops) == [];
    }
  }

  // ---------------------------------------------------------------- paging

  function Below(ms: seq<Message>, before: Option<int>): seq<Message> {
    if ms == [] then []
    else Below(ms[..|ms| - 1], before)
         + if before.None? || ms[|ms| - 1].number < before.value then [ms[|ms| - 1]] else []
  }

  function CleanLimit(limit: int): (l: nat)
    ensures 1 <= l <= 200
    ensures if 1 <= limit <= 200 then l == limit else l == if limit == 0 then 50 else if limit < 0 then 1 else 200
  {
    var l := if limit == 0 then 50 else limit;
    if l > 200 then 200 else if l < 1 then 1 else l
  }

  datatype Page = Page(messages: seq<Message>, nextBefore: Option<int>)

  // `read_history`
  function PageBelow(ms: seq<Message>, limit: int, before: Option<int>): Page {
    var bounded := Below(ms, before);
    var l := CleanLimit(limit);
    var page := if |bounded| <= l then bounded else bounded[|bounded| - l..];
    Page(page, if |bounded| > |page| && page != [] then Some(page[0].number) else None)
  }

  function Clamp(n: nat, before: Option<int>): (k: nat)
    ensures k <= n
  {
    if before.None? || before.value > n then n else if before.value < 1 then 0 else before.value - 1
  }

  lemma {:induction false} BelowIsPrefix(ms: seq<Message>, before: Option<int>)
    requires Numbered(ms)
    ensures Below(ms, before) == ms[..Clamp(|ms|, before)]
  {
    if ms != [] {
      var n := |ms| - 1;
      BelowIsPrefix(ms[..n], before);
      assert ms[..n] + [ms[n]] == ms;
    }
  }

  // A page of a numbered log is the last `limit` messages below the bound.
  lemma PageIsSlice(ms: seq<Message>, limit: int, before: Option<int>)
    requires Numbered(ms)
    ensures var k, l := Clamp(|ms|, before), CleanLimit(limit);
            PageBelow(ms, limit, before)
            == if k <= l then Page(ms[..k], None) else Page(ms[k - l..k], Some(k - l + 1))
  {
    hide Below, Clamp, CleanLimit;
    BelowIsPrefix(ms, before);
    var k, l := Clamp(|ms|, before), CleanLimit(limit);
    if k > l {
      assert ms[..k][k - l..] == ms[k - l..k];
    }
  }

  // Following `nextBefore`, each page read from the log as it is by then. The pages are put
  // together oldest first; `nextBefore` is None when there is nothing older.
  function Follow(logs: seq<seq<Message>>, limit: int, before: Option<int>): Page
    requires logs != []
  {
    var page := PageBelow(logs[0], limit, before);
    if page.nextBefore.None? || |logs| == 1 then page
    else
      var rest := Follow(logs[1..], limit, page.nextBefore);
      Page(rest.messages + page.messages, rest.nextBefore)
  }

  /** The pages partition what lay below the starting bound when the first was read, each message
      once, whatever is posted between pages; and the walk ends after exactly the number of pages
      that takes. */
  lemma PagesPartition(logs: seq<seq<Message>>, limit: int, before: Option<int>)
    requires Growing(logs)
    ensures 0 <= |logs| * CleanLimit(limit)
    ensures IsLast(Follow(logs, limit, before), logs[0], Clamp(|logs[0]|, before), |logs| * CleanLimit(limit))
  {
    PagesJoin(logs, limit, before);
    TotalIsProduct(|logs|, CleanLimit(limit));
  }

  // The log as each page finds it.
  ghost predicate Growing(logs: seq<seq<Message>>) {
    && logs != [] && (forall i :: 0 <= i < |logs| ==> Numbered(logs[i]))
    && (forall i, j :: 0 <= i < j < |logs| ==> logs[i] <= logs[j])
  }

  function Total(pages: nat, l: nat): nat {
    if pages == 0 then 0 else l + Total(pages - 1, l)
  }

  lemma TotalIsProduct(pages: nat, l: nat)
    ensures Total(pages, l) == pages * l
  {
  }

  lemma {:induction false} PagesJoin(logs: seq<seq<Message>>, limit: int, before: Option<int>)
    requires Growing(logs)
    ensures IsLast(Follow(logs, limit, before), logs[0], Clamp(|logs[0]|, before), Total(|logs|, CleanLimit(limit)))
    decreases |logs|
  {
    var k, l := Clamp(|logs[0]|, before), CleanLimit(limit);
    if |logs| > 1 && k > l {
      StillGrowing(logs);
      PagesJoin(logs[1..], limit, Some(k - l + 1));
      FollowGoesOn(logs, limit, before, Follow(logs[1..], limit, Some(k - l + 1)));
    } else {
      FollowEnds(logs, limit, before);
    }
  }

  lemma StillGrowing(logs: seq<seq<Message>>)
    requires Growing(logs) && |logs| > 1
    ensures Growing(logs[1..]) && logs[0] <= logs[1] && |logs[0]| <= |logs[1]| && logs[1..][0] == logs[1]
  {
  }

  lemma FollowEnds(logs: seq<seq<Message>>, limit: int, before: Option<int>)
    requires Growing(logs) && (|logs| == 1 || Clamp(|logs[0]|, before) <= CleanLimit(limit))
    ensures IsLast(Follow(logs, limit, before), logs[0], Clamp(|logs[0]|, before), Total(|logs|, CleanLimit(limit)))
  {
    hide Below, Clamp;
    PageIsSlice(logs[0], limit, before);
    assert Total(|logs|, CleanLimit(limit)) == CleanLimit(limit) + Total(|logs| - 1, CleanLimit(limit));
    assert Follow(logs, limit, before) == PageBelow(logs[0], limit, before);
  }

  // The walk has given the last n of the first k messages, oldest first, and says where it stopped.
  ghost predicate IsLast(walk: Page, ms: seq<Message>, k: nat, n: int)
    requires k <= |ms| && 0 <= n
  {
    && walk.messages == ms[if k <= n then 0 else k - n..k]
    && walk.nextBefore == if k <= n then None else Some(k - n + 1)
  }

  lemma FollowOn(logs: seq<seq<Message>>, limit: int, before: Option<int>)
    requires |logs| > 1 && Numbered(logs[0]) && Clamp(|logs[0]|, before) > CleanLimit(limit)
    ensures var k, l := Clamp(|logs[0]|, before), CleanLimit(limit);
            var rest := Follow(logs[1..], limit, Some(k - l + 1));
            Follow(logs, limit, before) == Page(rest.messages + logs[0][k - l..k], rest.nextBefore)
  {
    hide Below, Clamp, PageBelow, CleanLimit;
    PageIsSlice(logs[0], limit, before);
    hide Numbered;
  }

  lemma FollowGoesOn(logs: seq<seq<Message>>, limit: int, before: Option<int>, rest: Page)
    requires |logs| > 1 && Numbered(logs[0]) && logs[0] <= logs[1] && |logs[0]| <= |logs[1]|
    requires Clamp(|logs[0]|, before) > CleanLimit(limit)
    requires rest == Follow(logs[1..], limit, Some(Clamp(|logs[0]|, before) - CleanLimit(limit) + 1))
    requires IsLast(rest, logs[1], Clamp(|logs[0]|, before) - CleanLimit(limit), Total(|logs| - 1, CleanLimit(limit)))
    ensures IsLast(Follow(logs, limit, before), logs[0], Clamp(|logs[0]|, before), Total(|logs|, CleanLimit(limit)))
  {
    hide PageBelow, Clamp;
    var ms, k, l, n := logs[0], Clamp(|logs[0]|, before), CleanLimit(limit), Total(|logs|, CleanLimit(limit));
    assert n == l + Total(|logs| - 1, l);
    FollowOn(logs, limit, before);
    LastGrows(rest, ms, logs[1], k, l, n);
  }

  lemma LastGrows(rest: Page, ms: seq<Message>, later: seq<Message>, k: nat, l: nat, n: nat)
    requires l <= k <= |ms| && l <= n && ms <= later && IsLast(rest, later, k - l, n - l)
    ensures IsLast(Page(rest.messages + ms[k - l..k], rest.nextBefore), ms, k, n)
  {
    SlicesJoin(ms, later, if k <= n then 0 else k - n, k - l, k);
  }

  lemma SlicesJoin(ms: seq<Message>, later: seq<Message>, a: nat, b: nat, c: nat)
    requires ms <= later && a <= b <= c <= |ms|
    ensures later[a..b] + ms[b..c] == ms[a..c]
  {
    assert later[..|ms|] == ms;
  }

  // ---------------------------------------------------------------- the stored chats

  lemma PostedSteps(c: Chat, reader: Id, text: string, mode: Mode)
    ensures text == "" ==> LogAfter(c, reader, text) == c.messages
    ensures reader == "" || (text != "" && !CanPost(c, reader)) ==> Posted(c, reader, text, mode) == (c, Refused)
    ensures reader != "" && (text == "" || CanPost(c, reader)) ==>
              var ms, prev := LogAfter(c, reader, text), Start(c, reader, mode);
              var cursors := if ms != [] then c.cursors[reader := Head(ms)] else c.cursors;
              Posted(c, reader, text, mode)
              == (c.(messages := ms, cursors := cursors),
                  Read(NewerThan(ms, prev), if reader in cursors then cursors[reader] else prev))
  {
  }

  class ChatFiles {
    var chats: map<Id, Chat>

    ghost predicate Valid() reads this {
      forall id :: id in chats ==> Inv(chats[id])
    }

    constructor ()
      ensures Valid() && chats == map[]
    {
      chats := map[];
    }

    // None: there is no such chat.
    method PostAndRead(id: Id, reader: Id, text: string, mode: Mode) returns (r: Option<Reply>)
      requires Valid()
      modifies this
      ensures Valid() && chats.Keys == old(chats.Keys) && (r.Some? <==> id in chats)
      ensures id in chats ==> chats[id] == Posted(old(chats)[id], reader, text, mode).0
      ensures id in chats ==> r.value == Posted(old(chats)[id], reader, text, mode).1
      ensures id in chats ==>
        var c := old(chats)[id];
        (r.value.Refused? <==> reader == "" || (text != "" && !Permitted(c.owner, c.policy, c.senders, reader)))
      ensures forall other :: other in chats && other != id ==> chats[other] == old(chats)[other]
    {
      if id !in chats {
        return None;
      }
      hide Inv, Head, NewerThan, Start, LogAfter, CanPost, Permitted, Posted;
      var c := chats[id];
      PostedSteps(c, reader, text, mode);
      PostAndReadInv(c, reader, text, mode);
      RefusedExactly(c, reader, text, mode);
      if reader == "" {
        return Some(Refused);
      }
      var messages, cursors := c.messages, c.cursors;
      if text != "" {
        if !CanPost(c, reader) {
          return Some(Refused);
        }
        messages := LogAfter(c, reader, text);
      }
      var prev := Start(c, reader, mode);
      var batch := NewerThan(messages, prev);
      if messages != [] {
        cursors := cursors[reader := Head(messages)];
      }
      var reply := Read(batch, if reader in cursors then cursors[reader] else prev);
      chats := chats[id := c.(messages := messages, cursors := cursors)];
      r := Some(reply);
    }

    method SetSenderPolicy(id: Id, who: Id, policy: Policy, senders: set<Id>) returns (ok: bool)
      requires Valid()
      modifies this
      ensures Valid() && (ok <==> id in old(chats) && who == old(chats)[id].owner)
      ensures chats == if ok then old(chats)[id := old(chats)[id].(policy := policy, senders := senders)]
              else old(chats)
    {
      if id !in chats || WithPolicy(chats[id], who, policy, senders).None? {
        return false;
      }
      chats := chats[id := WithPolicy(chats[id], who, policy, senders).value];
      ok := true;
    }

    method ReadHistory(id: Id, limit: int, before: Option<int>) returns (page: Option<Page>)
      requires Valid()
      ensures page.Some? <==> id in chats
      ensures id in chats ==>
        var ms := chats[id].messages;
        var k, l := Clamp(|ms|, before), CleanLimit(limit);
        page.value == if k <= l then Page(ms[..k], None) else Page(ms[k - l..k], Some(k - l + 1))
    {
      if id !in chats {
        return None;
      }
      var messages := chats[id].messages;
      PageIsSlice(messages, limit, before);
      page := Some(PageBelow(messages, limit, before));
    }
  }
}
