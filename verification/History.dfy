/** The two-way history of server/src/database_worker.cpp: newest messages of each direction, merged by
timestamp and cut. */
module History {
  import opened Numbers
  import opened Store
  import opened StoreInvariant

  ghost predicate SortedDesc(ms: seq<Message>) {
    forall i, j :: 0 <= i < j < |ms| ==> ms[i].ts >= ms[j].ts
  }

  /** What `std::sort` by descending timestamp may return: it is not stable, so equal timestamps come in any order. */
  ghost predicate IsSortOf(sorted: seq<Message>, ms: seq<Message>) {
    multiset(sorted) == multiset(ms) && SortedDesc(sorted)
  }

  function Cut(ms: seq<Message>, max: nat): seq<Message> {
    if |ms| <= max then ms else ms[..max]
  }

  ghost predicate IsPageOf(page: seq<Message>, ms: seq<Message>, max: nat) {
    exists sorted :: IsSortOf(sorted, ms) && page == Cut(sorted, max)
  }

  // ---------------------------------------------------------------- the merge

  /** Stands for `std::sort`; callers know no more than `IsSortOf`. */
  method Sort(ms: seq<Message>) returns (sorted: seq<Message>)
    ensures IsSortOf(sorted, ms)
  {
    hide *;
    sorted := [];
    NothingSorted(ms);
    for n := 0 to |ms|
      invariant IsSortOf(sorted, ms[..n])
    {
      var i := |sorted|;
      NothingBehind(sorted, ms[n]);
      while i > 0 && sorted[i - 1].ts < ms[n].ts
        invariant 0 <= i <= |sorted| && OlderFrom(sorted, i, ms[n])
      {
        OneMoreOlder(sorted, i, ms[n]);
        i := i - 1;
      }
      InsertSorts(sorted, i, ms, n);
      sorted := sorted[..i] + [ms[n]] + sorted[i..];
    }
  }

  ghost predicate OlderFrom(sorted: seq<Message>, i: nat, m: Message) {
    forall k :: i <= k < |sorted| ==> sorted[k].ts < m.ts
  }

  lemma NothingSorted(ms: seq<Message>)
    ensures IsSortOf([], ms[..0]) && ms[..|ms|] == ms
  {
    assert ms[..0] == [];
  }

  lemma NothingBehind(sorted: seq<Message>, m: Message)
    ensures OlderFrom(sorted, |sorted|, m)
  {
  }

  lemma OneMoreOlder(sorted: seq<Message>, i: nat, m: Message)
    requires 0 < i <= |sorted| && OlderFrom(sorted, i, m) && sorted[i - 1].ts < m.ts
    ensures OlderFrom(sorted, i - 1, m)
  {
  }

  lemma InsertSorts(sorted: seq<Message>, i: nat, ms: seq<Message>, n: nat)
    requires n < |ms| && IsSortOf(sorted, ms[..n]) && i <= |sorted| && OlderFrom(sorted, i, ms[n])
    requires i > 0 ==> sorted[i - 1].ts >= ms[n].ts
    ensures IsSortOf(sorted[..i] + [ms[n]] + sorted[i..], ms[..n + 1])
  {
    hide OlderFrom, SortedDesc;
    InsertKeepsOrder(sorted, i, ms[n]);
    InsertPermutes(sorted, i, ms[n], ms[..n]);
    assert ms[..n + 1] == ms[..n] + [ms[n]];
  }

  lemma InsertKeepsOrder(sorted: seq<Message>, i: nat, m: Message)
    requires SortedDesc(sorted) && i <= |sorted| && OlderFrom(sorted, i, m) && (i > 0 ==> sorted[i - 1].ts >= m.ts)
    ensures SortedDesc(sorted[..i] + [m] + sorted[i..])
  {
  }

  lemma InsertPermutes(sorted: seq<Message>, i: nat, m: Message, ms: seq<Message>)
    requires i <= |sorted| && multiset(sorted) == multiset(ms)
    ensures multiset(sorted[..i] + [m] + sorted[i..]) == multiset(ms + [m])
  {
    hide *;
    assert sorted == sorted[..i] + sorted[i..];
    assert multiset(sorted[..i] + [m] + sorted[i..]) == multiset(sorted[..i]) + multiset{m} + multiset(sorted[i..]);
  }

  method MixFromAndToMessages(from: seq<Message>, to: seq<Message>, max: nat) returns (ret: seq<Message>)
    ensures IsPageOf(ret, from + to, max)
  {
    var tmp := Sort(from + to);
    if |tmp| <= max {
      return tmp;
    }
    return tmp[..max];
  }

  // ---------------------------------------------------------------- counting by timestamp

  function CountFrom(ms: seq<Message>, t: nat): nat {
    if ms == [] then 0 else CountFrom(ms[..|ms| - 1], t) + (if ms[|ms| - 1].ts >= t then 1 else 0)
  }

  lemma {:induction false} CountAppend(a: seq<Message>, b: seq<Message>, t: nat)
    ensures CountFrom(a + b, t) == CountFrom(a, t) + CountFrom(b, t)
    decreases |b|
  {
    if b == [] {
      assert a + b == a;
    } else {
      var init := b[..|b| - 1];
      assert (a + b)[..|a + b| - 1] == a + init;
      CountAppend(a, init, t);
    }
  }

  lemma PermutationLength(a: seq<Message>, b: seq<Message>)
    requires multiset(a) == multiset(b)
    ensures |a| == |b|
  {
    assert |multiset(a)| == |a| && |multiset(b)| == |b|;
  }

  /** The other list, split around an occurrence of `x`. */
  lemma WithoutOne(init: seq<Message>, x: Message, b: seq<Message>) returns (l: seq<Message>, r: seq<Message>)
    requires multiset(init + [x]) == multiset(b)
    ensures b == l + [x] + r && multiset(init) == multiset(l + r)
  {
    assert x in multiset(init + [x]);
    var i :| 0 <= i < |b| && b[i] == x;
    l, r := b[..i], b[i + 1..];
    assert b == l + [x] + r;
    assert multiset(b) == multiset(l + r) + multiset{x};
    assert multiset(init + [x]) == multiset(init) + multiset{x};
    assert multiset(init) == multiset(b) - multiset{x};
  }

  lemma {:induction false} CountOfPermutation(a: seq<Message>, b: seq<Message>, t: nat)
    requires multiset(a) == multiset(b)
    ensures CountFrom(a, t) == CountFrom(b, t)
    decreases |a|
  {
    if a == [] {
      PermutationLength(a, b);
    } else {
      var init, x := a[..|a| - 1], a[|a| - 1];
      assert a == init + [x];
      var l, r := WithoutOne(init, x, b);
      CountOfPermutation(init, l + r, t);
      CountAppend(init, [x], t);
      CountAppend(l + [x], r, t);
      CountAppend(l, [x], t);
      CountAppend(l, r, t);
    }
  }

  /** In a sorted list the messages from `t` on are exactly the first `CountFrom` ones. */
  lemma {:induction false} CountInSorted(ms: seq<Message>, t: nat)
    requires SortedDesc(ms)
    ensures CountFrom(ms, t) <= |ms|
    ensures forall j :: 0 <= j < |ms| ==> (ms[j].ts >= t <==> j < CountFrom(ms, t))
  {
    if ms != [] {
      var init := ms[..|ms| - 1];
      CountInSorted(init, t);
      assert forall j :: 0 <= j < |init| ==> init[j] == ms[j];
      var c := CountFrom(init, t);
      assert c < |init| ==> ms[c].ts < t;
    }
  }

  // ---------------------------------------------------------------- when the newest are all there

  /** The newest `count` messages of `ms`: as many as there are, newest first, and none left out is newer than one of
  them. */
  ghost predicate NewestOf(page: seq<Message>, ms: seq<Message>, count: nat) {
    && |page| == Min(count, |ms|) && multiset(page) <= multiset(ms)
    && (forall i, j :: 0 <= i < j < |page| ==> page[i].ts >= page[j].ts)
    && (forall m: Message, i: nat :: m in multiset(ms) - multiset(page) && i < |page| ==> m.ts <= page[i].ts)
  }

  /** Every message of `dropped` has at least `count` messages of `kept` that are not older. */
  predicate NoneMissed(kept: seq<Message>, dropped: seq<Message>, count: nat) {
    forall m :: m in dropped ==> CountFrom(kept, m.ts) >= count
  }

  /** What a cut leaves out: the rest of the sorted list, and all that was dropped before. */
  lemma LeftOut(kept: seq<Message>, dropped: seq<Message>, all: seq<Message>, order: seq<Message>, count: nat)
    requires IsSortOf(order, kept) && multiset(all) == multiset(kept + dropped)
    ensures var page := Cut(order, count);
      && multiset(all) - multiset(page) == multiset(order[|page|..]) + multiset(dropped)
      && multiset(page) <= multiset(all) && |order| == |kept| && |all| == |kept| + |dropped|
      && |page| == Min(count, |order|)
  {
    var page := Cut(order, count);
    var rest := order[|page|..];
    assert order == page + rest;
    PermutationLength(order, kept);
    PermutationLength(all, kept + dropped);
    hide IsSortOf;
    assert multiset(all) == multiset(page) + multiset(rest) + multiset(dropped);
  }

  lemma NoneLeftOutIsNewer(kept: seq<Message>, dropped: seq<Message>, order: seq<Message>, count: nat, m: Message,
                           i: nat)
    requires IsSortOf(order, kept) && NoneMissed(kept, dropped, count) && i < |Cut(order, count)|
    requires m in order[|Cut(order, count)|..] || m in dropped
    ensures m.ts <= Cut(order, count)[i].ts
  {
    hide CountFrom;
    if m in dropped {
      CountOfPermutation(order, kept, m.ts);
      CountInSorted(order, m.ts);
    }
  }

  lemma KeptEnough(kept: seq<Message>, dropped: seq<Message>, count: nat)
    requires NoneMissed(kept, dropped, count)
    ensures dropped != [] ==> |kept| >= count
  {
    if dropped != [] {
      assert dropped[0] in dropped;
      CountAtMost(kept, dropped[0].ts);
    }
  }

  lemma {:induction false} CountAtMost(ms: seq<Message>, t: nat)
    ensures CountFrom(ms, t) <= |ms|
  {
    if ms != [] { CountAtMost(ms[..|ms| - 1], t); }
  }

  lemma NoneMissedIsEnough(kept: seq<Message>, dropped: seq<Message>, all: seq<Message>, order: seq<Message>,
                           count: nat)
    requires IsSortOf(order, kept) && multiset(all) == multiset(kept + dropped) && NoneMissed(kept, dropped, count)
    ensures NewestOf(Cut(order, count), all, count)
  {
    assert SortedDesc(order);
    LeftOut(kept, dropped, all, order, count);
    KeptEnough(kept, dropped, count);
    hide IsSortOf, NoneMissed;
    var page := Cut(order, count);
    forall m: Message, i: nat | m in multiset(all) - multiset(page) && i < |page| ensures m.ts <= page[i].ts {
      assert m in order[|page|..] || m in dropped;
      NoneLeftOutIsNewer(kept, dropped, order, count, m, i);
    }
  }

  lemma MissedShows(kept: seq<Message>, dropped: seq<Message>, all: seq<Message>, order: seq<Message>, count: nat,
                    m: Message)
    requires IsSortOf(order, kept) && multiset(all) == multiset(kept + dropped)
    requires m in dropped && CountFrom(kept, m.ts) < count
    ensures !NewestOf(Cut(order, count), all, count)
  {
    LeftOut(kept, dropped, all, order, count);
    hide CountFrom;
    var page := Cut(order, count);
    CountOfPermutation(order, kept, m.ts);
    CountInSorted(order, m.ts);
    var c := CountFrom(kept, m.ts);
    assert m in multiset(all) - multiset(page);
    assert c < |page| ==> page[c].ts < m.ts;
  }

  /** Sorting what was kept and cutting to `count` gives the newest of everything, exactly when no dropped message is
  missed. */
  lemma NewestAreThereIff(kept: seq<Message>, dropped: seq<Message>, all: seq<Message>, order: seq<Message>, count: nat)
    requires IsSortOf(order, kept) && multiset(all) == multiset(kept + dropped)
    ensures NewestOf(Cut(order, count), all, count) <==> NoneMissed(kept, dropped, count)
  {
    hide IsSortOf, Cut, NewestOf, CountFrom;
    if NoneMissed(kept, dropped, count) {
      NoneMissedIsEnough(kept, dropped, all, order, count);
    } else {
      var m :| m in dropped && CountFrom(kept, m.ts) < count;
      MissedShows(kept, dropped, all, order, count, m);
    }
  }

  // ---------------------------------------------------------------- the history query

  function Direction(from: User, to: User): Message -> bool {
    (m: Message) => m.userFrom == from.id && m.chatTo == to.selfChatId
  }

  /** `opt.max_count = task.request.count * 2` in a 32-bit field; 0 stands for no limit. */
  function HistoryLimit(count: nat): nat {
    (count * 2) % U32
  }

  function MessagesTo(s: Storage, a: User, b: User, count: nat): seq<Message> {
    SelectMessages(s, Direction(a, b), HistoryLimit(count))
  }

  function MessagesFrom(s: Storage, a: User, b: User, count: nat): seq<Message> {
    SelectMessages(s, Direction(b, a), HistoryLimit(count))
  }

  ghost predicate SavedInOrder(s: Storage) {
    forall i, j :: 0 <= i < j < |s.messages| ==> s.messages[i].ts <= s.messages[j].ts
  }

  lemma {:induction false} NewestFirstIsSorted(ms: seq<Message>, p: Message -> bool)
    requires forall i, j :: 0 <= i < j < |ms| ==> ms[i].ts <= ms[j].ts
    ensures SortedDesc(Reversed(Filter(ms, p)))
    ensures forall m :: m in Reversed(Filter(ms, p)) ==> m in ms
  {
    if ms != [] {
      var init, last := ms[..|ms| - 1], ms[|ms| - 1];
      assert ms == init + [last];
      NewestFirstIsSorted(init, p);
      FilterSnoc(init, last, p);
      if p(last) {
        ReversedSnoc(Filter(init, p), last);
        var r := Reversed(Filter(init, p));
        forall j | 0 <= j < |r| ensures last.ts >= r[j].ts { assert r[j] in init; }
      }
    }
  }

  lemma {:induction false} ReversedIsPermutation<T>(s: seq<T>)
    ensures multiset(Reversed(s)) == multiset(s)
  {
    if s != [] {
      ReversedIsPermutation(s[..|s| - 1]);
      assert s == s[..|s| - 1] + [s[|s| - 1]];
    }
  }

  /** A query with a limit is a cut of the whole direction, unless the limit wrapped to 0. */
  lemma QueryIsCut(s: Storage, p: Message -> bool, limit: nat)
    ensures var whole := Reversed(Filter(s.messages, p));
      SelectMessages(s, p, limit) == Cut(whole, if limit == 0 then |whole| else limit)
  {
    hide SelectMessages, Reversed, Filter;
    QueryIsDeclarative(s, p, limit);
  }

  /** The messages of a query that its limit leaves out. */
  function Beyond(s: Storage, p: Message -> bool, limit: nat): seq<Message> {
    var whole := Reversed(Filter(s.messages, p));
    if limit == 0 || limit >= |whole| then [] else whole[limit..]
  }

  lemma KeptAndBeyond(s: Storage, p: Message -> bool, limit: nat)
    ensures multiset(SelectMessages(s, p, limit)) + multiset(Beyond(s, p, limit)) == multiset(Filter(s.messages, p))
  {
    var whole := Reversed(Filter(s.messages, p));
    QueryIsCut(s, p, limit);
    ReversedIsPermutation(Filter(s.messages, p));
    hide SelectMessages, Reversed, Filter;
    assert whole == SelectMessages(s, p, limit) + Beyond(s, p, limit);
  }

  /** The messages from `a` to `b` stored in `s`, and those from `b` to `a` stored in `later`. */
  function Conversation(s: Storage, later: Storage, a: User, b: User): seq<Message> {
    Filter(later.messages, Direction(b, a)) + Filter(s.messages, Direction(a, b))
  }

  lemma {:induction false} FilterCounts(ms: seq<Message>, p: Message -> bool, m: Message)
    ensures multiset(Filter(ms, p))[m] == if p(m) then multiset(ms)[m] else 0
  {
    if ms != [] {
      var init, last := ms[..|ms| - 1], ms[|ms| - 1];
      FilterCounts(init, p, m);
      assert ms == init + [last];
      FilterSnoc(init, last, p);
    }
  }

  /** A message counts in the conversation once for every time it is stored, if it is from the one user in the self
  chat of the other, and else not at all. */
  lemma ConversationCounts(s: Storage, later: Storage, a: User, b: User, m: Message)
    ensures multiset(Conversation(s, later, a, b))[m]
      == (if m.userFrom == a.id && m.chatTo == b.selfChatId then multiset(s.messages)[m] else 0)
       + (if m.userFrom == b.id && m.chatTo == a.selfChatId then multiset(later.messages)[m] else 0)
  {
    FilterCounts(later.messages, Direction(b, a), m);
    FilterCounts(s.messages, Direction(a, b), m);
    hide Filter;
  }

  /** For two different users and one storage these are the messages between the two. */
  lemma ConversationIsBetween(s: Storage, a: User, b: User, m: Message)
    requires a.id != b.id
    ensures multiset(Conversation(s, s, a, b))[m] ==
      if (m.userFrom == a.id && m.chatTo == b.selfChatId) || (m.userFrom == b.id && m.chatTo == a.selfChatId)
      then multiset(s.messages)[m]
      else 0
  {
    ConversationCounts(s, s, a, b, m);
    hide Conversation;
  }

  /** What the two queries of a history request return, the second one on a later storage. */
  function Kept(s: Storage, later: Storage, a: User, b: User, count: nat): seq<Message> {
    MessagesFrom(later, a, b, count) + MessagesTo(s, a, b, count)
  }

  function Dropped(s: Storage, later: Storage, a: User, b: User, count: nat): seq<Message> {
    Beyond(later, Direction(b, a), HistoryLimit(count)) + Beyond(s, Direction(a, b), HistoryLimit(count))
  }

  lemma KeptAndDropped(s: Storage, later: Storage, a: User, b: User, count: nat)
    ensures multiset(Kept(s, later, a, b, count) + Dropped(s, later, a, b, count))
      == multiset(Conversation(s, later, a, b))
  {
    hide SelectMessages, Beyond, Filter;
    KeptAndBeyond(later, Direction(b, a), HistoryLimit(count));
    KeptAndBeyond(s, Direction(a, b), HistoryLimit(count));
  }

  /** For all storages, whatever the order of their timestamps, all users and all counts: the history page shows the
  newest messages of the conversation if and only if each message that the limit dropped has at least `count` kept
  messages that are not older. And the page is always a part of the conversation. */
  lemma HistoryExactIff(s: Storage, later: Storage, a: User, b: User, count: nat, order: seq<Message>)
    requires IsSortOf(order, Kept(s, later, a, b, count))
    ensures NewestOf(Cut(order, count), Conversation(s, later, a, b), count) <==>
      NoneMissed(Kept(s, later, a, b, count), Dropped(s, later, a, b, count), count)
    ensures multiset(Cut(order, count)) <= multiset(Conversation(s, later, a, b))
  {
    var kept, dropped := Kept(s, later, a, b, count), Dropped(s, later, a, b, count);
    KeptAndDropped(s, later, a, b, count);
    LeftOut(kept, dropped, Conversation(s, later, a, b), order, count);
    hide Kept, Dropped, Conversation, NoneMissed, NewestOf, IsSortOf;
    NewestAreThereIff(kept, dropped, Conversation(s, later, a, b), order, count);
  }

  // ---------------------------------------------------------------- storages in timestamp order

  /** `order` is a possible result of sorting what the two queries return, on storages in timestamp order. */
  ghost predicate HistoryOf(s: Storage, later: Storage, a: User, b: User, count: nat, order: seq<Message>) {
    SavedInOrder(s) && SavedInOrder(later) && IsSortOf(order, Kept(s, later, a, b, count))
  }

  lemma BeyondIsOlder(s: Storage, p: Message -> bool, limit: nat, m: Message)
    requires SavedInOrder(s) && m in Beyond(s, p, limit)
    ensures |SelectMessages(s, p, limit)| == limit > 0
    ensures forall i :: 0 <= i < limit ==> SelectMessages(s, p, limit)[i].ts >= m.ts
  {
    hide Reversed, Filter, SelectMessages;
    QueryIsCut(s, p, limit);
    NewestFirstIsSorted(s.messages, p);
  }

  lemma {:induction false} AllCount(ms: seq<Message>, t: nat)
    requires forall i :: 0 <= i < |ms| ==> ms[i].ts >= t
    ensures CountFrom(ms, t) == |ms|
  {
    if ms != [] { AllCount(ms[..|ms| - 1], t); }
  }

  /** For storages in timestamp order, at both moments, and any users a limit of at least `count` is enough. */
  lemma InOrderMissesNone(s: Storage, later: Storage, a: User, b: User, count: nat)
    requires SavedInOrder(s) && SavedInOrder(later)
    requires HistoryLimit(count) == 0 || count <= HistoryLimit(count)
    ensures NoneMissed(Kept(s, later, a, b, count), Dropped(s, later, a, b, count), count)
  {
    hide SelectMessages, Beyond, CountFrom, SavedInOrder, HistoryLimit;
    var limit, from, to := HistoryLimit(count), MessagesFrom(later, a, b, count), MessagesTo(s, a, b, count);
    forall m | m in Dropped(s, later, a, b, count) ensures CountFrom(Kept(s, later, a, b, count), m.ts) >= count {
      CountAppend(from, to, m.ts);
      if m in Beyond(later, Direction(b, a), limit) {
        BeyondIsOlder(later, Direction(b, a), limit, m);
        AllCount(from, m.ts);
      } else {
        BeyondIsOlder(s, Direction(a, b), limit, m);
        AllCount(to, m.ts);
      }
    }
  }

  lemma HistoryLosesNothing(s: Storage, later: Storage, a: User, b: User, count: nat, order: seq<Message>)
    requires HistoryOf(s, later, a, b, count, order)
    requires HistoryLimit(count) == 0 || count <= HistoryLimit(count)
    ensures NewestOf(Cut(order, count), Conversation(s, later, a, b), count)
  {
    hide SavedInOrder, Kept, Dropped, Conversation, NoneMissed, NewestOf, IsSortOf, Cut, HistoryLimit;
    InOrderMissesNone(s, later, a, b, count);
    HistoryExactIff(s, later, a, b, count, order);
  }

  lemma {:induction false} FilterOfEqual(m: Message, n: nat, p: Message -> bool)
    ensures Filter(seq(n, i => m), p) == if p(m) then seq(n, i => m) else []
  {
    var ms := seq(n, i => m);
    if n > 0 {
      FilterOfEqual(m, n - 1, p);
      assert ms == seq(n - 1, i => m) + [m];
      FilterSnoc(seq(n - 1, i => m), m, p);
    }
  }

  /** Above 2^31 the limit wraps to less than `count`; a page of one more message than the limit is short. */
  lemma HistoryCanLose(count: nat) returns (s: Storage, a: User, b: User, order: seq<Message>)
    requires 0x8000_0000 < count < U32
    ensures HistoryOf(s, s, a, b, count, order) && !NewestOf(Cut(order, count), Conversation(s, s, a, b), count)
  {
    hide SelectMessages, Filter, Reversed;
    var limit := HistoryLimit(count);
    assert 0 < limit < count;
    var m := Message(1, 2, "", 0, UNREAD);
    a, b := User(1, 1, "a", "", "", "", "", 0), User(2, 2, "b", "", "", "", "", 0);
    var ms := seq(limit + 1, i => m);
    s := Storage(3, 3, [Chat(1, "a"), Chat(2, "b")], [a, b], [Chatuser(1, 1), Chatuser(2, 2)], ms);
    FilterOfEqual(m, limit + 1, Direction(a, b));
    FilterOfEqual(m, limit + 1, Direction(b, a));
    QueryIsCut(s, Direction(a, b), limit);
    QueryIsCut(s, Direction(b, a), limit);
    ReversedIsPermutation<Message>(ms);
    ReversedIsPermutation<Message>([]);
    PermutationLength(Reversed(ms), ms);
    PermutationLength(Reversed([]), []);
    assert forall x :: x in ms ==> x == m;
    AllEqual(Reversed(ms), m, ms);
    order := MessagesFrom(s, a, b, count) + MessagesTo(s, a, b, count);
    assert |order| == limit;
    assert order == Cut(Reversed(ms), limit);
  }

  lemma AllEqual(r: seq<Message>, m: Message, ms: seq<Message>)
    requires multiset(r) == multiset(ms) && forall x :: x in ms ==> x == m
    ensures forall i :: 0 <= i < |r| ==> r[i] == m
  {
    forall i | 0 <= i < |r| ensures r[i] == m {
      assert r[i] in multiset(r);
      assert r[i] in ms;
    }
  }

  /** Timestamps are read before the store is locked, so workers can save out of order; then a page can be wrong for a
  small count too: here for one message, in a storage that keeps all store invariants. */
  lemma OutOfOrderCanLose() returns (s: Storage, a: User, b: User, order: seq<Message>)
    ensures Inv(s) && a in s.users && b in s.users && a.id != b.id
    ensures IsSortOf(order, Kept(s, s, a, b, 1)) && !NewestOf(Cut(order, 1), Conversation(s, s, a, b), 1)
  {
    var newest, m := Message(1, 2, "", 10, UNREAD), Message(1, 2, "", 1, UNREAD);
    a, b := User(1, 1, "a", "", "", "", "", 0), User(2, 2, "b", "", "", "", "", 0);
    s := Storage(3, 3, [Chat(1, "a"), Chat(2, "b")], [a, b], [Chatuser(1, 1), Chatuser(2, 2)], [newest, m, m]);
    order := [m, m];
    ThreeIsGood(s, a, b, newest, m);
    NewestIsMissing(newest, m);
    assert s.users[0] == a && s.users[1] == b;
    hide Kept, Conversation, Inv, NewestOf, Cut, IsSortOf;
    TwoOfThreeAreKept(s, a, b, newest, m);
  }

  lemma TwoOfThreeAreKept(s: Storage, a: User, b: User, x: Message, m: Message)
    requires Direction(a, b)(x) && Direction(a, b)(m) && a.id != b.id && s.messages == [x, m, m]
    ensures Kept(s, s, a, b, 1) == [m, m] && Conversation(s, s, a, b) == [x, m, m]
  {
    TwoOfThree(s, x, m, Direction(a, b));
    TwoOfThree(s, x, m, Direction(b, a));
    LimitOfOne();
    hide SelectMessages, Filter, HistoryLimit;
    NoneBefore([m, m]);
    NoneBefore([x, m, m]);
  }

  lemma LimitOfOne()
    ensures HistoryLimit(1) == 2
  {
  }

  lemma NoneBefore(ms: seq<Message>)
    ensures [] + ms == ms
  {
  }

  lemma NewestIsMissing(x: Message, m: Message)
    requires x.ts > m.ts
    ensures IsSortOf([m, m], [m, m]) && !NewestOf(Cut([m, m], 1), [x, m, m], 1)
  {
    assert Cut([m, m], 1) == [m];
    assert x in multiset([x, m, m]) - multiset([m]);
  }

  lemma TwoOfThree(s: Storage, x: Message, m: Message, p: Message -> bool)
    requires s.messages == [x, m, m] && p(x) == p(m)
    ensures Filter(s.messages, p) == (if p(x) then [x, m, m] else [])
    ensures SelectMessages(s, p, 2) == (if p(x) then [m, m] else [])
  {
    FilterThree(x, m, m, p);
    ReversedThree(x, m, m);
    QueryIsDeclarative(s, p, 2);
    hide SelectMessages, Filter, Reversed;
    assert [m, m, x][..2] == [m, m];
  }

  lemma ThreeIsGood(s: Storage, a: User, b: User, m: Message, n: Message)
    requires a == User(1, 1, "a", "", "", "", "", 0) && b == User(2, 2, "b", "", "", "", "", 0)
    requires s == Storage(3, 3, [Chat(1, "a"), Chat(2, "b")], [a, b], [Chatuser(1, 1), Chatuser(2, 2)], [m, n, n])
    requires m.userFrom == n.userFrom == 1 && m.chatTo == n.chatTo == 2
    ensures Inv(s)
  {
    assert "a"[0] != "b"[0];
    assert s.chatuser[0] == Chatuser(1, 1) && s.chatuser[1] == Chatuser(2, 2);
    assert HasSelfChat(s, s.users[0]) && HasSelfChat(s, s.users[1]);
  }

  lemma FilterThree(x: Message, y: Message, z: Message, p: Message -> bool)
    ensures Filter([x, y, z], p) == (if p(x) then [x] else []) + (if p(y) then [y] else []) + (if p(z) then [z] else [])
  {
    FilterSnoc([], x, p);
    FilterSnoc([x], y, p);
    FilterSnoc([x, y], z, p);
    assert [] + [x] == [x] && [x] + [y] == [x, y] && [x, y] + [z] == [x, y, z];
  }

  lemma ReversedThree(x: Message, y: Message, z: Message)
    ensures Reversed([x, y, z]) == [z, y, x] && Reversed<Message>([]) == []
  {
    assert Reversed<Message>([]) == [];
    hide Reversed;
    ReversedSnoc([], x);
    ReversedSnoc([x], y);
    ReversedSnoc([x, y], z);
    assert [] + [x] == [x] && [x] + [y] == [x, y] && [x, y] + [z] == [x, y, z];
  }

  /** For the 32-bit counts a request can carry and storages in timestamp order, whoever the users are and whatever was
  saved between the two queries: every page shows the newest messages exactly when the count is at most 2^31. */
  lemma HistoryLosslessIff(count: nat)
    requires count < U32
    ensures (forall s, later, a, b, order :: HistoryOf(s, later, a, b, count, order) ==>
               NewestOf(Cut(order, count), Conversation(s, later, a, b), count))
      <==> count <= 0x8000_0000
  {
    hide HistoryOf, NewestOf, Conversation;
    if count <= 0x8000_0000 {
      forall s, later, a, b, order | HistoryOf(s, later, a, b, count, order)
        ensures NewestOf(Cut(order, count), Conversation(s, later, a, b), count)
      {
        HistoryLosesNothing(s, later, a, b, count, order);
      }
    } else {
      var s, a, b, order := HistoryCanLose(count);
    }
  }
}
