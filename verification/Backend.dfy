/** The two message queries of server/src/mysql_connection.cpp, as sequence functions, against the in-memory ones. */
module Backend {
  import opened Store

  datatype Row = Row(id: nat, msg: Message)

  function Insert(row: Row, sorted: seq<Row>): seq<Row> {
    if sorted == [] || row.id >= sorted[0].id then [row] + sorted else [sorted[0]] + Insert(row, sorted[1..])
  }

  /** ORDER BY id DESC. */
  function OrderByIdDesc(rows: seq<Row>): seq<Row> {
    if rows == [] then [] else Insert(rows[|rows| - 1], OrderByIdDesc(rows[..|rows| - 1]))
  }

  function Messages(rows: seq<Row>): seq<Message> {
    seq(|rows|, i requires 0 <= i < |rows| => rows[i].msg)
  }

  function RowInChatSince(chatid: nat, ts: nat): Row -> bool {
    (r: Row) => r.msg.chatTo == chatid && r.msg.ts > ts
  }

  /** SELECT ... WHERE chat_id = ? AND time > ? ORDER BY id DESC LIMIT ?, the limit left out when it is 0. */
  function MysqlGetMessages(rows: seq<Row>, chatid: nat, ts: nat, max: nat): seq<Message> {
    Messages(TakeUpTo(OrderByIdDesc(Filter(rows, RowInChatSince(chatid, ts))), max))
  }

  /** SELECT ... ORDER BY id DESC LIMIT ?, and the predicate applied to what comes back. */
  function MysqlSelectMessages(rows: seq<Row>, p: Message -> bool, max: nat): seq<Message> {
    Filter(Messages(TakeUpTo(OrderByIdDesc(rows), max)), p)
  }

  /** Rows in insertion order, with the ids AUTO_INCREMENT gave them. */
  ghost predicate IdsFollowInsertion(rows: seq<Row>) {
    forall i, j :: 0 <= i < j < |rows| ==> rows[i].id < rows[j].id
  }

  lemma {:induction false} OrderIsReversal(rows: seq<Row>)
    requires IdsFollowInsertion(rows)
    ensures OrderByIdDesc(rows) == Reversed(rows)
  {
    if rows != [] {
      var init, last := rows[..|rows| - 1], rows[|rows| - 1];
      OrderIsReversal(init);
      ReversedHead(init);
      assert Insert(last, Reversed(init)) == [last] + Reversed(init);
    }
  }

  lemma ReversedHead<T>(s: seq<T>)
    ensures s != [] ==> Reversed(s) != [] && Reversed(s)[0] == s[|s| - 1]
  {
  }

  lemma {:induction false} FilterKeepsOrder(rows: seq<Row>, p: Row -> bool)
    requires IdsFollowInsertion(rows)
    ensures IdsFollowInsertion(Filter(rows, p))
  {
    if rows != [] {
      var init, last := rows[..|rows| - 1], rows[|rows| - 1];
      FilterKeepsOrder(init, p);
      FilterElements(init, p);
      forall i | 0 <= i < |Filter(init, p)| ensures Filter(init, p)[i].id < last.id {
        assert Filter(init, p)[i] in init;
      }
    }
  }

  lemma {:induction false} MessagesOfReversed(rows: seq<Row>)
    ensures Messages(Reversed(rows)) == Reversed(Messages(rows))
  {
    if rows != [] {
      var init, last := rows[..|rows| - 1], rows[|rows| - 1];
      MessagesOfReversed(init);
      assert Messages([last] + Reversed(init)) == [last.msg] + Messages(Reversed(init));
      ReversedSnoc(Messages(init), last.msg);
      assert Messages(rows) == Messages(init) + [last.msg];
    }
  }

  lemma {:induction false} MessagesOfFilter(rows: seq<Row>, chatid: nat, ts: nat)
    ensures Messages(Filter(rows, RowInChatSince(chatid, ts))) == Filter(Messages(rows), InChatSince(chatid, ts))
  {
    if rows != [] {
      var init, last := rows[..|rows| - 1], rows[|rows| - 1];
      MessagesOfFilter(init, chatid, ts);
      assert Messages(rows) == Messages(init) + [last.msg];
      FilterSnoc(Messages(init), last.msg, InChatSince(chatid, ts));
      assert rows == init + [last];
      FilterSnoc(init, last, RowInChatSince(chatid, ts));
      var kept := Filter(init, RowInChatSince(chatid, ts));
      assert Messages(kept + [last]) == Messages(kept) + [last.msg];
    }
  }

  lemma MessagesOfTake(rows: seq<Row>, max: nat)
    ensures Messages(TakeUpTo(rows, max)) == TakeUpTo(Messages(rows), max)
  {
  }

  /** Both back ends answer `getMessages` with the same messages. */
  lemma GetMessagesAgrees(rows: seq<Row>, s: Storage, chatid: nat, ts: nat, max: nat)
    requires IdsFollowInsertion(rows) && s.messages == Messages(rows)
    ensures MysqlGetMessages(rows, chatid, ts, max) == GetMessages(s, chatid, ts, max).1
  {
    hide *;
    var kept := Filter(rows, RowInChatSince(chatid, ts));
    FilterKeepsOrder(rows, RowInChatSince(chatid, ts));
    OrderIsReversal(kept);
    MessagesOfTake(Reversed(kept), max);
    MessagesOfReversed(kept);
    MessagesOfFilter(rows, chatid, ts);
    GetMessagesIsDeclarative(s, chatid, ts, max);
    assert MysqlGetMessages(rows, chatid, ts, max) == Messages(TakeUpTo(OrderByIdDesc(kept), max)) by {
      MysqlQuery(rows, chatid, ts, max);
    }
  }

  lemma MysqlQuery(rows: seq<Row>, chatid: nat, ts: nat, max: nat)
    ensures MysqlGetMessages(rows, chatid, ts, max)
      == Messages(TakeUpTo(OrderByIdDesc(Filter(rows, RowInChatSince(chatid, ts))), max))
  {
  }

  // ---------------------------------------------------------------- selectMessages

  lemma {:induction false} FilterAppend<T>(a: seq<T>, b: seq<T>, p: T -> bool)
    ensures Filter(a + b, p) == Filter(a, p) + Filter(b, p)
    decreases |b|
  {
    if b == [] {
      assert a + b == a;
    } else {
      var init, last := b[..|b| - 1], b[|b| - 1];
      FilterAppend(a, init, p);
      assert a + b == (a + init) + [last];
      FilterSnoc(a + init, last, p);
      assert b == init + [last];
      FilterSnoc(init, last, p);
    }
  }

  lemma {:induction false} FilterOfReversed<T>(s: seq<T>, p: T -> bool)
    ensures Filter(Reversed(s), p) == Reversed(Filter(s, p))
  {
    if s != [] {
      var init, last := s[..|s| - 1], s[|s| - 1];
      FilterOfReversed(init, p);
      FilterAppend([last], Reversed(init), p);
      assert s == init + [last];
      FilterSnoc(init, last, p);
      FilterSnoc([], last, p);
      ReversedSnoc(Filter(init, p), last);
      assert [] + [last] == [last];
    }
  }

  /** A filter keeps everything exactly when everything matches, and nothing exactly when nothing does. */
  lemma {:induction false} FilterLength<T>(s: seq<T>, p: T -> bool)
    ensures |Filter(s, p)| <= |s|
    ensures |Filter(s, p)| == |s| <==> forall i :: 0 <= i < |s| ==> p(s[i])
    ensures |Filter(s, p)| == 0 <==> forall i :: 0 <= i < |s| ==> !p(s[i])
  {
    if s != [] {
      FilterLength(s[..|s| - 1], p);
      var last := |s| - 1;
      assert forall i :: 0 <= i < last ==> s[..last][i] == s[i];
    }
  }

  /** In-memory: the limit counts matches. */
  lemma InMemorySelect(s: Storage, p: Message -> bool, max: nat)
    ensures SelectMessages(s, p, max) == TakeUpTo(Filter(Reversed(s.messages), p), max)
  {
    QueryIsDeclarative(s, p, max);
    FilterOfReversed(s.messages, p);
  }

  /** MySQL: the limit counts rows. */
  lemma MysqlSelect(rows: seq<Row>, p: Message -> bool, max: nat)
    requires IdsFollowInsertion(rows)
    ensures MysqlSelectMessages(rows, p, max) == Filter(TakeUpTo(Reversed(Messages(rows)), max), p)
  {
    OrderIsReversal(rows);
    MessagesOfReversed(rows);
    MessagesOfTake(Reversed(rows), max);
  }

  /** With a limit, MySQL misses messages exactly when one of the newest `max` does not match and an older one does. */
  ghost predicate Misses(newestFirst: seq<Message>, p: Message -> bool, max: nat) {
    && 0 < max < |newestFirst|
    && (exists i :: 0 <= i < max && !p(newestFirst[i]))
    && (exists i :: max <= i < |newestFirst| && p(newestFirst[i]))
  }

  /** The MySQL answer is always a prefix of the in-memory one, and the whole of it unless it misses messages. */
  lemma SelectMessagesPrefix(rows: seq<Row>, s: Storage, p: Message -> bool, max: nat)
    requires IdsFollowInsertion(rows) && s.messages == Messages(rows)
    ensures MysqlSelectMessages(rows, p, max) <= SelectMessages(s, p, max)
    ensures MysqlSelectMessages(rows, p, max) == SelectMessages(s, p, max) <==> !Misses(Reversed(s.messages), p, max)
  {
    hide MysqlSelectMessages, SelectMessages, Filter, Reversed;
    InMemorySelect(s, p, max);
    MysqlSelect(rows, p, max);
    LimitThenFilter(Reversed(s.messages), p, max);
  }

  lemma LimitThenFilter(all: seq<Message>, p: Message -> bool, max: nat)
    ensures var a, b := Filter(TakeUpTo(all, max), p), TakeUpTo(Filter(all, p), max);
      a <= b && (a == b <==> !Misses(all, p, max))
  {
    hide Filter;
    if 0 < max < |all| {
      var newest, older := all[..max], all[max..];
      assert all == newest + older;
      FilterAppend(newest, older, p);
      FilterLength(newest, p);
      FilterLength(older, p);
      assert forall i :: 0 <= i < max ==> newest[i] == all[i];
      assert forall i :: max <= i < |all| ==> older[i - max] == all[i];
      var a, b := Filter(newest, p), Filter(older, p);
      assert a <= TakeUpTo(a + b, max);
      MissesParts(all, p, max);
    } else {
      FilterLength(all, p);
    }
  }

  lemma MissesParts(all: seq<Message>, p: Message -> bool, max: nat)
    requires 0 < max < |all|
    ensures Misses(all, p, max) <==>
      !(forall i :: 0 <= i < max ==> p(all[..max][i])) && !(forall i :: 0 <= i < |all| - max ==> !p(all[max..][i]))
  {
    if exists i :: max <= i < |all| && p(all[i]) {
      var i :| max <= i < |all| && p(all[i]);
      assert p(all[max..][i - max]);
    }
    if exists i :: 0 <= i < max && !p(all[i]) {
      var i :| 0 <= i < max && !p(all[i]);
      assert !p(all[..max][i]);
    }
  }

  /** Two messages, of which the newer one does not match: with a limit of one message MySQL finds nothing. */
  lemma MysqlCanMiss(m: Message, newer: Message, p: Message -> bool) returns (rows: seq<Row>, s: Storage)
    requires p(m) && !p(newer)
    ensures IdsFollowInsertion(rows) && s.messages == Messages(rows)
    ensures MysqlSelectMessages(rows, p, 1) == [] && SelectMessages(s, p, 1) == [m]
  {
    rows := [Row(1, m), Row(2, newer)];
    s := EMPTY_STORAGE.(messages := [m, newer]);
    assert Messages(rows) == [m, newer];
    MysqlSelect(rows, p, 1);
    InMemorySelect(s, p, 1);
    ReversedPair(m, newer);
    FilterPair(newer, m, p);
    hide MysqlSelectMessages, SelectMessages, Reversed;
    FilterOne(newer, p);
    assert [newer, m][..1] == [newer];
  }

  lemma ReversedPair(x: Message, y: Message)
    ensures Reversed([x, y]) == [y, x]
  {
    assert Reversed<Message>([]) == [];
    hide Reversed;
    ReversedSnoc([], x);
    assert [] + [x] == [x];
    ReversedSnoc([x], y);
    assert [x] + [y] == [x, y];
  }

  lemma FilterOne(x: Message, p: Message -> bool)
    ensures Filter([x], p) == if p(x) then [x] else []
  {
    FilterSnoc([], x, p);
    assert [] + [x] == [x];
  }

  lemma FilterPair(x: Message, y: Message, p: Message -> bool)
    ensures !p(x) && p(y) ==> Filter([x, y], p) == [y]
  {
    FilterOne(x, p);
    FilterSnoc([x], y, p);
    assert [x] + [y] == [x, y];
  }
}
