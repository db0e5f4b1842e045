/** Which stored messages one poll sends: the whole of `processQueue`'s idle branch as one query. */
module Polling {
  import opened Store
  import opened StoreInvariant
  import opened Server
  import opened Discipline
  import opened Watermark

  // ---------------------------------------------------------------- one poll

  /** The messages of one poll over the chats `ids`, chat by chat; each call marks what it returns. */
  function PollChats(s: Storage, ids: seq<nat>, ts: nat): (Storage, seq<Entry>)
    decreases |ids|
  {
    if ids == [] then (s, [])
    else
      var (t, found) := GetMessages(s, ids[0], ts, DEFAULT_MAX_COUNT);
      var (u, rest) := PollChats(t, ids[1..], ts);
      (u, Entries(Selected(s.messages, InChatSince(ids[0], ts), DEFAULT_MAX_COUNT), found) + rest)
  }

  function PollBatch(s: Storage, uid: nat, ts: nat): seq<Entry> {
    PollChats(s, ChatIdsOf(s, uid), ts).1
  }

  function CountOf(entries: seq<Entry>, i: nat): nat {
    if entries == [] then 0 else One(entries[0].index == i) + CountOf(entries[1..], i)
  }

  /** How many messages stored after position `i` and before `n` satisfy `p`. */
  function NewerMatches(ms: seq<Message>, p: Message -> bool, i: nat, n: nat): nat
    requires i < n <= |ms|
  {
    if n == i + 1 then 0 else NewerMatches(ms, p, i, n - 1) + One(p(ms[n - 1]))
  }

  predicate Member(s: Storage, uid: nat, chatid: nat) {
    Chatuser(chatid, uid) in s.chatuser
  }

  /** The user is in the message's chat, the message is newer than the watermark, and fewer than three
  later messages of the chat are. */
  predicate Picked(s: Storage, uid: nat, ts: nat, i: nat)
    requires i < |s.messages|
  {
    var m := s.messages[i];
    && Member(s, uid, m.chatTo) && m.ts > ts
    && NewerMatches(s.messages, InChatSince(m.chatTo, ts), i, |s.messages|) < DEFAULT_MAX_COUNT
  }

  lemma {:induction false} MatchPosition(ms: seq<Message>, p: Message -> bool, i: nat, n: nat)
    requires i < n <= |ms| && p(ms[i])
    ensures var k := NewerMatches(ms, p, i, n); k < |MatchesDown(ms, p, n)| && MatchesDown(ms, p, n)[k] == i
  {
    if n > i + 1 { MatchPosition(ms, p, i, n - 1); }
  }

  /** A limited query returns exactly the matches with fewer than the limit after them. */
  lemma SelectedIff(ms: seq<Message>, p: Message -> bool, max: nat, i: nat)
    requires i < |ms| && max > 0
    ensures i in Selected(ms, p, max) <==> p(ms[i]) && NewerMatches(ms, p, i, |ms|) < max
  {
    MatchesAreMatches(ms, p, |ms|);
    MatchesDescend(ms, p, |ms|);
    if p(ms[i]) { MatchPosition(ms, p, i, |ms|); }
    var all, some := MatchesDown(ms, p, |ms|), Selected(ms, p, max);
    hide MatchesDown, NewerMatches;
    assert forall k :: 0 <= k < |some| ==> some[k] == all[k];
    if i in some {
      var k :| 0 <= k < |some| && some[k] == i;
      assert all[k] == i;
    }
    if p(ms[i]) && NewerMatches(ms, p, i, |ms|) < max { assert some[NewerMatches(ms, p, i, |ms|)] == i; }
  }

  predicate SameMessages(a: seq<Message>, b: seq<Message>) {
    |a| == |b| && forall i :: 0 <= i < |a| ==> SameMessage(a[i], b[i])
  }

  lemma {:induction false} MatchesIgnoreFlags(a: seq<Message>, b: seq<Message>, chatid: nat, ts: nat, n: nat)
    requires SameMessages(a, b) && n <= |a|
    ensures MatchesDown(a, InChatSince(chatid, ts), n) == MatchesDown(b, InChatSince(chatid, ts), n)
  {
    if n > 0 {
      MatchesIgnoreFlags(a, b, chatid, ts, n - 1);
      assert SameMessage(a[n - 1], b[n - 1]);
    }
  }

  lemma MarkingIsSame(ms: seq<Message>, idx: seq<nat>)
    ensures SameMessages(ms, MarkRead(ms, idx))
  {
  }

  lemma {:induction false} CountJoin(a: seq<Entry>, b: seq<Entry>, i: nat)
    ensures CountOf(a + b, i) == CountOf(a, i) + CountOf(b, i)
  {
    if a == [] {
      assert a + b == b;
    } else {
      CountJoin(a[1..], b, i);
      assert (a + b)[1..] == a[1..] + b;
    }
  }

  lemma {:induction false} CountEntries(idx: seq<nat>, ms: seq<Message>, i: nat)
    requires |idx| == |ms| && Descending(idx)
    ensures CountOf(Entries(idx, ms), i) == One(i in idx)
  {
    if idx != [] {
      CountEntries(idx[1..], ms[1..], i);
      assert Entries(idx, ms)[1..] == Entries(idx[1..], ms[1..]);
      assert idx == [idx[0]] + idx[1..];
    }
  }

  /** Whether position `i` is among what a poll picks from its message's chat. */
  predicate Chosen(ms: seq<Message>, ts: nat, i: nat)
    requires i < |ms|
  {
    i in Selected(ms, InChatSince(ms[i].chatTo, ts), DEFAULT_MAX_COUNT)
  }

  lemma ChosenIgnoresFlags(a: seq<Message>, b: seq<Message>, ts: nat, i: nat)
    requires SameMessages(a, b) && i < |a|
    ensures a[i].chatTo == b[i].chatTo && Chosen(a, ts, i) == Chosen(b, ts, i)
  {
    MatchesIgnoreFlags(a, b, a[i].chatTo, ts, |a|);
  }

  lemma HeadChatCounts(s: Storage, chatid: nat, ts: nat, i: nat)
    requires i < |s.messages|
    ensures var idx := Selected(s.messages, InChatSince(chatid, ts), DEFAULT_MAX_COUNT);
      CountOf(Entries(idx, GetMessages(s, chatid, ts, DEFAULT_MAX_COUNT).1), i) ==
        One(s.messages[i].chatTo == chatid && Chosen(s.messages, ts, i))
  {
    var idx := Selected(s.messages, InChatSince(chatid, ts), DEFAULT_MAX_COUNT);
    SelectedFacts(s, chatid, ts);
    CountEntries(idx, GetMessages(s, chatid, ts, DEFAULT_MAX_COUNT).1, i);
    hide Selected, MarkRead, CountOf;
  }

  lemma PollHead(s: Storage, ids: seq<nat>, ts: nat)
    requires ids != []
    ensures var (t, found) := GetMessages(s, ids[0], ts, DEFAULT_MAX_COUNT);
      && PollChats(s, ids, ts).1 ==
        Entries(Selected(s.messages, InChatSince(ids[0], ts), DEFAULT_MAX_COUNT), found)
        + PollChats(t, ids[1..], ts).1
      && SameMessages(s.messages, t.messages)
  {
    hide Selected;
  }

  lemma HeadOrTail(ids: seq<nat>, chatid: nat, chosen: bool)
    requires DistinctIds(ids) && ids != []
    ensures One(chatid in ids && chosen) == One(chatid == ids[0] && chosen) + One(chatid in ids[1..] && chosen)
    ensures DistinctIds(ids[1..])
  {
    assert ids == [ids[0]] + ids[1..];
  }

  /** A poll over distinct chats takes a message once if it is chosen from one of them, and otherwise not. */
  lemma {:induction false} PollCounts(s: Storage, ids: seq<nat>, ts: nat, i: nat)
    requires DistinctIds(ids) && i < |s.messages|
    ensures CountOf(PollChats(s, ids, ts).1, i) == One(s.messages[i].chatTo in ids && Chosen(s.messages, ts, i))
    decreases |ids|
  {
    if ids != [] {
      hide Chosen, GetMessages, Selected, DistinctIds, Entries;
      PollHead(s, ids, ts);
      var (t, found) := GetMessages(s, ids[0], ts, DEFAULT_MAX_COUNT);
      var head := Entries(Selected(s.messages, InChatSince(ids[0], ts), DEFAULT_MAX_COUNT), found);
      ChosenIgnoresFlags(s.messages, t.messages, ts, i);
      HeadOrTail(ids, s.messages[i].chatTo, Chosen(s.messages, ts, i));
      hide PollChats, CountOf, SameMessages, InChatSince;
      PollCounts(t, ids[1..], ts, i);
      HeadChatCounts(s, ids[0], ts, i);
      CountJoin(head, PollChats(t, ids[1..], ts).1, i);
    }
  }

  lemma MemberIff(s: Storage, uid: nat, chatid: nat)
    ensures chatid in ChatIdsOf(s, uid) <==> Member(s, uid, chatid)
  {
    var found := Filter(s.chatuser, HasMember(uid));
    FilterElements(s.chatuser, HasMember(uid));
    if Member(s, uid, chatid) {
      var k :| 0 <= k < |found| && found[k] == Chatuser(chatid, uid);
      assert ChatIdsOf(s, uid)[k] == chatid;
    }
    if chatid in ChatIdsOf(s, uid) {
      var k :| 0 <= k < |found| && found[k].chatid == chatid;
      assert found[k] in s.chatuser && found[k] == Chatuser(chatid, uid);
    }
  }

  /** A poll sends a stored message exactly when it is picked, and then once. */
  lemma PollSendsPicked(s: Storage, uid: nat, ts: nat, i: nat)
    requires Inv(s) && i < |s.messages|
    ensures CountOf(PollBatch(s, uid, ts), i) == One(Picked(s, uid, ts, i))
  {
    MembershipsDistinct(s.chatuser, uid);
    hide Inv;
    PollCounts(s, ChatIdsOf(s, uid), ts, i);
    MemberIff(s, uid, s.messages[i].chatTo);
    SelectedIff(s.messages, InChatSince(s.messages[i].chatTo, ts), DEFAULT_MAX_COUNT, i);
    hide PollChats, ChatIdsOf, Selected, NewerMatches;
  }

  /** The flags that `getMessages` sets do not matter: another poll against the same watermark sends the same
  messages again, so at most once rests on the connection taking turns. */
  lemma PollRepeats(s: Storage, t: Storage, uid: nat, ts: nat, i: nat)
    requires Inv(s) && SameMessages(s.messages, t.messages) && t.chatuser == s.chatuser && i < |s.messages|
    ensures CountOf(PollBatch(t, uid, ts), i) == CountOf(PollBatch(s, uid, ts), i)
  {
    MembershipsDistinct(s.chatuser, uid);
    hide Inv;
    ChosenIgnoresFlags(s.messages, t.messages, ts, i);
    PollCounts(s, ChatIdsOf(s, uid), ts, i);
    PollCounts(t, ChatIdsOf(t, uid), ts, i);
    hide CountOf, PollChats, Chosen;
  }

  /** What a poll sends are copies of stored messages newer than its watermark. */
  lemma {:induction false} PollCopies(s: Storage, ids: seq<nat>, ts: nat)
    ensures var r := PollChats(s, ids, ts).1; AllCopied(s, r) && AllNewer(r, ts)
    decreases |ids|
  {
    if ids != [] {
      hide GetMessages, Selected, Entries;
      PollHead(s, ids, ts);
      EntriesFound(s, ids[0], ts);
      var t := GetMessages(s, ids[0], ts, DEFAULT_MAX_COUNT).0;
      hide PollChats;
      PollCopies(t, ids[1..], ts);
      CopiesStay(t, s, PollChats(t, ids[1..], ts).1);
    }
  }

  lemma CopiesStay(t: Storage, s: Storage, entries: seq<Entry>)
    requires AllCopied(t, entries) && SameMessages(s.messages, t.messages)
    ensures AllCopied(s, entries)
  {
    forall k | 0 <= k < |entries| ensures Copied(s, entries[k]) { assert Copied(t, entries[k]); }
  }

  lemma {:induction false} CountedIsThere(entries: seq<Entry>, i: nat)
    ensures CountOf(entries, i) > 0 <==> exists k :: 0 <= k < |entries| && entries[k].index == i
  {
    if entries != [] {
      CountedIsThere(entries[1..], i);
      assert forall k :: 0 <= k < |entries| - 1 ==> entries[k + 1] == entries[1..][k];
    }
  }
}
