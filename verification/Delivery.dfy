/** Exactly once: which stored messages an idle connection is sent over all its polls, when each poll runs
without another store call in between and the next one waits for its write. */
module Delivery {
  import opened Store
  import opened StoreInvariant
  import opened Server
  import opened Discipline
  import opened Watermark
  import opened Polling

  /** The storage a poll works on, and the time of its tick. */
  datatype PollAt = PollAt(store: Storage, now: nat)

  /** Tick, poll, write. Nothing is sent when nothing was found and no ping is due. */
  function Round(idle: Idle, uid: nat, p: PollAt): (r: Idle)
    requires idle.inFlight == []
    ensures r.inFlight == []
  {
    var ticked := OnTick(idle, p.now);
    var batch := PollBatch(p.store, uid, ticked.params.ts);
    if batch == [] && !PingDue(p.now, idle.lastPing) then ticked
    else OnIdleWrote(ticked.(inFlight := [Batch(ticked.params.ts, batch)]), 0, true)
  }

  function Play(idle: Idle, uid: nat, polls: seq<PollAt>): (r: Idle)
    requires idle.inFlight == []
    ensures r.inFlight == []
  {
    if polls == [] then idle else Round(Play(idle, uid, polls[..|polls| - 1]), uid, polls[|polls| - 1])
  }

  /** The watermark of the next poll. */
  function Covered(idle: Idle): nat {
    Max(idle.params.ts, idle.newest)
  }

  /** How often the message stored at position `i` is in the batches. */
  function Occurrences(batches: seq<Batch>, i: nat): nat {
    if batches == [] then 0 else Occurrences(batches[..|batches| - 1], i) + CountOf(batches[|batches| - 1].entries, i)
  }

  /** An idle connection that was sent nothing yet. */
  predicate Fresh(idle: Idle) {
    idle.inFlight == [] && idle.delivered == [] && idle.newest == 0 && idle.params.ts == idle.start
  }

  /** Consecutive states of one storage. */
  ghost predicate Chain(polls: seq<PollAt>) {
    && (forall k :: 0 <= k < |polls| ==> Inv(polls[k].store))
    && (forall k, l :: 0 <= k < l < |polls| ==> Grows(polls[k].store, polls[l].store))
  }

  /** The message at position `i` was saved before poll `f` and after the one before it. */
  predicate FirstSeen(polls: seq<PollAt>, f: nat, i: nat) {
    f < |polls| && i < |polls[f].store.messages| && forall k :: 0 <= k < f ==> |polls[k].store.messages| <= i
  }

  // ---------------------------------------------------------------- one round

  lemma RoundCounts(idle: Idle, uid: nat, p: PollAt, i: nat)
    requires idle.inFlight == []
    ensures var r := Round(idle, uid, p);
      var batch := PollBatch(p.store, uid, Covered(idle));
      && Covered(r) == Max(Covered(idle), MaxTimestamp(batch))
      && Occurrences(r.delivered, i) == Occurrences(idle.delivered, i) + CountOf(batch, i)
  {
    hide PollBatch;
    var ts := OnTick(idle, p.now).params.ts;
    var batch := PollBatch(p.store, uid, ts);
    var all := idle.delivered + [Batch(ts, batch)];
    assert all[..|all| - 1] == idle.delivered;
  }

  /** A message that was sent is covered by the next watermark. */
  lemma SentIsCovered(s: Storage, uid: nat, ts: nat, i: nat)
    requires Inv(s) && i < |s.messages| && Picked(s, uid, ts, i)
    ensures s.messages[i].ts <= MaxTimestamp(PollBatch(s, uid, ts))
  {
    hide Inv, Picked, PollChats, MaxTimestamp;
    var batch := PollBatch(s, uid, ts);
    PollSendsPicked(s, uid, ts, i);
    CountedIsThere(batch, i);
    PollCopies(s, ChatIdsOf(s, uid), ts);
    MaxTimestampIsLargest(batch);
    hide CountOf, PollBatch;
    var k :| 0 <= k < |batch| && batch[k].index == i;
    assert Copied(s, batch[k]);
  }

  lemma NothingYet(s: Storage, uid: nat, ts: nat, i: nat)
    requires |s.messages| <= i
    ensures CountOf(PollBatch(s, uid, ts), i) == 0
  {
    var batch := PollBatch(s, uid, ts);
    CountedIsThere(batch, i);
    PollCopies(s, ChatIdsOf(s, uid), ts);
    hide PollChats, CountOf;
    forall k | 0 <= k < |batch| ensures batch[k].index != i { assert Copied(s, batch[k]); }
  }

  // ---------------------------------------------------------------- many rounds

  lemma {:induction false} PlayJoin(idle: Idle, uid: nat, a: seq<PollAt>, b: seq<PollAt>)
    requires idle.inFlight == []
    ensures Play(idle, uid, a + b) == Play(Play(idle, uid, a), uid, b)
    decreases |b|
  {
    hide Round;
    if b == [] {
      assert a + b == a;
    } else {
      PlayJoin(idle, uid, a, b[..|b| - 1]);
      assert (a + b)[..|a + b| - 1] == a + b[..|b| - 1];
    }
  }

  lemma {:induction false} BeforeItIsSaved(idle: Idle, uid: nat, polls: seq<PollAt>, i: nat)
    requires idle.inFlight == [] && forall k :: 0 <= k < |polls| ==> |polls[k].store.messages| <= i
    ensures Occurrences(Play(idle, uid, polls).delivered, i) == Occurrences(idle.delivered, i)
    decreases |polls|
  {
    if polls != [] {
      var init, last := polls[..|polls| - 1], polls[|polls| - 1];
      BeforeItIsSaved(idle, uid, init, i);
      var mid := Play(idle, uid, init);
      RoundCounts(mid, uid, last, i);
      NothingYet(last.store, uid, Covered(mid), i);
    }
  }

  /** Once the watermark has reached a message's timestamp, no poll sends it any more. */
  lemma {:induction false} OnceCovered(idle: Idle, uid: nat, polls: seq<PollAt>, i: nat)
    requires idle.inFlight == []
    requires forall k :: 0 <= k < |polls| ==>
      Inv(polls[k].store) && i < |polls[k].store.messages| && polls[k].store.messages[i].ts <= Covered(idle)
    ensures Occurrences(Play(idle, uid, polls).delivered, i) == Occurrences(idle.delivered, i)
    ensures Covered(Play(idle, uid, polls)) >= Covered(idle)
    decreases |polls|
  {
    if polls != [] {
      var init, last := polls[..|polls| - 1], polls[|polls| - 1];
      assert forall k :: 0 <= k < |init| ==> init[k] == polls[k];
      hide Inv;
      OnceCovered(idle, uid, init, i);
      var mid := Play(idle, uid, init);
      RoundCounts(mid, uid, last, i);
      PollSendsPicked(last.store, uid, Covered(mid), i);
    }
  }

  lemma SameLater(polls: seq<PollAt>, f: nat, k: nat, i: nat)
    requires Chain(polls) && FirstSeen(polls, f, i) && f <= k < |polls|
    ensures i < |polls[k].store.messages| && SameMessage(polls[f].store.messages[i], polls[k].store.messages[i])
  {
    hide Inv;
  }

  /** The watermark of poll `k`. */
  function WatermarkAt(idle: Idle, uid: nat, polls: seq<PollAt>, k: nat): nat
    requires idle.inFlight == [] && k <= |polls|
  {
    Covered(Play(idle, uid, polls[..k]))
  }

  lemma WatermarkNext(idle: Idle, uid: nat, polls: seq<PollAt>, k: nat)
    requires idle.inFlight == [] && k < |polls|
    ensures var w := WatermarkAt(idle, uid, polls, k);
      WatermarkAt(idle, uid, polls, k + 1) == Max(w, MaxTimestamp(PollBatch(polls[k].store, uid, w)))
  {
    hide Round, PollBatch, MaxTimestamp;
    assert polls[..k + 1][..k] == polls[..k];
    RoundCounts(Play(idle, uid, polls[..k]), uid, polls[k], 0);
  }

  lemma PlaySplit(idle: Idle, uid: nat, polls: seq<PollAt>, f: nat)
    requires idle.inFlight == [] && f < |polls|
    ensures Play(idle, uid, polls) == Play(Round(Play(idle, uid, polls[..f]), uid, polls[f]), uid, polls[f + 1..])
  {
    hide Round;
    var upTo := polls[..f + 1];
    assert upTo[..f] == polls[..f] && upTo[f] == polls[f];
    assert upTo + polls[f + 1..] == polls;
    PlayJoin(idle, uid, upTo, polls[f + 1..]);
  }

  /** Polls after the first one send a covered message no more. */
  lemma LaterPolls(idle: Idle, uid: nat, polls: seq<PollAt>, f: nat, i: nat)
    requires Chain(polls) && FirstSeen(polls, f, i) && idle.inFlight == []
    requires polls[f].store.messages[i].ts <= Covered(idle)
    ensures Occurrences(Play(idle, uid, polls[f + 1..]).delivered, i) == Occurrences(idle.delivered, i)
  {
    hide Inv, Grows, Occurrences, Play;
    var after := polls[f + 1..];
    forall k | 0 <= k < |after|
      ensures Inv(after[k].store) && i < |after[k].store.messages| && after[k].store.messages[i].ts <= Covered(idle)
    {
      SameLater(polls, f, f + 1 + k, i);
    }
    OnceCovered(idle, uid, after, i);
  }

  /** If after its first poll a message is covered, that poll decided whether it is ever sent. */
  lemma FirstPollDecides(idle: Idle, uid: nat, polls: seq<PollAt>, f: nat, i: nat)
    requires Fresh(idle) && Chain(polls) && FirstSeen(polls, f, i)
    requires var s, w := polls[f].store, WatermarkAt(idle, uid, polls, f);
      Picked(s, uid, w, i) || s.messages[i].ts <= Max(w, MaxTimestamp(PollBatch(s, uid, w)))
    ensures Occurrences(Play(idle, uid, polls).delivered, i)
      == One(Picked(polls[f].store, uid, WatermarkAt(idle, uid, polls, f), i))
  {
    var s, w := polls[f].store, WatermarkAt(idle, uid, polls, f);
    hide Inv, Picked, PollBatch, Grows, Play, Round, MaxTimestamp, Occurrences;
    if Picked(s, uid, w, i) { SentIsCovered(s, uid, w, i); }
    PollSendsPicked(s, uid, w, i);
    hide Chain, CountOf;
    var mid := Play(idle, uid, polls[..f]);
    NoOccurrence(i);
    BeforeItIsSaved(idle, uid, polls[..f], i);
    RoundCounts(mid, uid, polls[f], i);
    LaterPolls(Round(mid, uid, polls[f]), uid, polls, f, i);
    PlaySplit(idle, uid, polls, f);
  }

  lemma NoOccurrence(i: nat)
    ensures Occurrences([], i) == 0
  {
  }

  // ---------------------------------------------------------------- which messages arrive

  predicate InTimeOrder(ms: seq<Message>) {
    forall i, j :: 0 <= i < j < |ms| ==> ms[i].ts <= ms[j].ts
  }

  /** If any later message matches, the last one does with none after it. */
  lemma {:induction false} LastMatch(ms: seq<Message>, p: Message -> bool, i: nat, n: nat) returns (j: nat)
    requires i < n <= |ms| && NewerMatches(ms, p, i, n) > 0
    ensures i < j < n && p(ms[j]) && NewerMatches(ms, p, j, n) == 0
  {
    if p(ms[n - 1]) { j := n - 1; } else { j := LastMatch(ms, p, i, n - 1); }
  }

  lemma CoveredEitherWay(s: Storage, uid: nat, w: nat, i: nat)
    requires Inv(s) && i < |s.messages| && InTimeOrder(s.messages) && Member(s, uid, s.messages[i].chatTo)
    ensures s.messages[i].ts <= Max(w, MaxTimestamp(PollBatch(s, uid, w)))
  {
    hide Inv;
    var p := InChatSince(s.messages[i].chatTo, w);
    if s.messages[i].ts > w {
      if Picked(s, uid, w, i) {
        SentIsCovered(s, uid, w, i);
      } else {
        var j := LastMatch(s.messages, p, i, |s.messages|);
        assert Picked(s, uid, w, j);
        hide PollBatch;
        SentIsCovered(s, uid, w, j);
      }
    }
  }

  /** While timestamps do not run backwards, a message in a chat the user is in at its first poll is sent once
  if it is newer than that poll's watermark and fewer than three later messages of the chat are, and otherwise never. */
  lemma DeliveredIff(idle: Idle, uid: nat, polls: seq<PollAt>, f: nat, i: nat)
    requires Fresh(idle) && Chain(polls) && FirstSeen(polls, f, i)
    requires InTimeOrder(polls[f].store.messages) && Member(polls[f].store, uid, polls[f].store.messages[i].chatTo)
    ensures var ms, w := polls[f].store.messages, WatermarkAt(idle, uid, polls, f);
      Occurrences(Play(idle, uid, polls).delivered, i) ==
        One(ms[i].ts > w && NewerMatches(ms, InChatSince(ms[i].chatTo, w), i, |ms|) < DEFAULT_MAX_COUNT)
  {
    hide Inv, InTimeOrder, Play, Occurrences;
    CoveredEitherWay(polls[f].store, uid, WatermarkAt(idle, uid, polls, f), i);
    FirstPollDecides(idle, uid, polls, f, i);
  }

  lemma NewestWasStored(s: Storage, uid: nat, w: nat)
    ensures var newest := MaxTimestamp(PollBatch(s, uid, w));
      newest == 0 || exists j :: 0 <= j < |s.messages| && s.messages[j].ts == newest
  {
    var batch := PollBatch(s, uid, w);
    hide PollChats, MaxTimestamp;
    MaxTimestampIsLargest(batch);
    PollCopies(s, ChatIdsOf(s, uid), w);
    if MaxTimestamp(batch) != 0 {
      var e :| 0 <= e < |batch| && batch[e].msg.ts == MaxTimestamp(batch);
      assert Copied(s, batch[e]);
    }
  }

  ghost predicate StoredBefore(polls: seq<PollAt>, k: nat, ts: nat) {
    exists l, j ::
      && 0 <= l < k && l < |polls|
      && 0 <= j < |polls[l].store.messages| && polls[l].store.messages[j].ts == ts
  }

  /** A watermark is the heartbit or a timestamp stored before an earlier poll. */
  lemma {:induction false} WatermarkIsOld(idle: Idle, uid: nat, polls: seq<PollAt>, k: nat)
    requires Fresh(idle) && k <= |polls|
    ensures WatermarkAt(idle, uid, polls, k) == idle.start || StoredBefore(polls, k, WatermarkAt(idle, uid, polls, k))
  {
    if k > 0 {
      WatermarkIsOld(idle, uid, polls, k - 1);
      WatermarkNext(idle, uid, polls, k - 1);
      hide WatermarkAt, PollBatch, MaxTimestamp;
      NewestWasStored(polls[k - 1].store, uid, WatermarkAt(idle, uid, polls, k - 1));
    }
  }

  /** The messages that `later` has on top of `ms` are newer than all of `ms`. */
  predicate AllOlder(ms: seq<Message>, later: seq<Message>) {
    forall i, j :: 0 <= j < |ms| <= i < |later| ==> ms[j].ts < later[i].ts
  }

  /** Every message saved after a poll is newer than all those stored before it. */
  predicate LaterPollsNewer(polls: seq<PollAt>) {
    forall k, l :: 0 <= k < l < |polls| ==> AllOlder(polls[k].store.messages, polls[l].store.messages)
  }

  predicate AtMostThreeNew(s: Storage, chatid: nat, ts: nat) {
    |MatchesDown(s.messages, InChatSince(chatid, ts), |s.messages|)| <= DEFAULT_MAX_COUNT
  }

  /** Under the conditions the protocol relies on, every message saved after the starting heartbit in a chat the
  user belongs to is delivered exactly once. */
  lemma ExactlyOnce(idle: Idle, uid: nat, polls: seq<PollAt>, f: nat, i: nat)
    requires Fresh(idle) && Chain(polls) && FirstSeen(polls, f, i) && LaterPollsNewer(polls)
    requires var m := polls[f].store.messages[i];
      && m.ts > idle.start && Member(polls[f].store, uid, m.chatTo)
      && AtMostThreeNew(polls[f].store, m.chatTo, WatermarkAt(idle, uid, polls, f))
    ensures Occurrences(Play(idle, uid, polls).delivered, i) == 1
  {
    var s, w := polls[f].store, WatermarkAt(idle, uid, polls, f);
    hide Inv, Grows, Occurrences, Play, WatermarkAt, MatchesDown;
    WatermarkIsOld(idle, uid, polls, f);
    assert s.messages[i].ts > w by { hide Chain; }
    MatchPosition(s.messages, InChatSince(s.messages[i].chatTo, w), i, |s.messages|);
    FirstPollDecides(idle, uid, polls, f, i);
  }

  /** Timestamps count whole seconds, so a message saved in the same second as one already delivered, but after
  that poll, is never delivered. */
  lemma SameSecondIsLost(idle: Idle, uid: nat, polls: seq<PollAt>, f: nat, i: nat, j: nat)
    requires Fresh(idle) && Chain(polls) && FirstSeen(polls, f, i) && f > 0
    requires j < |polls[f - 1].store.messages|
    requires Picked(polls[f - 1].store, uid, WatermarkAt(idle, uid, polls, f - 1), j)
    requires polls[f].store.messages[i].ts <= polls[f - 1].store.messages[j].ts
    ensures Occurrences(Play(idle, uid, polls).delivered, i) == 0
  {
    hide Grows, Picked, Inv, WatermarkAt, Occurrences, Play, PollBatch, MaxTimestamp;
    var s, w := polls[f - 1].store, WatermarkAt(idle, uid, polls, f - 1);
    SentIsCovered(s, uid, w, j);
    WatermarkNext(idle, uid, polls, f - 1);
    CoveredIsNotPicked(polls[f].store, uid, WatermarkAt(idle, uid, polls, f), i);
    FirstPollDecides(idle, uid, polls, f, i);
  }

  lemma CoveredIsNotPicked(s: Storage, uid: nat, ts: nat, i: nat)
    requires i < |s.messages| && s.messages[i].ts <= ts
    ensures !Picked(s, uid, ts, i)
  {
  }
}
