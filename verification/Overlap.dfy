/** Polls that do not take turns: exactly when the same message is sent twice, and a run on which it is. */
module Overlap {
  import opened Store
  import opened StoreInvariant
  import opened Server
  import opened WorkerSafety
  import opened Watermark
  import opened Polling
  import opened Delivery
  import opened AtomicPoll
  import opened Rounds

  // ---------------------------------------------------------------- two polls

  /** A message is in both batches exactly when both polls pick it. */
  lemma BothSendIff(s: Storage, later: Storage, uid: nat, since: nat, again: nat, i: nat)
    requires Inv(s) && Inv(later) && Grows(s, later) && i < |s.messages|
    ensures (CountOf(PollBatch(s, uid, since), i) > 0 && CountOf(PollBatch(later, uid, again), i) > 0)
      <==> (Picked(s, uid, since, i) && Picked(later, uid, again, i))
  {
    hide Inv, Picked, PollBatch, CountOf;
    PollSendsPicked(s, uid, since, i);
    PollSendsPicked(later, uid, again, i);
  }

  /** The guard a caller can check: a poll against a watermark that covers the first batch repeats nothing of it. */
  lemma CoveredRepeatsNothing(s: Storage, later: Storage, uid: nat, since: nat, again: nat, i: nat)
    requires Inv(s) && Grows(s, later) && i < |s.messages| && MaxTimestamp(PollBatch(s, uid, since)) <= again
    ensures !(Picked(s, uid, since, i) && Picked(later, uid, again, i))
  {
    assert SameMessage(s.messages[i], later.messages[i]);
    hide Inv, Grows, MaxTimestamp, PollBatch;
    if Picked(s, uid, since, i) {
      SentIsCovered(s, uid, since, i);
      CoveredIsNotPicked(later, uid, again, i);
    }
  }

  lemma {:induction false} FewerAreNewer(a: seq<Message>, b: seq<Message>, chatid: nat, since: nat, again: nat, i: nat,
                                         n: nat)
    requires SameMessages(a, b) && since <= again && i < n <= |a|
    ensures NewerMatches(b, InChatSince(chatid, again), i, n) <= NewerMatches(a, InChatSince(chatid, since), i, n)
  {
    if n > i + 1 {
      FewerAreNewer(a, b, chatid, since, again, i, n - 1);
      assert SameMessage(a[n - 1], b[n - 1]);
    }
  }

  lemma StillPicked(s: Storage, later: Storage, uid: nat, since: nat, again: nat, i: nat)
    requires SameMessages(s.messages, later.messages) && later.chatuser == s.chatuser && since <= again
    requires i < |s.messages| && Picked(s, uid, since, i) && s.messages[i].ts > again
    ensures Picked(later, uid, again, i)
  {
    assert SameMessage(s.messages[i], later.messages[i]);
    FewerAreNewer(s.messages, later.messages, s.messages[i].chatTo, since, again, i, |s.messages|);
    hide NewerMatches, SameMessages;
  }

  /** The newest message of a batch was picked. */
  lemma NewestWasPicked(s: Storage, uid: nat, since: nat) returns (i: nat)
    requires Inv(s) && MaxTimestamp(PollBatch(s, uid, since)) > 0
    ensures i < |s.messages| && Picked(s, uid, since, i) && s.messages[i].ts == MaxTimestamp(PollBatch(s, uid, since))
  {
    var batch := PollBatch(s, uid, since);
    hide Inv, Picked, PollChats, MaxTimestamp;
    MaxTimestampIsLargest(batch);
    PollCopies(s, ChatIdsOf(s, uid), since);
    var e :| 0 <= e < |batch| && batch[e].msg.ts == MaxTimestamp(batch);
    assert Copied(s, batch[e]);
    i := batch[e].index;
    CountedIsThere(batch, i);
    hide CountOf, PollBatch;
    PollSendsPicked(s, uid, since, i);
  }

  /** While nothing is saved and nobody joins, and the watermark does not go back, a second poll repeats some message
  of the first batch if and only if its watermark does not cover that batch. */
  lemma RepeatsIff(s: Storage, later: Storage, uid: nat, since: nat, again: nat)
    requires Inv(s) && Grows(s, later) && since <= again
    requires SameMessages(s.messages, later.messages) && later.chatuser == s.chatuser
    ensures (exists i: nat :: i < |s.messages| && Picked(s, uid, since, i) && Picked(later, uid, again, i))
      <==> again < MaxTimestamp(PollBatch(s, uid, since))
  {
    assert |s.messages| == |later.messages|;
    hide Inv, Grows, Picked, MaxTimestamp, PollBatch, SameMessages;
    if again < MaxTimestamp(PollBatch(s, uid, since)) {
      var i := NewestWasPicked(s, uid, since);
      StillPicked(s, later, uid, since, again, i);
    } else {
      forall i: nat | i < |s.messages| ensures !(Picked(s, uid, since, i) && Picked(later, uid, again, i)) {
        CoveredRepeatsNothing(s, later, uid, since, again, i);
      }
    }
  }

  // ---------------------------------------------------------------- two polls on a run

  /** A whole poll of connection `c` by worker `w`, from `s` to `t`, for a user with the right password. */
  ghost predicate PollsAlone(hash: Hash, s: State, c: nat, w: nat, steps: seq<Event>, t: State) {
    && Safe(s) && ActTo(hash, s, c, WholePoll(w, steps), t) && c < |s.conns| && s.conns[c].idle.Some?
    && s.queue[0].cmd.IDLE? && Authorised(hash, s.store, s.queue[0])
  }

  /** The entries of the batch that was put in flight, if any. */
  function NewEntries(s: Conn, t: Conn): seq<Entry> {
    if s.idle.Some? && t.idle.Some? && |t.idle.value.inFlight| > |s.idle.value.inFlight|
    then t.idle.value.inFlight[|s.idle.value.inFlight|].entries
    else []
  }

  lemma SentEntries(conn: Conn, task: Task, out: Outcome, entries: seq<Entry>)
    requires conn.idle.Some? && task.cmd.IDLE? && out.pc.Free? && Answers(task, entries, out.send)
    ensures NewEntries(conn, OnSend(conn, task, out)) == entries
  {
  }

  lemma WholePollEnds(hash: Hash, s: State, c: nat, w: nat, steps: seq<Event>, t: State) returns (out: Outcome)
    requires PollsAlone(hash, s, c, w, steps, t)
    ensures var task := s.queue[0];
      && out.pc.Free? && Answers(task, PollBatch(s.store, task.request.uid, task.request.ts), out.send)
      && c < |t.conns| && t.conns[c] == OnSend(s.conns[c], task, out)
  {
    var task := s.queue[0];
    assert w < |s.workers|;
    TakenIsOk(s.store, task);
    assert Polls(s.store, Taken(task)) by { hide Inv, PcOk, Authorised, ActTo; }
    hide Apply, Enabled, Authorised, Polls, OnSend, Answers, PollBatch, Run, OnlyWorker, Safe;
    TakeParts(hash, s, w);
    out := PollSteps(hash, Apply(hash, s, Take(w)), w, steps, t);
  }

  /** What a whole poll puts in flight on any run. */
  lemma WholePollSends(hash: Hash, s: State, c: nat, w: nat, steps: seq<Event>, t: State)
    requires PollsAlone(hash, s, c, w, steps, t)
    ensures var task := s.queue[0];
      c < |t.conns| && NewEntries(s.conns[c], t.conns[c]) == PollBatch(s.store, task.request.uid, task.request.ts)
  {
    var out := WholePollEnds(hash, s, c, w, steps, t);
    hide Safe, ActTo, Authorised, OnSend, Answers, PollBatch, NewEntries;
    SentEntries(s.conns[c], s.queue[0], out, PollBatch(s.store, s.queue[0].request.uid, s.queue[0].request.ts));
  }

  /** On every run, whatever happens between two whole polls of a user, also ticks, writes and further polls: both
  batches hold the message at position `i` if and only if both polls pick it, and none does if the second one's
  watermark covers the first batch. */
  lemma TwoPollsOnARun(hash: Hash, s: State, c: nat, w: nat, steps: seq<Event>, t: State, middle: seq<Event>,
                       u: State, d: nat, x: nat, more: seq<Event>, v: State, i: nat)
    requires PollsAlone(hash, s, c, w, steps, t) && Run(hash, t, middle, u) && PollsAlone(hash, u, d, x, more, v)
    requires i < |s.store.messages| && u.queue[0].request.uid == s.queue[0].request.uid
    ensures c < |t.conns| && d < |v.conns| && Grows(s.store, u.store)
    ensures var one, other := NewEntries(s.conns[c], t.conns[c]), NewEntries(u.conns[d], v.conns[d]);
      var uid, since, again := s.queue[0].request.uid, s.queue[0].request.ts, u.queue[0].request.ts;
      && (CountOf(one, i) > 0 && CountOf(other, i) > 0 <==>
          Picked(s.store, uid, since, i) && Picked(u.store, uid, again, i))
      && (MaxTimestamp(one) <= again ==> !(CountOf(one, i) > 0 && CountOf(other, i) > 0))
  {
    var uid, since, again := s.queue[0].request.uid, s.queue[0].request.ts, u.queue[0].request.ts;
    assert Inv(s.store) && Inv(u.store);
    WholePollSends(hash, s, c, w, steps, t);
    WholePollSends(hash, u, d, x, more, v);
    hide Authorised, Picked, NewEntries, PollBatch, CountOf, MaxTimestamp, Inv, Apply, Enabled;
    PollIsSafe(hash, s, c, w, steps, t);
    hide ActTo, Safe;
    EveryRunIsSafe(hash, t, middle, u);
    GrowsTransitive(s.store, t.store, u.store);
    MessagesStay(s.store, u.store);
    hide Grows;
    BothSendIff(s.store, u.store, uid, since, again, i);
    if MaxTimestamp(PollBatch(s.store, uid, since)) <= again {
      CoveredRepeatsNothing(s.store, u.store, uid, since, again, i);
    }
  }

  lemma MessagesStay(s: Storage, t: Storage)
    requires Grows(s, t)
    ensures |s.messages| <= |t.messages|
  {
  }

  // ---------------------------------------------------------------- a run that sends a message twice

  /** A poll changes only flags. */
  lemma {:induction false} PollKeepsMessages(s: Storage, ids: seq<nat>, ts: nat)
    ensures var t := PollChats(s, ids, ts).0; SameMessages(s.messages, t.messages) && t == s.(messages := t.messages)
    decreases |ids|
  {
    if ids != [] {
      var idx := Selected(s.messages, InChatSince(ids[0], ts), DEFAULT_MAX_COUNT);
      var t := GetMessages(s, ids[0], ts, DEFAULT_MAX_COUNT).0;
      MarkingIsSame(s.messages, idx);
      hide Selected, MarkRead, Entries;
      PollKeepsMessages(t, ids[1..], ts);
      SameThrice(s.messages, t.messages, PollChats(t, ids[1..], ts).0.messages);
    }
  }

  lemma SameThrice(a: seq<Message>, b: seq<Message>, c: seq<Message>)
    requires SameMessages(a, b) && SameMessages(b, c)
    ensures SameMessages(a, c)
  {
    forall i | 0 <= i < |a| ensures SameMessage(a[i], c[i]) {
      assert SameMessage(a[i], b[i]) && SameMessage(b[i], c[i]);
    }
  }

  /** A free worker takes a poll and finishes it at once. */
  lemma TakeAndPoll(hash: Hash, s: State, c: nat, w: nat) returns (events: seq<Event>, t: State, out: Outcome)
    requires Safe(s) && s.queue != [] && s.queue[0].client == c && c < |s.conns| && w < |s.workers|
    requires s.workers[w].Free?
    requires s.queue[0].cmd.IDLE? && Authorised(hash, s.store, s.queue[0])
    ensures Run(hash, s, events, t) && Safe(t)
    ensures var task := s.queue[0];
      && out.pc.Free? && Answers(task, PollBatch(s.store, task.request.uid, task.request.ts), out.send)
      && t == State(AfterPoll(s.store, task.request.uid, task.request.ts, 0), s.queue[1..], s.workers,
                    s.conns[c := OnSend(s.conns[c], task, out)])
  {
    var task := s.queue[0];
    TakenIsOk(s.store, task);
    assert Enabled(s, Take(w)) && Polls(s.store, Taken(task)) by { hide Inv, PcOk; }
    hide Enabled, Apply, Polls, Safe, Authorised, OnSend, Answers, PollBatch, AfterPoll, PcOk, Alone;
    TakeParts(hash, s, w);
    var taken := Apply(hash, s, Take(w));
    var work, end := AloneIsARun(hash, taken, w, 0);
    TaskAlone(hash, s.store, task, 0);
    out := Alone(hash, s.store, Taken(task), 0);
    assert s.workers[w := Taken(task)][w := Free] == s.workers;
    events, t := [Take(w)] + work, end;
    assert events[1..] == work;
    EveryRunIsSafe(hash, s, events, t);
  }

  /** Two ticks of a connection before a worker is free. */
  lemma TwoTicks(hash: Hash, s: State, c: nat, w: nat, first: nat, second: nat) returns (t: State)
    requires ReadyToPoll(hash, s, c, w)
    ensures Run(hash, s, [Tick(c, first), Tick(c, second)], t) && Safe(t)
    ensures t.store == s.store && t.workers == s.workers && |t.queue| == 2 && c < |t.conns| && t.conns[c].idle.Some?
    ensures t.conns[c].idle.value.inFlight == []
    ensures var idle := s.conns[c].idle.value;
      forall k :: 0 <= k < 2 ==>
        && t.queue[k].cmd.IDLE? && t.queue[k].client == c && Authorised(hash, s.store, t.queue[k])
        && t.queue[k].request.uid == idle.params.uid && t.queue[k].request.ts == OnTick(idle, first).params.ts
  {
    hide Safe, PingDue, HasUser;
    var mid := Apply(hash, s, Tick(c, first));
    t := Apply(hash, mid, Tick(c, second));
    assert Safe(mid) by { hide Apply; ApplyIsSafe(hash, s, Tick(c, first)); }
    assert Safe(t) by { hide Apply; ApplyIsSafe(hash, mid, Tick(c, second)); }
    TwoEvents(hash, s, Tick(c, first), Tick(c, second));
  }

  lemma PollAddsBatch(conn: Conn, task: Task, out: Outcome, entries: seq<Entry>)
    requires conn.idle.Some? && task.cmd.IDLE? && out.pc.Free? && Answers(task, entries, out.send) && entries != []
    ensures var t := OnSend(conn, task, out);
      t.idle.Some? && t.idle.value.inFlight == conn.idle.value.inFlight + [Batch(task.request.ts, entries)]
  {
  }

  /** The timer does not wait for the write: from every safe state where a connection may poll, two ticks before the
  worker is free lead to two batches in flight that both hold every message the first poll picks. */
  lemma TwoTicksRepeat(hash: Hash, s: State, c: nat, w: nat, first: nat, second: nat, i: nat)
    returns (events: seq<Event>, t: State)
    requires ReadyToPoll(hash, s, c, w) && i < |s.store.messages|
    requires var idle := s.conns[c].idle.value; Picked(s.store, idle.params.uid, OnTick(idle, first).params.ts, i)
    ensures Run(hash, s, events, t) && c < |t.conns| && t.conns[c].idle.Some?
    ensures var sent := t.conns[c].idle.value.inFlight;
      |sent| == 2 && CountOf(sent[0].entries, i) == 1 && CountOf(sent[1].entries, i) == 1
  {
    var idle := s.conns[c].idle.value;
    var uid, ts := idle.params.uid, OnTick(idle, first).params.ts;
    assert Inv(s.store) && w < |s.workers| && s.workers[w].Free?;
    hide ReadyToPoll, OnTick, Picked, Safe, Authorised, Answers, OnSend, PollBatch, AfterPoll, CountOf, Run, Inv;
    var ticked := TwoTicks(hash, s, c, w, first, second);
    var one, mid, out := TakeAndPoll(hash, ticked, c, w);
    var batch := PollBatch(s.store, uid, ts);
    PollSendsPicked(s.store, uid, ts, i);
    CountOfNone(i);
    PollAddsBatch(ticked.conns[c], ticked.queue[0], out, batch);
    SecondIsAuthorised(hash, s.store, ticked.queue[1], uid, ts, 0);
    var other, end, last := TakeAndPoll(hash, mid, c, w);
    AgainTheSame(s.store, uid, ts, i);
    var again := PollBatch(AfterPoll(s.store, uid, ts, 0), uid, ts);
    PollAddsBatch(mid.conns[c], mid.queue[0], last, again);
    RunJoin(hash, s, [Tick(c, first), Tick(c, second)], ticked, one, mid);
    RunJoin(hash, s, [Tick(c, first), Tick(c, second)] + one, mid, other, end);
    events, t := [Tick(c, first), Tick(c, second)] + one + other, end;
  }

  lemma CountOfNone(i: nat)
    ensures CountOf([], i) == 0
  {
  }

  lemma SecondIsAuthorised(hash: Hash, s: Storage, task: Task, uid: nat, ts: nat, now: nat)
    requires Authorised(hash, s, task) && task.request.uid == uid
    ensures Authorised(hash, AfterPoll(s, uid, ts, now), task)
  {
    PollKeepsMessages(UpdateUserHeartBit(s, uid, now), ChatIdsOf(s, uid), ts);
    UpdateFromChangesHeartbits(s.users, uid, now, 0);
    hide PollChats, ChatIdsOf, UpdateFrom, SameMessages;
    assert SameUser(s.users[uid - 1], UpdateUserHeartBit(s, uid, now).users[uid - 1]);
  }

  lemma AgainTheSame(s: Storage, uid: nat, ts: nat, i: nat)
    requires Inv(s) && i < |s.messages|
    ensures CountOf(PollBatch(AfterPoll(s, uid, ts, 0), uid, ts), i) == CountOf(PollBatch(s, uid, ts), i)
  {
    PollKeepsMessages(UpdateUserHeartBit(s, uid, 0), ChatIdsOf(s, uid), ts);
    hide Inv, PollChats, ChatIdsOf, UpdateFrom, SameMessages, CountOf, PollBatch;
    PollRepeats(s, AfterPoll(s, uid, ts, 0), uid, ts, i);
  }
}
