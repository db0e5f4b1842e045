/** What the watermark of an idle connection guarantees under every interleaving of ticks, queued polls,
several workers and completing writes. */
module Watermark {
  import opened Wrappers
  import opened Numbers
  import opened Store
  import opened StoreInvariant
  import opened History
  import opened Server
  import opened WorkerSafety
  import opened Discipline

  // ---------------------------------------------------------------- batches

  /** A copy, up to its flags, of the stored message at its position. */
  predicate Copied(s: Storage, e: Entry) {
    e.index < |s.messages| && SameMessage(s.messages[e.index], e.msg)
  }

  predicate AllNewer(entries: seq<Entry>, since: nat) {
    forall k :: 0 <= k < |entries| ==> entries[k].msg.ts > since
  }

  predicate AllCopied(s: Storage, entries: seq<Entry>) {
    forall k :: 0 <= k < |entries| ==> Copied(s, entries[k])
  }

  predicate NoRepeats(entries: seq<Entry>) {
    forall k, l :: 0 <= k < l < |entries| ==> entries[k].index != entries[l].index
  }

  /** Stored messages strictly newer than `since`, none twice. */
  predicate BatchOk(s: Storage, entries: seq<Entry>, since: nat) {
    AllCopied(s, entries) && AllNewer(entries, since) && NoRepeats(entries)
  }

  predicate DistinctIds(ids: seq<nat>) {
    forall k, l :: 0 <= k < l < |ids| ==> ids[k] != ids[l]
  }

  function Ids(chats: seq<Chat>): seq<nat> {
    seq(|chats|, i requires 0 <= i < |chats| => chats[i].id)
  }

  predicate OutsideChats(entries: seq<Entry>, ids: seq<nat>) {
    forall k :: 0 <= k < |entries| ==> entries[k].msg.chatTo !in ids
  }

  /** The poll visits each chat once, so no message is picked twice. */
  predicate PollFresh(s: Storage, pc: Pc) {
    match pc
    case Chats(_, ids, chats) => DistinctIds(Ids(chats) + ids)
    case Poll(task, chats, batch) =>
      DistinctIds(Ids(chats)) && OutsideChats(batch, Ids(chats)) && BatchOk(s, batch, task.request.ts)
    case Format(task, entries, _) => task.cmd.IDLE? ==> BatchOk(s, entries, task.request.ts)
    case FormatFrom(task, entries, _, _) => task.cmd.IDLE? ==> BatchOk(s, entries, task.request.ts)
    case _ => true
  }

  lemma BatchStays(s: Storage, t: Storage, entries: seq<Entry>, since: nat)
    requires BatchOk(s, entries, since) && Grows(s, t)
    ensures BatchOk(t, entries, since)
  {
    assert forall k :: 0 <= k < |entries| ==> Copied(s, entries[k]);
  }

  lemma PollStaysFresh(s: Storage, t: Storage, pc: Pc)
    requires PollFresh(s, pc) && Grows(s, t)
    ensures PollFresh(t, pc)
  {
    hide BatchOk, Grows, DistinctIds, OutsideChats;
    match pc {
      case Poll(task, _, batch) => BatchStays(s, t, batch, task.request.ts);
      case Format(task, entries, _) => if task.cmd.IDLE? { BatchStays(s, t, entries, task.request.ts); }
      case FormatFrom(task, entries, _, _) => if task.cmd.IDLE? { BatchStays(s, t, entries, task.request.ts); }
      case _ =>
    }
  }

  /** Distinct membership pairs of one user have distinct chats. */
  lemma {:induction false} MembershipsDistinct(memberships: seq<Chatuser>, uid: nat)
    requires forall i, j :: 0 <= i < j < |memberships| ==> memberships[i] != memberships[j]
    ensures DistinctIds(ChatIds(Filter(memberships, HasMember(uid))))
  {
    if memberships != [] {
      var init, last := memberships[..|memberships| - 1], memberships[|memberships| - 1];
      MembershipsDistinct(init, uid);
      var kept := Filter(init, HasMember(uid));
      FilterElements(init, HasMember(uid));
      assert memberships == init + [last];
      FilterSnoc(init, last, HasMember(uid));
      if last.uid == uid {
        forall k | 0 <= k < |kept| ensures kept[k].chatid != last.chatid {
          assert kept[k] in init;
          assert kept[k] == Chatuser(kept[k].chatid, uid);
        }
        assert ChatIds(kept + [last]) == ChatIds(kept) + [last.chatid];
      }
    }
  }

  lemma SelectedFacts(s: Storage, chatid: nat, ts: nat)
    ensures var idx := Selected(s.messages, InChatSince(chatid, ts), DEFAULT_MAX_COUNT);
      && Descending(idx)
      && forall k :: 0 <= k < |idx| ==> s.messages[idx[k]].chatTo == chatid && s.messages[idx[k]].ts > ts
  {
    var p := InChatSince(chatid, ts);
    MatchesAreMatches(s.messages, p, |s.messages|);
    MatchesDescend(s.messages, p, |s.messages|);
    hide MatchesDown;
    var idx := Selected(s.messages, p, DEFAULT_MAX_COUNT);
    assert forall k :: 0 <= k < |idx| ==> idx[k] in MatchesDown(s.messages, p, |s.messages|);
  }

  lemma EntriesFound(s: Storage, chatid: nat, ts: nat)
    ensures var idx := Selected(s.messages, InChatSince(chatid, ts), DEFAULT_MAX_COUNT);
      var found := Entries(idx, GetMessages(s, chatid, ts, DEFAULT_MAX_COUNT).1);
      BatchOk(s, found, ts) && forall k :: 0 <= k < |found| ==> found[k].msg.chatTo == chatid
  {
    SelectedFacts(s, chatid, ts);
    hide MarkRead, Selected, InChatSince;
  }

  lemma BatchesJoin(s: Storage, a: seq<Entry>, b: seq<Entry>, since: nat, chatid: nat)
    requires BatchOk(s, a, since) && BatchOk(s, b, since)
    requires forall k :: 0 <= k < |a| ==> a[k].msg.chatTo != chatid
    requires forall k :: 0 <= k < |b| ==> b[k].msg.chatTo == chatid
    ensures BatchOk(s, a + b, since)
  {
    forall k, l | 0 <= k < |a| && 0 <= l < |b| ensures a[k].index != b[l].index {
      assert Copied(s, a[k]) && Copied(s, b[l]);
    }
  }

  lemma IdsTail(chats: seq<Chat>)
    requires chats != []
    ensures |Ids(chats)| == |chats| && Ids(chats)[0] == chats[0].id && Ids(chats)[1..] == Ids(chats[1..])
  {
  }

  lemma PollStepFresh(s: Storage, task: Task, chats: seq<Chat>, batch: seq<Entry>)
    requires PollFresh(s, Poll(task, chats, batch)) && chats != [] && task.cmd.IDLE?
    requires Grows(s, PollStep(s, task, chats, batch).store)
    ensures var out := PollStep(s, task, chats, batch); PollFresh(out.store, out.pc)
  {
    var id, ts := chats[0].id, task.request.ts;
    var idx := Selected(s.messages, InChatSince(id, ts), DEFAULT_MAX_COUNT);
    var found := Entries(idx, GetMessages(s, id, ts, DEFAULT_MAX_COUNT).1);
    var t := GetMessages(s, id, ts, DEFAULT_MAX_COUNT).0;
    EntriesFound(s, id, ts);
    IdsTail(chats);
    hide Ids, Selected, Entries, GetMessages, BatchOk, Grows, InChatSince;
    assert forall k :: 0 <= k < |batch| ==> batch[k].msg.chatTo != id;
    BatchesJoin(s, batch, found, ts, id);
    BatchStays(s, t, batch + found, ts);
    assert id !in Ids(chats[1..]);
  }

  lemma EarlyStepFresh(hash: Hash, s: Storage, pc: Pc, choice: Choice)
    requires CanStep(s, pc, choice) && (pc.Taken? || pc.Checked? || pc.Peered? || pc.HaveChat?)
    ensures var out := WorkerStep(hash, s, pc, choice); PollFresh(out.store, out.pc)
  {
    hide TakenStep, CheckedStep, PeeredStep, HaveChatStep, BatchOk, DistinctIds, OutsideChats;
    match pc {
      case Taken(task) => StageAfterTaken(hash, s, task);
      case _ => LaterStages(hash, s, pc, choice);
    }
  }

  lemma ChatStepFresh(hash: Hash, s: Storage, pc: Pc, choice: Choice)
    requires Inv(s) && PcOk(s, pc) && PollFresh(s, pc) && (pc.Beaten? || pc.Chats?)
    ensures var out := WorkerStep(hash, s, pc, choice); PollFresh(out.store, out.pc)
  {
    if pc.Beaten? { BeatenFresh(s, pc.user); } else { ChatsFresh(s, pc.ids, pc.chats); }
    hide Inv, Knows, DistinctIds, ChatIdsOf, LookupChatById, Ids;
  }

  lemma StepFresh(hash: Hash, s: Storage, pc: Pc, choice: Choice)
    requires Inv(s) && PcOk(s, pc) && PollFresh(s, pc) && CanStep(s, pc, choice)
    ensures var out := WorkerStep(hash, s, pc, choice); PollFresh(out.store, out.pc)
  {
    hide Inv, StepOk, Knows, BatchOk, DistinctIds, OutsideChats, GetMessages, Selected, Entries;
    hide LookupChatById, LookupUserById, IsSortOf, SelectMessages, PageEntries;
    if pc.Taken? || pc.Checked? || pc.Peered? || pc.HaveChat? {
      EarlyStepFresh(hash, s, pc, choice);
    } else if pc.Beaten? || pc.Chats? {
      ChatStepFresh(hash, s, pc, choice);
    } else if pc.Poll? {
      if pc.chats != [] {
        StepSafe(hash, s, pc, choice);
        GrowsFromStep(hash, s, pc, choice);
        PollStepFresh(s, pc.task, pc.chats, pc.batch);
      } else { EmptyBatch(s, pc.task.request.ts); }
    }
  }

  lemma EmptyBatch(s: Storage, since: nat)
    ensures BatchOk(s, [], since)
  {
  }

  lemma GrowsFromStep(hash: Hash, s: Storage, pc: Pc, choice: Choice)
    requires CanStep(s, pc, choice) && StepOk(s, pc, WorkerStep(hash, s, pc, choice)) && pc.Poll?
    ensures Grows(s, PollStep(s, pc.task, pc.chats, pc.batch).store)
  {
    hide PollStep, Inv, Grows, PcOk;
  }

  predicate NotPolling(pc: Pc) {
    pc.Free? || pc.Checked? || pc.Peered? || pc.HaveChat? || pc.Half? || pc.Beaten?
  }

  lemma StageAfterTaken(hash: Hash, s: Storage, task: Task)
    ensures NotPolling(TakenStep(hash, s, task).pc)
  {
    hide CreateUser, LookupUserByName, LookupUserById;
  }

  lemma StageAfterChecked(hash: Hash, s: Storage, task: Task, user: User, now: nat)
    ensures NotPolling(CheckedStep(hash, s, task, user, now).pc)
  {
    hide CreateChat, LookupUserByName, LookupChatByName, DistinctLocations;
  }

  lemma StageAfterPeered(s: Storage, task: Task, user: User, peer: User, now: nat)
    ensures NotPolling(PeeredStep(s, task, user, peer, now).pc)
  {
    hide LookupChatByName, SelectMessages;
  }

  lemma LaterStages(hash: Hash, s: Storage, pc: Pc, choice: Choice)
    requires CanStep(s, pc, choice) && (pc.Checked? || pc.Peered? || pc.HaveChat?)
    ensures NotPolling(WorkerStep(hash, s, pc, choice).pc)
  {
    hide CheckedStep, PeeredStep, HaveChatStep;
    match pc {
      case Checked(task, user) => StageAfterChecked(hash, s, task, user, choice.now);
      case Peered(task, user, peer) => StageAfterPeered(s, task, user, peer, choice.now);
      case HaveChat(task, user, peer, chat) => StageAfterHaveChat(s, task, user, peer, chat, choice.now);
    }
  }

  lemma StageAfterHaveChat(s: Storage, task: Task, user: User, peer: User, chat: Chat, now: nat)
    ensures NotPolling(HaveChatStep(s, task, user, peer, chat, now).pc)
  {
  }

  lemma BeatenFresh(s: Storage, user: User)
    requires Inv(s)
    ensures DistinctIds(Ids([]) + ChatIdsOf(s, user.id))
  {
    MembershipsDistinct(s.chatuser, user.id);
    assert Ids([]) + ChatIdsOf(s, user.id) == ChatIdsOf(s, user.id);
  }

  lemma ChatsFresh(s: Storage, ids: seq<nat>, chats: seq<Chat>)
    requires IdsInOrder(s) && DistinctIds(Ids(chats) + ids) && forall i :: 0 <= i < |ids| ==> HasChat(s, ids[i])
    ensures ids != [] ==> DistinctIds(Ids(chats + [LookupChatById(s, ids[0])]) + ids[1..])
    ensures ids == [] ==> DistinctIds(Ids(chats)) && BatchOk(s, [], 0)
  {
    if ids != [] {
      LookupById(s, ids[0]);
      hide LookupChatById;
      assert Ids(chats + [LookupChatById(s, ids[0])]) == Ids(chats) + [ids[0]];
      assert Ids(chats) + [ids[0]] + ids[1..] == Ids(chats) + ids;
    } else {
      assert Ids(chats) + ids == Ids(chats);
    }
  }

  // ---------------------------------------------------------------- a connection

  /** `max_timestamp` is the largest timestamp, and one of them. */
  lemma {:induction false} MaxTimestampIsLargest(entries: seq<Entry>)
    ensures forall k :: 0 <= k < |entries| ==> entries[k].msg.ts <= MaxTimestamp(entries)
    ensures MaxTimestamp(entries) == 0 || exists k :: 0 <= k < |entries| && entries[k].msg.ts == MaxTimestamp(entries)
  {
    if entries != [] {
      var init := entries[..|entries| - 1];
      MaxTimestampIsLargest(init);
      if MaxTimestamp(entries) == MaxTimestamp(init) && MaxTimestamp(init) != 0 {
        var k :| 0 <= k < |init| && init[k].msg.ts == MaxTimestamp(init);
        assert entries[k].msg.ts == MaxTimestamp(entries);
      }
    }
  }

  /** A tick asks for the messages newer than the larger of the watermark and the newest timestamp sent, for the user of
  the connection; and for a ping when the last one is 6 seconds old or older, or the clock went back, unless the
  difference wraps to less than 6 seconds. Nothing else of the connection changes. */
  lemma TickAsks(idle: Idle, client: nat, number: nat, now: nat)
    requires idle.lastPing < U64 && now < U64
    ensures var t, task := OnTick(idle, now), TickTask(idle, client, number, now);
      && t == idle.(params := idle.params.(ts := t.params.ts), lastPing := t.lastPing)
      && idle.params.ts <= t.params.ts && idle.newest <= t.params.ts
      && (t.params.ts == idle.params.ts || t.params.ts == idle.newest)
      && task.cmd.IDLE? && task.request == t.params && task.client == client && task.number == number
      && (task.ping <==> now >= idle.lastPing + 6 || (now < idle.lastPing && now + U64 >= idle.lastPing + 6))
      && t.lastPing == (if task.ping then now else idle.lastPing)
  {
    if now >= idle.lastPing {
      assert (now - idle.lastPing) % U64 == now - idle.lastPing;
    } else {
      assert (now - idle.lastPing) % U64 == now + U64 - idle.lastPing;
    }
  }

  /** Two pings in a row are at least 6 seconds apart while the clock does not go back. */
  lemma PingsAreSpaced(idle: Idle, client: nat, first: nat, second: nat)
    requires idle.lastPing < U64 && first <= second < U64
    requires TickTask(idle, client, 0, first).ping && TickTask(OnTick(idle, first), client, 0, second).ping
    ensures second >= first + 6
  {
    TickAsks(idle, client, 0, first);
    TickAsks(OnTick(idle, first), client, 0, second);
    hide PingDue;
  }

  /** A message with timestamp `ts` is in one of the batches. */
  ghost predicate Shown(batches: seq<Batch>, ts: nat) {
    exists k, j :: 0 <= k < |batches| && 0 <= j < |batches[k].entries| && batches[k].entries[j].msg.ts == ts
  }

  ghost predicate BatchesOk(s: Storage, batches: seq<Batch>, ts: nat) {
    forall k :: 0 <= k < |batches| ==> BatchOk(s, batches[k].entries, batches[k].since) && batches[k].since <= ts
  }

  /** The watermark is the starting heartbit or a timestamp from a completed write, and no batch was
  selected against a newer one. */
  ghost predicate IdleOk(s: Storage, idle: Idle) {
    && idle.start <= idle.params.ts
    && (idle.params.ts == idle.start || Shown(idle.delivered, idle.params.ts))
    && (idle.newest == 0 || Shown(idle.delivered, idle.newest))
    && BatchesOk(s, idle.inFlight, idle.params.ts)
    && BatchesOk(s, idle.delivered, idle.params.ts)
  }

  lemma BatchesStay(s: Storage, t: Storage, batches: seq<Batch>, ts: nat, now: nat)
    requires BatchesOk(s, batches, ts) && Grows(s, t) && ts <= now
    ensures BatchesOk(t, batches, now)
  {
    hide BatchOk, Grows;
    forall k | 0 <= k < |batches| ensures BatchOk(t, batches[k].entries, batches[k].since) {
      BatchStays(s, t, batches[k].entries, batches[k].since);
    }
  }

  lemma IdleStays(s: Storage, t: Storage, idle: Idle)
    requires IdleOk(s, idle) && Grows(s, t)
    ensures IdleOk(t, idle)
  {
    hide BatchesOk, Grows, Shown;
    BatchesStay(s, t, idle.inFlight, idle.params.ts, idle.params.ts);
    BatchesStay(s, t, idle.delivered, idle.params.ts, idle.params.ts);
  }

  lemma TickKeepsIdle(s: Storage, idle: Idle, now: nat)
    requires IdleOk(s, idle)
    ensures IdleOk(s, OnTick(idle, now)) && idle.params.ts <= OnTick(idle, now).params.ts
  {
    hide BatchesOk, Shown, Grows;
    var ts := OnTick(idle, now).params.ts;
    GrowsReflexive(s);
    BatchesStay(s, s, idle.inFlight, idle.params.ts, ts);
    BatchesStay(s, s, idle.delivered, idle.params.ts, ts);
  }

  lemma ShownMore(batches: seq<Batch>, b: Batch, ts: nat)
    ensures Shown(batches, ts) ==> Shown(batches + [b], ts)
    ensures MaxTimestamp(b.entries) == 0 || Shown(batches + [b], MaxTimestamp(b.entries))
  {
    hide MaxTimestamp;
    MaxTimestampIsLargest(b.entries);
    var all := batches + [b];
    assert all[|batches|] == b;
    assert forall k :: 0 <= k < |batches| ==> all[k] == batches[k];
  }

  lemma WroteKeepsIdle(s: Storage, idle: Idle, k: nat, ok: bool)
    requires IdleOk(s, idle) && k < |idle.inFlight|
    ensures IdleOk(s, OnIdleWrote(idle, k, ok))
  {
    hide BatchOk, MaxTimestamp, Shown;
    ShownMore(idle.delivered, idle.inFlight[k], idle.params.ts);
  }

  lemma SendKeepsIdle(s: Storage, idle: Idle, b: Batch)
    requires IdleOk(s, idle) && BatchOk(s, b.entries, b.since) && b.since <= idle.params.ts
    ensures IdleOk(s, idle.(inFlight := idle.inFlight + [b]))
  {
    hide BatchOk, Shown;
  }

  // ---------------------------------------------------------------- the state

  ghost predicate PollTaskOk(conns: seq<Conn>, task: Task) {
    task.cmd.IDLE? && task.client < |conns| && conns[task.client].idle.Some? ==>
      task.request.ts <= conns[task.client].idle.value.params.ts
  }

  ghost predicate ConnOk(s: Storage, conn: Conn) {
    conn.idle.Some? ==> IdleOk(s, conn.idle.value)
  }

  /** What holds of all polls, under way or done. */
  ghost predicate Watermarked(s: State) {
    && (forall i :: 0 <= i < |s.queue| ==> PollTaskOk(s.conns, s.queue[i]))
    && (forall w :: 0 <= w < |s.workers| ==> PollFresh(s.store, s.workers[w]))
    && (forall w :: 0 <= w < |s.workers| && !s.workers[w].Free? ==> PollTaskOk(s.conns, s.workers[w].task))
    && (forall c :: 0 <= c < |s.conns| ==> ConnOk(s.store, s.conns[c]))
  }

  /** `t` differs from `s` in connection `c`, whose watermark did not go back. */
  lemma ConnChangeKeepsWatermarks(s: State, t: State, c: nat, conn: Conn)
    requires Watermarked(s) && c < |s.conns| && t == s.(conns := s.conns[c := conn]) && ConnOk(s.store, conn)
    requires s.conns[c].idle.Some? ==> conn.idle.Some? && s.conns[c].idle.value.params.ts <= conn.idle.value.params.ts
    requires s.conns[c].idle.None? ==> conn.idle.None? || NoPollsFor(s, c)
    ensures Watermarked(t)
  {
    hide ConnOk, PollFresh;
  }

  ghost predicate NoPollsFor(s: State, c: nat) {
    && (forall i :: 0 <= i < |s.queue| ==> !(s.queue[i].cmd.IDLE? && s.queue[i].client == c))
    && (forall w :: 0 <= w < |s.workers| && WorksFor(s.workers[w], c) ==> !s.workers[w].task.cmd.IDLE?)
  }

  lemma QueuedKeepsWatermarks(s: State, task: Task)
    requires Watermarked(s) && PollTaskOk(s.conns, task)
    ensures Watermarked(s.(queue := s.queue + [task]))
  {
    hide ConnOk, PollFresh, PollTaskOk;
  }

  lemma ReceiveKeepsWatermarks(hash: Hash, s: State, c: nat, request: Request)
    requires Watermarked(s) && Ordered(s) && Enabled(s, Receive(c, request))
    ensures Watermarked(Apply(hash, s, Receive(c, request)))
  {
    hide Disciplined;
    assert NoPollsFor(s, c);
    var conn := OnReceive(s.conns[c], request);
    NewIdleIsOk(s.store, s.conns[c], request);
    ConnChangeKeepsWatermarks(s, s.(conns := s.conns[c := conn]), c, conn);
    hide Watermarked, ConnOk, NoPollsFor, Ordered;
    if request.Accepted? {
      QueuedKeepsWatermarks(s.(conns := s.conns[c := conn]),
                            Task(request.cmd, request.params, c, s.conns[c].received, false));
    }
  }

  lemma NewIdleIsOk(s: Storage, conn: Conn, request: Request)
    requires conn.idle.None?
    ensures ConnOk(s, OnReceive(conn, request))
  {
  }

  lemma TickKeepsWatermarks(hash: Hash, s: State, c: nat, now: nat)
    requires Watermarked(s) && Enabled(s, Tick(c, now))
    ensures Watermarked(Apply(hash, s, Tick(c, now)))
  {
    var idle := s.conns[c].idle.value;
    var conn := s.conns[c].(idle := Some(OnTick(idle, now)));
    var mid := s.(conns := s.conns[c := conn]);
    assert ConnOk(s.store, s.conns[c]);
    TickKeepsIdle(s.store, idle, now);
    ConnChangeKeepsWatermarks(s, mid, c, conn);
    hide Watermarked, OnTick, IdleOk;
    QueuedKeepsWatermarks(mid, TickTask(idle, c, s.conns[c].received, now));
  }

  lemma OtherKeepsWatermarks(hash: Hash, s: State, e: Event)
    requires Watermarked(s) && Enabled(s, e) && (e.ReadError? || e.Wrote? || e.IdleWrote?)
    ensures Watermarked(Apply(hash, s, e))
  {
    hide PollFresh, IdleOk;
    var c, conn := e.client, Apply(hash, s, e).conns[e.client];
    assert ConnOk(s.store, s.conns[c]);
    if e.IdleWrote? { WroteKeepsIdle(s.store, s.conns[c].idle.value, e.k, e.ok); }
    ConnChangeKeepsWatermarks(s, Apply(hash, s, e), c, conn);
  }

  lemma TakeKeepsWatermarks(hash: Hash, s: State, e: Event)
    requires Watermarked(s) && Enabled(s, e) && (e.Take? || e.Connect?)
    ensures Watermarked(Apply(hash, s, e))
  {
    hide ConnOk;
    assert ConnOk(s.store, NEW_CONN) by { NewConnIsOk(s.store); }
    assert e.Take? ==> PollFresh(s.store, Taken(s.queue[0]));
  }

  lemma NewConnIsOk(s: Storage)
    ensures ConnOk(s, NEW_CONN)
  {
  }

  /** What a poll sends is what it collected. */
  lemma SentBatch(hash: Hash, s: Storage, pc: Pc, choice: Choice)
    requires CanStep(s, pc, choice) && PcOk(s, pc) && StepOk(s, pc, WorkerStep(hash, s, pc, choice)) && PollFresh(s, pc)
    ensures var out := WorkerStep(hash, s, pc, choice);
      out.send.Some? && out.send.value.IdleMessages? ==>
        out.store == s && pc.task.cmd.IDLE? && BatchOk(s, out.send.value.entries, pc.task.request.ts)
  {
    hide Inv, Grows, Knows, BatchOk, SendOk;
    EmptyBatch(s, pc.task.request.ts);
    match pc {
      case Taken(task) => OtherSends(hash, s, pc, choice);
      case Checked(_, _) => OtherSends(hash, s, pc, choice);
      case Peered(_, _, _) => OtherSends(hash, s, pc, choice);
      case HaveChat(_, _, _, _) => OtherSends(hash, s, pc, choice);
      case Poll(_, _, _) =>
        hide Entries, GetMessages, Selected;
      case _ =>
    }
  }

  lemma OtherSends(hash: Hash, s: Storage, pc: Pc, choice: Choice)
    requires CanStep(s, pc, choice) && InBranch(pc) && (pc.Taken? || pc.Checked? || pc.Peered? || pc.HaveChat?)
    ensures var out := WorkerStep(hash, s, pc, choice); out.send.Some? ==> !out.send.value.IdleMessages?
  {
    hide LookupUserById, LookupUserByName, LookupChatByName, CreateUser, CreateChat, SelectMessages, SaveMessage;
    hide AddUserToChat, DistinctLocations;
  }

  lemma WorkKeepsConnOk(s: State, t: State, w: nat, out: Outcome)
    requires Watermarked(s) && Worked(s, t, w, out) && Grows(s.store, out.store)
    requires out.send.Some? && out.send.value.IdleMessages? ==>
      s.workers[w].task.cmd.IDLE? && BatchOk(out.store, out.send.value.entries, s.workers[w].task.request.ts)
    ensures forall c :: 0 <= c < |t.conns| ==> ConnOk(t.store, t.conns[c])
  {
    hide Grows, IdleOk, BatchOk, PollFresh;
    forall c | 0 <= c < |t.conns| ensures ConnOk(t.store, t.conns[c]) {
      assert ConnOk(s.store, s.conns[c]);
      var task := s.workers[w].task;
      assert PollTaskOk(s.conns, task);
      if s.conns[c].idle.Some? {
        IdleStays(s.store, t.store, s.conns[c].idle.value);
        if c == task.client && out.send.Some? && out.send.value.IdleMessages? {
          SendKeepsIdle(t.store, s.conns[c].idle.value, Batch(task.request.ts, out.send.value.entries));
        }
      }
    }
  }

  lemma WorkKeepsPolls(s: State, t: State, w: nat, out: Outcome)
    requires Watermarked(s) && Worked(s, t, w, out) && Grows(s.store, out.store) && PollFresh(out.store, out.pc)
    requires !out.pc.Free? ==> out.pc.task == s.workers[w].task
    ensures forall i :: 0 <= i < |t.queue| ==> PollTaskOk(t.conns, t.queue[i])
    ensures forall v :: 0 <= v < |t.workers| ==> PollFresh(t.store, t.workers[v])
    ensures forall v :: 0 <= v < |t.workers| && !t.workers[v].Free? ==> PollTaskOk(t.conns, t.workers[v].task)
  {
    hide Grows, ConnOk, PollFresh;
    forall v | 0 <= v < |t.workers| ensures PollFresh(t.store, t.workers[v]) {
      if v != w { PollStaysFresh(s.store, t.store, s.workers[v]); }
    }
  }

  lemma WorkKeepsWatermarks(hash: Hash, s: State, w: nat, choice: Choice)
    requires Watermarked(s) && Ordered(s) && Safe(s) && Enabled(s, Work(w, choice))
    ensures Watermarked(Apply(hash, s, Work(w, choice)))
  {
    ApplyIsSafe(hash, s, Work(w, choice));
    WorkShape(hash, s, w, choice);
    var pc, t := s.workers[w], Apply(hash, s, Work(w, choice));
    hide Apply, Inv, Ordered, Grows, OnSend;
    var out := WorkerStep(hash, s.store, pc, choice);
    StepFresh(hash, s.store, pc, choice);
    SentBatch(hash, s.store, pc, choice);
    hide WorkerStep, ConnOk, PollFresh, BatchOk, PollTaskOk, SendOk, PcOk;
    WorkKeepsConnOk(s, t, w, out);
    WorkKeepsPolls(s, t, w, out);
  }

  lemma ApplyKeepsWatermarks(hash: Hash, s: State, e: Event)
    requires Watermarked(s) && Ordered(s) && Safe(s) && Enabled(s, e)
    ensures Watermarked(Apply(hash, s, e))
  {
    hide Watermarked, Ordered, Safe, Apply;
    match e {
      case Receive(c, request) => ReceiveKeepsWatermarks(hash, s, c, request);
      case Work(w, choice) => WorkKeepsWatermarks(hash, s, w, choice);
      case Tick(c, now) => TickKeepsWatermarks(hash, s, c, now);
      case Take(_) => TakeKeepsWatermarks(hash, s, e);
      case Connect => TakeKeepsWatermarks(hash, s, e);
      case _ => OtherKeepsWatermarks(hash, s, e);
    }
  }

  lemma {:induction false} RunKeepsWatermarks(hash: Hash, s: State, events: seq<Event>, t: State)
    requires Watermarked(s) && Ordered(s) && Safe(s) && Run(hash, s, events, t)
    ensures Watermarked(t) && Ordered(t) && Safe(t)
    decreases |events|
  {
    hide Watermarked, Ordered, Safe, Apply, Enabled;
    if events != [] {
      ApplyKeepsWatermarks(hash, s, events[0]);
      ApplyKeepsOrder(hash, s, events[0]);
      ApplyIsSafe(hash, s, events[0]);
      RunKeepsWatermarks(hash, Apply(hash, s, events[0]), events[1..], t);
    }
  }

  // ---------------------------------------------------------------- every run

  /** On every run: the watermark of an idle connection is the heartbit it started with or the timestamp of a
  message in a batch whose write completed, and every batch, sent or delivered, holds stored messages strictly
  newer than the timestamp in its task, none twice. */
  lemma WatermarkIsSafe(hash: Hash, workers: nat, events: seq<Event>, t: State, c: nat)
    requires Run(hash, Started(workers), events, t) && c < |t.conns| && t.conns[c].idle.Some?
    ensures var idle := t.conns[c].idle.value;
      && (idle.params.ts == idle.start || Shown(idle.delivered, idle.params.ts))
      && (forall k :: 0 <= k < |idle.delivered| ==>
            BatchOk(t.store, idle.delivered[k].entries, idle.delivered[k].since))
      && (forall k :: 0 <= k < |idle.inFlight| ==> BatchOk(t.store, idle.inFlight[k].entries, idle.inFlight[k].since))
  {
    hide Apply, Enabled, BatchOk, Shown;
    StartedIsOrdered(workers);
    assert Watermarked(Started(workers));
    RunKeepsWatermarks(hash, Started(workers), events, t);
    hide Started, Ordered, Safe;
    assert ConnOk(t.store, t.conns[c]);
  }

  /** One event never moves a watermark back, nor forgets the heartbit or a delivered batch. */
  lemma WatermarkStep(hash: Hash, s: State, e: Event, c: nat)
    requires Enabled(s, e) && c < |s.conns| && s.conns[c].idle.Some?
    ensures var t := Apply(hash, s, e);
      && c < |t.conns| && t.conns[c].idle.Some?
      && NoStepBack(s.conns[c].idle.value, t.conns[c].idle.value)
  {
    hide WorkerStep, MaxTimestamp;
  }

  ghost predicate NoStepBack(a: Idle, b: Idle) {
    a.params.ts <= b.params.ts && a.start == b.start && a.delivered <= b.delivered
  }

  /** However ticks, tasks, workers and writes interleave. */
  lemma {:induction false} WatermarkNeverDecreases(hash: Hash, s: State, events: seq<Event>, t: State, c: nat)
    requires Run(hash, s, events, t) && c < |s.conns| && s.conns[c].idle.Some?
    ensures c < |t.conns| && t.conns[c].idle.Some? && NoStepBack(s.conns[c].idle.value, t.conns[c].idle.value)
    decreases |events|
  {
    hide Apply, Enabled;
    if events != [] {
      WatermarkStep(hash, s, events[0], c);
      WatermarkNeverDecreases(hash, Apply(hash, s, events[0]), events[1..], t, c);
    }
  }

  // ---------------------------------------------------------------- a failed write

  lemma StoppedStep(hash: Hash, s: State, e: Event, c: nat)
    requires Enabled(s, e) && c < |s.conns| && s.conns[c].idle.Some? && !s.conns[c].idle.value.timer
    ensures !(e.Tick? && e.client == c)
    ensures var t := Apply(hash, s, e); c < |t.conns| && t.conns[c].idle.Some? && !t.conns[c].idle.value.timer
  {
    hide WorkerStep;
  }

  /** A connection whose timer stopped is never polled for again, on any run. */
  lemma {:induction false} StoppedStays(hash: Hash, s: State, events: seq<Event>, t: State, c: nat)
    requires Run(hash, s, events, t) && c < |s.conns| && s.conns[c].idle.Some? && !s.conns[c].idle.value.timer
    ensures c < |t.conns| && t.conns[c].idle.Some? && !t.conns[c].idle.value.timer
    ensures forall i :: 0 <= i < |events| ==> !(events[i].Tick? && events[i].client == c)
    decreases |events|
  {
    if events != [] {
      StoppedStep(hash, s, events[0], c);
      hide Apply, Enabled;
      StoppedStays(hash, Apply(hash, s, events[0]), events[1..], t, c);
      forall i | 0 <= i < |events| ensures !(events[i].Tick? && events[i].client == c) {
        if i > 0 { assert events[i] == events[1..][i - 1]; }
      }
    }
  }

  /** A write that fails ends the polling of its connection for good. */
  lemma FailedWriteEndsPolling(hash: Hash, s: State, c: nat, k: nat, events: seq<Event>, t: State)
    requires Enabled(s, IdleWrote(c, k, false)) && Run(hash, Apply(hash, s, IdleWrote(c, k, false)), events, t)
    ensures forall i :: 0 <= i < |events| ==> !(events[i].Tick? && events[i].client == c)
  {
    StoppedStays(hash, Apply(hash, s, IdleWrote(c, k, false)), events, t, c);
  }
}
