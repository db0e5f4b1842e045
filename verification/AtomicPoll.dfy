/** The step system can do a whole poll round without interruption, and then does exactly what `Round` says. */
module AtomicPoll {
  import opened Wrappers
  import opened Store
  import opened StoreInvariant
  import opened Server
  import opened WorkerSafety
  import opened Discipline
  import opened Watermark
  import opened Polling
  import opened Delivery

  ghost predicate Polls(s: Storage, pc: Pc) {
    Inv(s) && PcOk(s, pc) && !pc.Free? && pc.task.cmd.IDLE?
  }

  function At(now: nat): Choice {
    Choice(now, [])
  }

  lemma NextStep(hash: Hash, s: Storage, pc: Pc, now: nat)
    requires Polls(s, pc)
    ensures CanStep(s, pc, At(now))
    ensures var out := WorkerStep(hash, s, pc, At(now));
      && (!out.pc.Free? ==> Polls(out.store, out.pc) && out.pc.task == pc.task && out.send.None?)
      && (Stage(out.pc) < Stage(pc) || (Stage(out.pc) == Stage(pc) && 0 <= Left(out.pc) < Left(pc)))
  {
    StepSafe(hash, s, pc, At(now));
    TasksEnd(hash, s, pc, At(now));
    hide Inv, WorkerStep, Knows, Grows, SendOk, Stage, Left;
  }

  /** The outcome of all the steps of a poll, if no other worker makes one. */
  ghost function Alone(hash: Hash, s: Storage, pc: Pc, now: nat): Outcome
    requires Polls(s, pc)
    decreases Stage(pc), Left(pc)
  {
    NextStep(hash, s, pc, now);
    hide Polls, Stage, Left, WorkerStep;
    var out := WorkerStep(hash, s, pc, At(now));
    if out.pc.Free? then out else Alone(hash, out.store, out.pc, now)
  }

  lemma AloneStep(hash: Hash, s: Storage, pc: Pc, now: nat)
    requires Polls(s, pc) && CanStep(s, pc, At(now))
    ensures var out := WorkerStep(hash, s, pc, At(now));
      if out.pc.Free? then Alone(hash, s, pc, now) == out
      else Polls(out.store, out.pc) && Alone(hash, s, pc, now) == Alone(hash, out.store, out.pc, now)
  {
    NextStep(hash, s, pc, now);
    hide Polls, Stage, Left, WorkerStep;
  }

  /** What is sent for the messages found. */
  predicate Answers(task: Task, entries: seq<Entry>, send: Option<Send>) {
    if entries != [] then send.Some? && send.value.IdleMessages? && send.value.entries == entries
    else if task.ping then send == Some(IdleMessages([], []))
    else send == None
  }

  lemma FormatOne(hash: Hash, s: Storage, task: Task, entries: seq<Entry>, done: seq<ApiMessage>, now: nat)
    returns (more: seq<ApiMessage>)
    requires Polls(s, Format(task, entries, done)) && |done| < |entries|
    ensures |more| == |done| + 1 && Polls(s, Format(task, entries, more))
    ensures Alone(hash, s, Format(task, entries, done), now) == Alone(hash, s, Format(task, entries, more), now)
  {
    StepAlone(hash, s, Format(task, entries, done), now);
    hide Polls, Alone, LookupChatById, LookupUserById, CanStep;
    var next := FormatFrom(task, entries, done, LookupChatById(s, entries[|done|].msg.chatTo));
    StepAlone(hash, s, next, now);
    more := FormatFromStep(s, task, entries, done, next.chat).pc.done;
  }

  lemma {:induction false} FormatAlone(hash: Hash, s: Storage, task: Task, entries: seq<Entry>, done: seq<ApiMessage>,
                                       now: nat)
    requires Polls(s, Format(task, entries, done)) && entries != []
    ensures var out := Alone(hash, s, Format(task, entries, done), now);
      out.store == s && out.pc.Free? && Answers(task, entries, out.send)
    decreases |entries| - |done|
  {
    PollCanStep(s, Format(task, entries, done), now);
    if |done| < |entries| {
      hide *;
      var more := FormatOne(hash, s, task, entries, done, now);
      FormatAlone(hash, s, task, entries, more, now);
    } else {
      StepAlone(hash, s, Format(task, entries, done), now);
      hide Polls, Alone;
    }
  }

  lemma PollCanStep(s: Storage, pc: Pc, now: nat)
    requires Polls(s, pc)
    ensures CanStep(s, pc, At(now))
    ensures pc.Format? ==> |pc.done| <= |pc.entries|
  {
    hide Inv;
  }

  lemma StepAlone(hash: Hash, s: Storage, pc: Pc, now: nat)
    requires Polls(s, pc)
    ensures CanStep(s, pc, At(now))
    ensures var out := WorkerStep(hash, s, pc, At(now));
      if out.pc.Free? then Alone(hash, s, pc, now) == out
      else Polls(out.store, out.pc) && Alone(hash, s, pc, now) == Alone(hash, out.store, out.pc, now)
  {
    PollCanStep(s, pc, now);
    AloneStep(hash, s, pc, now);
  }

  function Head(s: Storage, id: nat, ts: nat): seq<Entry> {
    Entries(Selected(s.messages, InChatSince(id, ts), DEFAULT_MAX_COUNT), GetMessages(s, id, ts, DEFAULT_MAX_COUNT).1)
  }

  lemma PollStepAlone(hash: Hash, s: Storage, task: Task, chats: seq<Chat>, batch: seq<Entry>, now: nat)
    requires Polls(s, Poll(task, chats, batch)) && chats != []
    ensures var t := GetMessages(s, chats[0].id, task.request.ts, DEFAULT_MAX_COUNT).0;
      var next := Poll(task, chats[1..], batch + Head(s, chats[0].id, task.request.ts));
      Polls(t, next) && Alone(hash, s, Poll(task, chats, batch), now) == Alone(hash, t, next, now)
  {
    hide *;
    StepAlone(hash, s, Poll(task, chats, batch), now);
    PollStepIs(hash, s, task, chats, batch, now);
  }

  lemma PollStepIs(hash: Hash, s: Storage, task: Task, chats: seq<Chat>, batch: seq<Entry>, now: nat)
    requires chats != [] && CanStep(s, Poll(task, chats, batch), At(now))
    ensures var t := GetMessages(s, chats[0].id, task.request.ts, DEFAULT_MAX_COUNT).0;
      var out := WorkerStep(hash, s, Poll(task, chats, batch), At(now));
      out.store == t && out.pc == Poll(task, chats[1..], batch + Head(s, chats[0].id, task.request.ts)) && !out.pc.Free?
  {
    hide GetMessages, Selected, Entries;
  }

  lemma PollOneChat(s: Storage, chats: seq<Chat>, ts: nat)
    requires chats != []
    ensures var t, tail := GetMessages(s, chats[0].id, ts, DEFAULT_MAX_COUNT).0, Ids(chats[1..]);
      PollChats(s, Ids(chats), ts) == (PollChats(t, tail, ts).0, Head(s, chats[0].id, ts) + PollChats(t, tail, ts).1)
  {
    hide GetMessages, Selected, Entries;
    IdsTail(chats);
    hide Ids;
  }

  lemma {:induction false} PollAlone(hash: Hash, s: Storage, task: Task, chats: seq<Chat>, batch: seq<Entry>, now: nat)
    requires Polls(s, Poll(task, chats, batch))
    ensures var out := Alone(hash, s, Poll(task, chats, batch), now);
      var (t, found) := PollChats(s, Ids(chats), task.request.ts);
      out.store == t && out.pc.Free? && Answers(task, batch + found, out.send)
    decreases |chats|
  {
    hide *;
    if chats != [] {
      var id, ts := chats[0].id, task.request.ts;
      var t := GetMessages(s, id, ts, DEFAULT_MAX_COUNT).0;
      PollStepAlone(hash, s, task, chats, batch, now);
      PollOneChat(s, chats, ts);
      PollAlone(hash, t, task, chats[1..], batch + Head(s, id, ts), now);
      Associative(batch, Head(s, id, ts), PollChats(t, Ids(chats[1..]), ts).1);
    } else {
      PollDone(hash, s, task, batch, now);
    }
  }

  lemma Associative<T>(a: seq<T>, b: seq<T>, c: seq<T>)
    ensures a + b + c == a + (b + c)
  {
  }

  lemma PollDone(hash: Hash, s: Storage, task: Task, batch: seq<Entry>, now: nat)
    requires Polls(s, Poll(task, [], batch))
    ensures var out := Alone(hash, s, Poll(task, [], batch), now);
      && PollChats(s, Ids([]), task.request.ts) == (s, []) && batch + [] == batch
      && out.store == s && out.pc.Free? && Answers(task, batch, out.send)
  {
    StepAlone(hash, s, Poll(task, [], batch), now);
    hide Polls, Alone, CanStep, GetMessages, Selected, Entries;
    if batch != [] { FormatAlone(hash, s, task, batch, [], now); }
  }

  lemma {:induction false} ChatsAlone(hash: Hash, s: Storage, task: Task, ids: seq<nat>, chats: seq<Chat>, now: nat)
    requires Polls(s, Chats(task, ids, chats))
    ensures var out := Alone(hash, s, Chats(task, ids, chats), now);
      var (t, found) := PollChats(s, Ids(chats) + ids, task.request.ts);
      out.store == t && out.pc.Free? && Answers(task, found, out.send)
    decreases |ids|
  {
    StepAlone(hash, s, Chats(task, ids, chats), now);
    IdsOfFound(s, Chats(task, ids, chats));
    hide Polls, Alone, Ids, PollChats, LookupChatById, Answers, CanStep;
    if ids != [] {
      HeadTail(ids);
      Associative(Ids(chats), [ids[0]], ids[1..]);
      ChatsAlone(hash, s, task, ids[1..], chats + [LookupChatById(s, ids[0])], now);
    } else {
      PollAlone(hash, s, task, chats, [], now);
      NothingAdded(Ids(chats), PollChats(s, Ids(chats), task.request.ts).1);
    }
  }

  lemma HeadTail<T>(s: seq<T>)
    requires s != []
    ensures [s[0]] + s[1..] == s
  {
  }

  lemma NothingAdded<T, U>(a: seq<T>, b: seq<U>)
    ensures a + [] == a && [] + b == b
  {
  }

  lemma IdsOfFound(s: Storage, pc: Pc)
    requires Polls(s, pc) && pc.Chats?
    ensures pc.ids != [] ==> Ids(pc.chats + [LookupChatById(s, pc.ids[0])]) == Ids(pc.chats) + [pc.ids[0]]
  {
    if pc.ids != [] {
      LookupById(s, pc.ids[0]);
      hide LookupChatById;
    }
  }

  /** What is stored after the poll. */
  function AfterPoll(s: Storage, uid: nat, ts: nat, now: nat): Storage {
    PollChats(UpdateUserHeartBit(s, uid, now), ChatIdsOf(s, uid), ts).0
  }

  lemma {:induction false} PollIgnoresUsers(s: Storage, t: Storage, ids: seq<nat>, ts: nat)
    requires t == s.(users := t.users)
    ensures PollChats(t, ids, ts).1 == PollChats(s, ids, ts).1
    decreases |ids|
  {
    if ids != [] {
      var s', t' := GetMessages(s, ids[0], ts, DEFAULT_MAX_COUNT).0, GetMessages(t, ids[0], ts, DEFAULT_MAX_COUNT).0;
      PollIgnoresUsers(s', t', ids[1..], ts);
      hide Selected, Entries, MarkRead;
    }
  }

  /** A worker that is not interrupted sends exactly the messages of `PollBatch`. */
  lemma TaskAlone(hash: Hash, s: Storage, task: Task, now: nat)
    requires Polls(s, Taken(task)) && Authorised(hash, s, task)
    ensures var out := Alone(hash, s, Taken(task), now);
      && out.store == AfterPoll(s, task.request.uid, task.request.ts, now) && out.pc.Free?
      && Answers(task, PollBatch(s, task.request.uid, task.request.ts), out.send)
  {
    hide *;
    var uid := task.request.uid;
    var beaten := UpdateUserHeartBit(s, uid, now);
    HeartbeatAlone(hash, s, task, now);
    ChatsAlone(hash, beaten, task, ChatIdsOf(beaten, uid), [], now);
    NoIds(ChatIdsOf(beaten, uid));
    BeatChangesUsers(s, uid, now);
    PollIgnoresUsers(s, beaten, ChatIdsOf(s, uid), task.request.ts);
    PollSplits(s, uid, task.request.ts, now);
  }

  lemma PollSplits(s: Storage, uid: nat, ts: nat, now: nat)
    ensures AfterPoll(s, uid, ts, now) == PollChats(UpdateUserHeartBit(s, uid, now), ChatIdsOf(s, uid), ts).0
    ensures PollBatch(s, uid, ts) == PollChats(s, ChatIdsOf(s, uid), ts).1
  {
  }

  lemma NoIds(ids: seq<nat>)
    ensures Ids([]) + ids == ids
  {
  }

  lemma PasswordChecked(hash: Hash, s: Storage, task: Task)
    requires Polls(s, Taken(task)) && Authorised(hash, s, task)
    ensures CheckPass(hash, s, task) == Goes(s, Checked(task, s.users[task.request.uid - 1]))
  {
    assert IdsInOrder(s);
    hide Inv, IdsInOrder;
    LookupById(s, task.request.uid);
    hide LookupUserById;
  }

  lemma TakenAlone(hash: Hash, s: Storage, task: Task, now: nat)
    requires Polls(s, Taken(task)) && Authorised(hash, s, task)
    ensures var next := Checked(task, s.users[task.request.uid - 1]);
      Polls(s, next) && Alone(hash, s, Taken(task), now) == Alone(hash, s, next, now)
  {
    PasswordChecked(hash, s, task);
    StepAlone(hash, s, Taken(task), now);
    hide Polls, Alone, CanStep, CheckPass, Authorised;
  }

  lemma CheckedAlone(hash: Hash, s: Storage, task: Task, user: User, now: nat)
    requires Polls(s, Checked(task, user)) && task.cmd.IDLE?
    ensures var t := UpdateUserHeartBit(s, user.id, now);
      var next := Chats(task, ChatIdsOf(t, user.id), []);
      Polls(t, next) && Alone(hash, s, Checked(task, user), now) == Alone(hash, t, next, now)
  {
    hide Polls, Alone, CanStep, UpdateUserHeartBit, ChatIdsOf;
    StepAlone(hash, s, Checked(task, user), now);
    StepAlone(hash, UpdateUserHeartBit(s, user.id, now), Beaten(task, user), now);
  }

  lemma HeartbeatAlone(hash: Hash, s: Storage, task: Task, now: nat)
    requires Polls(s, Taken(task)) && Authorised(hash, s, task)
    ensures var beaten := UpdateUserHeartBit(s, task.request.uid, now);
      var next := Chats(task, ChatIdsOf(beaten, task.request.uid), []);
      Polls(beaten, next) && Alone(hash, s, Taken(task), now) == Alone(hash, beaten, next, now)
  {
    assert s.users[task.request.uid - 1].id == task.request.uid;
    hide Inv, UpdateUserHeartBit, ChatIdsOf, Alone;
    TakenAlone(hash, s, task, now);
    CheckedAlone(hash, s, task, s.users[task.request.uid - 1], now);
  }

  lemma BeatChangesUsers(s: Storage, uid: nat, now: nat)
    ensures var t := UpdateUserHeartBit(s, uid, now);
      t == s.(users := t.users) && ChatIdsOf(t, uid) == ChatIdsOf(s, uid)
  {
  }

  // ---------------------------------------------------------------- as a run

  /** Worker `w` polls with nothing in between. */
  ghost predicate WorkerPolls(s: State, w: nat) {
    w < |s.workers| && Polls(s.store, s.workers[w]) && s.workers[w].task.client < |s.conns|
  }

  lemma StepInState(hash: Hash, s: State, w: nat, now: nat)
    requires WorkerPolls(s, w)
    ensures Enabled(s, Work(w, At(now)))
    ensures var out := WorkerStep(hash, s.store, s.workers[w], At(now));
      && Worked(s, Apply(hash, s, Work(w, At(now))), w, out)
      && (!out.pc.Free? ==> out.send.None? && out.pc.task == s.workers[w].task)
  {
    NextStep(hash, s.store, s.workers[w], now);
    hide Polls, WorkerStep, CanStep, OnSend;
  }

  /** The state after a task of worker `w` ended with `out`. */
  function Ended(s: State, w: nat, out: Outcome): State
    requires w < |s.workers| && !s.workers[w].Free? && s.workers[w].task.client < |s.conns|
  {
    var c := s.workers[w].task.client;
    State(out.store, s.queue, s.workers[w := out.pc], s.conns[c := OnSend(s.conns[c], s.workers[w].task, out)])
  }

  lemma QuietStep(s: State, t: State, w: nat, out: Outcome, last: Outcome)
    requires Worked(s, t, w, out) && !out.pc.Free? && out.send.None? && out.pc.task == s.workers[w].task
    ensures Ended(t, w, last) == Ended(s, w, last)
  {
    assert OnSend(s.conns[s.workers[w].task.client], s.workers[w].task, out) == s.conns[s.workers[w].task.client];
    hide OnSend;
    assert t.workers[w := last.pc] == s.workers[w := last.pc];
    assert t.conns == s.conns;
  }

  lemma {:induction false} AloneIsARun(hash: Hash, s: State, w: nat, now: nat) returns (events: seq<Event>, t: State)
    requires WorkerPolls(s, w)
    ensures Run(hash, s, events, t) && t == Ended(s, w, Alone(hash, s.store, s.workers[w], now))
    decreases Stage(s.workers[w]), Left(s.workers[w])
  {
    var pc, e := s.workers[w], Work(w, At(now));
    StepInState(hash, s, w, now);
    StepAlone(hash, s.store, pc, now);
    NextStep(hash, s.store, pc, now);
    var next, out := Apply(hash, s, e), WorkerStep(hash, s.store, pc, At(now));
    hide Enabled, Apply, Polls, Alone, WorkerStep, CanStep, OnSend, Stage, Left;
    if out.pc.Free? {
      events, t := [e], next;
      assert Run(hash, next, [], t);
    } else {
      QuietStep(s, next, w, out, Alone(hash, s.store, pc, now));
      var more, end := AloneIsARun(hash, next, w, now);
      events, t := [e] + more, end;
      assert events[1..] == more;
    }
  }

  // ---------------------------------------------------------------- a round as a run

  /** Connection `c` may poll, and worker `w` is free to do it at once. */
  ghost predicate ReadyToPoll(hash: Hash, s: State, c: nat, w: nat) {
    && Safe(s) && s.queue == [] && w < |s.workers| && s.workers[w].Free? && c < |s.conns|
    && s.conns[c].idle.Some? && s.conns[c].idle.value.timer && s.conns[c].idle.value.inFlight == []
    && Authorised(hash, s.store, TickTask(s.conns[c].idle.value, c, s.conns[c].received, 0))
  }

  lemma TwoEvents(hash: Hash, s: State, e: Event, f: Event)
    requires Enabled(s, e) && Enabled(Apply(hash, s, e), f)
    ensures Run(hash, s, [e, f], Apply(hash, Apply(hash, s, e), f))
  {
    hide Enabled, Apply;
    assert [e, f][1..] == [f] && [f][1..] == [];
    assert Run(hash, Apply(hash, s, e), [f], Apply(hash, Apply(hash, s, e), f));
  }

  lemma PollBegins(hash: Hash, s: State, task: Task)
    requires Safe(s) && task.cmd.IDLE? && Authorised(hash, s.store, task.(request := task.request.(ts := 0)))
    ensures Polls(s.store, Taken(task)) && Authorised(hash, s.store, task)
  {
    hide Inv;
  }

  lemma TickAndTake(hash: Hash, s: State, c: nat, w: nat, now: nat)
    requires ReadyToPoll(hash, s, c, w)
    ensures var idle := s.conns[c].idle.value;
      var task := TickTask(idle, c, s.conns[c].received, now);
      var ticked := s.conns[c].(idle := Some(OnTick(idle, now)));
      var t := State(s.store, [], s.workers[w := Taken(task)], s.conns[c := ticked]);
      && Run(hash, s, [Tick(c, now), Take(w)], t) && WorkerPolls(t, w) && Authorised(hash, s.store, task)
  {
    hide Safe, Polls, Run, PingDue;
    var idle := s.conns[c].idle.value;
    var task := TickTask(idle, c, s.conns[c].received, now);
    PollBegins(hash, s, task);
    hide Authorised, OnTick;
    var ticked := Apply(hash, s, Tick(c, now));
    assert ticked.queue == [task] && ticked.queue[1..] == [];
    TwoEvents(hash, s, Tick(c, now), Take(w));
    assert Apply(hash, ticked, Take(w)) == State(s.store, [], s.workers[w := Taken(task)], ticked.conns);
  }

  /** What the end of the poll task leaves of the connection, and what the completed write makes of it. */
  lemma EndOfRound(conn: Conn, uid: nat, p: PollAt, task: Task, out: Outcome)
    requires conn.idle.Some? && conn.idle.value.inFlight == []
    requires task == TickTask(conn.idle.value, task.client, task.number, p.now)
    requires out.pc.Free? && Answers(task, PollBatch(p.store, uid, task.request.ts), out.send)
    ensures var ended := OnSend(conn.(idle := Some(OnTick(conn.idle.value, p.now))), task, out);
      var round := conn.(idle := Some(Round(conn.idle.value, uid, p)));
      if out.send.None? then ended == round
      else |ended.idle.value.inFlight| == 1 && ended.(idle := Some(OnIdleWrote(ended.idle.value, 0, true))) == round
  {
    hide PollBatch, MaxTimestamp, PingDue;
  }

  lemma WriteCompletes(hash: Hash, s: State, c: nat)
    requires c < |s.conns| && s.conns[c].idle.Some? && |s.conns[c].idle.value.inFlight| == 1
    ensures Run(hash, s, [IdleWrote(c, 0, true)],
                s.(conns := s.conns[c := s.conns[c].(idle := Some(OnIdleWrote(s.conns[c].idle.value, 0, true)))]))
  {
    hide OnIdleWrote;
    assert [IdleWrote(c, 0, true)][1..] == [];
  }

  /** From any safe state where a connection may poll, the step system can do the round of `Delivery`: the connection
  ends as `Round` says, every other one is untouched, and the storage is as after the poll. */
  lemma RoundIsARun(hash: Hash, s: State, c: nat, w: nat, now: nat) returns (events: seq<Event>, t: State)
    requires ReadyToPoll(hash, s, c, w)
    ensures Run(hash, s, events, t)
    ensures var idle := s.conns[c].idle.value;
      var uid, ts := idle.params.uid, OnTick(idle, now).params.ts;
      && t.conns == s.conns[c := s.conns[c].(idle := Some(Round(idle, uid, PollAt(s.store, now))))]
      && t.store == AfterPoll(s.store, uid, ts, now) && t.queue == [] && t.workers == s.workers
  {
    var idle := s.conns[c].idle.value;
    var uid, task := idle.params.uid, TickTask(idle, c, s.conns[c].received, now);
    assert task.request.uid == uid && task.request.ts == OnTick(idle, now).params.ts && task.client == c;
    hide Safe, Authorised, OnTick, TickTask, Run;
    TickAndTake(hash, s, c, w, now);
    var ticked := s.conns[c].(idle := Some(OnTick(idle, now)));
    var taken := State(s.store, [], s.workers[w := Taken(task)], s.conns[c := ticked]);
    var out := Alone(hash, s.store, Taken(task), now);
    TaskAlone(hash, s.store, task, now);
    var work, ended := AloneIsARun(hash, taken, w, now);
    EndOfRound(s.conns[c], uid, PollAt(s.store, now), task, out);
    hide *;
    RunJoin(hash, s, [Tick(c, now), Take(w)], taken, work, ended);
    events, t := CompleteRound(hash, s, [Tick(c, now), Take(w)] + work, ended, c, out.send.Some?);
    EndedParts(s, taken, w, c, out, s.conns[c].(idle := Some(Round(idle, uid, PollAt(s.store, now)))));
  }

  /** The write of the batch, if there is one. */
  lemma CompleteRound(hash: Hash, s: State, events: seq<Event>, ended: State, c: nat, sent: bool)
    returns (all: seq<Event>, t: State)
    requires Run(hash, s, events, ended) && c < |ended.conns| && ended.conns[c].idle.Some?
    requires sent ==> |ended.conns[c].idle.value.inFlight| == 1
    ensures Run(hash, s, all, t)
    ensures t == if !sent then ended
      else
        var written := OnIdleWrote(ended.conns[c].idle.value, 0, true);
        ended.(conns := ended.conns[c := ended.conns[c].(idle := Some(written))])
  {
    hide Run, OnIdleWrote;
    all, t := events, ended;
    if sent {
      WriteCompletes(hash, ended, c);
      var written := OnIdleWrote(ended.conns[c].idle.value, 0, true);
      t := ended.(conns := ended.conns[c := ended.conns[c].(idle := Some(written))]);
      RunJoin(hash, s, events, ended, [IdleWrote(c, 0, true)], t);
      all := events + [IdleWrote(c, 0, true)];
    }
  }

  lemma EndedParts(s: State, taken: State, w: nat, c: nat, out: Outcome, conn: Conn)
    requires w < |s.workers| == |taken.workers| && s.workers[w].Free? && taken.queue == [] && c < |s.conns|
    requires |taken.conns| == |s.conns|
    requires taken.workers == s.workers[w := taken.workers[w]] && !taken.workers[w].Free?
    requires taken.workers[w].task.client == c
    requires taken.conns == s.conns[c := taken.conns[c]] && out.pc.Free?
    ensures var t := Ended(taken, w, out);
      && t.store == out.store && t.queue == [] && t.workers == s.workers
      && t.conns[c := conn] == s.conns[c := conn]
      && t.conns == s.conns[c := OnSend(taken.conns[c], taken.workers[w].task, out)]
  {
    hide OnSend;
  }
}
