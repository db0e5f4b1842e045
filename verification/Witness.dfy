/** Runs from the start of the server, spelled out, that reach the situations other modules talk about. */
module Witness {
  import opened Wrappers
  import opened Store
  import opened StoreInvariant
  import opened Server
  import opened WorkerSafety
  import opened Discipline
  import opened Progress
  import opened Watermark
  import opened Polling
  import opened Delivery
  import opened AtomicPoll
  import opened Overlap

  /** One more event at the end of a run. */
  lemma Then(hash: Hash, start: State, events: seq<Event>, s: State, e: Event)
    requires Run(hash, start, events, s) && Enabled(s, e)
    ensures Run(hash, start, events + [e], Apply(hash, s, e))
  {
    hide Enabled, Apply;
    assert [e][1..] == [];
    assert Run(hash, Apply(hash, s, e), [], Apply(hash, s, e));
    RunJoin(hash, start, events, s, [e], Apply(hash, s, e));
  }

  // ---------------------------------------------------------------- a user with a message to itself

  const CREATE := Params(0, 0, 0, "", "", "u", "x", "", "", "", "")
  const SEND := Params(1, 0, 0, "hi", "u", "", "x", "", "", "", "")
  const LISTEN := Params(1, 0, 0, "", "", "", "x", "", "", "", "")

  function Someone(hash: Hash): User {
    User(1, 1, "u", hash("x"), "localhost:3306", "", "", 0)
  }

  function WithUser(hash: Hash, messages: seq<Message>): Storage {
    Storage(2, 2, [Chat(1, "u")], [Someone(hash)], [Chatuser(1, 1)], messages)
  }

  function Posted(ts: nat): Message {
    Message(1, 1, "hi", ts, UNREAD)
  }

  function Reading(n: nat): Conn {
    Conn(true, 0, n, seq(n, i => i), 0, None)
  }

  /** One worker, one connection, nothing under way. */
  function Resting(s: Storage, n: nat): State {
    State(s, [], [Free], [Reading(n)])
  }

  function Asked(cmd: Command, params: Params, n: nat): Task {
    Task(cmd, params, 0, n, false)
  }

  /** The worker is about its `n`-th request. */
  function AtWork(s: Storage, pc: Pc, n: nat): State {
    State(s, [], [pc], [Reading(n).(reading := false, received := n + 1)])
  }

  lemma Connected(hash: Hash)
    ensures Enabled(Started(1), Connect) && Apply(hash, Started(1), Connect) == Resting(EMPTY_STORAGE, 0)
  {
    assert Started(1).workers == [Free];
    assert Reading(0) == NEW_CONN;
    assert [] + [NEW_CONN] == [NEW_CONN];
  }

  /** A request is read and taken. */
  lemma Requested(hash: Hash, start: State, events: seq<Event>, s: Storage, n: nat, cmd: Command, params: Params)
    returns (more: seq<Event>)
    requires Run(hash, start, events, Resting(s, n)) && !cmd.IDLE?
    ensures Run(hash, start, more, AtWork(s, Taken(Asked(cmd, params, n)), n))
  {
    var e := Receive(0, Accepted(cmd, params));
    var queued := AtWork(s, Free, n).(queue := [Asked(cmd, params, n)]);
    assert [] + [Asked(cmd, params, n)] == [Asked(cmd, params, n)];
    assert Enabled(Resting(s, n), e) && Apply(hash, Resting(s, n), e) == queued;
    assert Enabled(queued, Take(0)) && Apply(hash, queued, Take(0)) == AtWork(s, Taken(Asked(cmd, params, n)), n);
    hide Enabled, Apply, AtWork, Resting, Run;
    Then(hash, start, events, Resting(s, n), e);
    Then(hash, start, events + [e], queued, Take(0));
    more := events + [e] + [Take(0)];
  }

  /** A step of the worker that sends nothing. */
  lemma Worked(hash: Hash, start: State, events: seq<Event>, s: Storage, pc: Pc, n: nat, choice: Choice, t: Storage,
               next: Pc)
    requires Run(hash, start, events, AtWork(s, pc, n)) && CanStep(s, pc, choice) && pc.task.client == 0
    requires WorkerStep(hash, s, pc, choice) == Goes(t, next) && !next.Free?
    ensures Run(hash, start, events + [Work(0, choice)], AtWork(t, next, n))
  {
    var e := Work(0, choice);
    hide WorkerStep, CanStep, Run;
    assert Enabled(AtWork(s, pc, n), e) && Apply(hash, AtWork(s, pc, n), e) == AtWork(t, next, n);
    hide Enabled, Apply, AtWork;
    Then(hash, start, events, AtWork(s, pc, n), e);
  }

  /** The last step of the worker, and the write of its response. */
  lemma Responded(hash: Hash, start: State, events: seq<Event>, s: Storage, pc: Pc, n: nat, choice: Choice, t: Storage,
                  send: Send)
    returns (more: seq<Event>)
    requires Run(hash, start, events, AtWork(s, pc, n)) && CanStep(s, pc, choice) && pc.task.client == 0
    requires pc.task.number == n
    requires WorkerStep(hash, s, pc, choice) == Sent(t, send) && !send.IdleMessages?
    ensures Run(hash, start, more, Resting(t, n + 1))
  {
    var e := Work(0, choice);
    LastStep(hash, s, pc, n, choice, t, send);
    Written(hash, t, n + 1);
    hide *;
    Then(hash, start, events, AtWork(s, pc, n), e);
    Then(hash, start, events + [e], Writing(t, n + 1), Wrote(0));
    more := events + [e] + [Wrote(0)];
  }

  /** The `n`-th response is being written. */
  function Writing(s: Storage, n: nat): State {
    State(s, [], [Free], [Reading(n).(reading := false, writes := 1)])
  }

  lemma LastStep(hash: Hash, s: Storage, pc: Pc, n: nat, choice: Choice, t: Storage, send: Send)
    requires CanStep(s, pc, choice) && pc.task.client == 0 && pc.task.number == n
    requires WorkerStep(hash, s, pc, choice) == Sent(t, send) && !send.IdleMessages?
    ensures var a, e := AtWork(s, pc, n), Work(0, choice); Enabled(a, e) && Apply(hash, a, e) == Writing(t, n + 1)
  {
    hide WorkerStep, CanStep;
    assert seq(n, i => i) + [n] == seq(n + 1, i => i);
  }

  lemma Written(hash: Hash, s: Storage, n: nat)
    ensures Enabled(Writing(s, n), Wrote(0)) && Apply(hash, Writing(s, n), Wrote(0)) == Resting(s, n)
  {
  }

  lemma CreateStep(hash: Hash)
    ensures TakenStep(hash, EMPTY_STORAGE, Asked(USER_CREATE, CREATE, 0))
      == Sent(WithUser(hash, []), OkUser(Someone(hash)))
  {
  }

  lemma CheckStep(hash: Hash, task: Task, messages: seq<Message>)
    requires task.request.uid == 1 && task.request.password == "x"
    ensures CheckPass(hash, WithUser(hash, messages), task)
      == Goes(WithUser(hash, messages), Checked(task, Someone(hash)))
  {
    var s := WithUser(hash, messages);
    assert LookupUserById(s, 1) == Someone(hash);
  }

  lemma RecipientStep(hash: Hash, task: Task)
    requires task.request.toUser == "u"
    ensures var s := WithUser(hash, []);
      FindRecipient(s, task, Someone(hash)) == Goes(s, Peered(task, Someone(hash), Someone(hash)))
  {
    var s := WithUser(hash, []);
    FilterSnoc([], Someone(hash), UserNamed("u"));
    assert [] + [Someone(hash)] == [Someone(hash)];
  }

  lemma SaveStep(hash: Hash, ts: nat)
    ensures var s, task := WithUser(hash, []), Asked(MESSAGE_SEND, SEND, 1);
      PeeredStep(s, task, Someone(hash), Someone(hash), ts) == Sent(WithUser(hash, [Posted(ts)]), OkStatus)
  {
    assert [] + [Posted(ts)] == [Posted(ts)];
  }

  /** From the start to a user with one message in its own chat. */
  lemma MessageIsStored(hash: Hash, ts: nat) returns (events: seq<Event>)
    ensures Run(hash, Started(1), events, Resting(WithUser(hash, [Posted(ts)]), 2))
  {
    Connected(hash);
    assert Run(hash, Started(1), [], Started(1));
    Then(hash, Started(1), [], Started(1), Connect);
    var create, send, me := Asked(USER_CREATE, CREATE, 0), Asked(MESSAGE_SEND, SEND, 1), Someone(hash);
    var s := WithUser(hash, []);
    CreateStep(hash);
    CheckStep(hash, send, []);
    RecipientStep(hash, send);
    SaveStep(hash, ts);
    hide Run, Started, Resting, AtWork, Enabled, Apply, TakenStep, CheckPass, FindRecipient, PeeredStep, WithUser;
    hide Someone;
    var a := Requested(hash, Started(1), [] + [Connect], EMPTY_STORAGE, 0, USER_CREATE, CREATE);
    var b := Responded(hash, Started(1), a, EMPTY_STORAGE, Taken(create), 0, At(0), s, OkUser(me));
    var c := Requested(hash, Started(1), b, s, 1, MESSAGE_SEND, SEND);
    assert TakenStep(hash, s, send) == CheckPass(hash, s, send) by { SendIsChecked(hash, s); }
    Worked(hash, Started(1), c, s, Taken(send), 1, At(0), s, Checked(send, me));
    var d := c + [Work(0, At(0))];
    Worked(hash, Started(1), d, s, Checked(send, me), 1, At(0), s, Peered(send, me, me));
    events := d + [Work(0, At(0))];
    var done := WithUser(hash, [Posted(ts)]);
    events := Responded(hash, Started(1), events, s, Peered(send, me, me), 1, At(ts), done, OkStatus);
  }

  lemma SendIsChecked(hash: Hash, s: Storage)
    ensures var send := Asked(MESSAGE_SEND, SEND, 1); TakenStep(hash, s, send) == CheckPass(hash, s, send)
  {
    hide CheckPass;
  }

  // ---------------------------------------------------------------- an idle connection

  function Listening(hash: Hash, ts: nat): State {
    var idle := Idle(LISTEN, 0, 0, true, 0, [], []);
    State(WithUser(hash, [Posted(ts)]), [], [Free], [Conn(false, 0, 3, [0, 1, 2], 0, Some(idle))])
  }

  lemma ListenStep(hash: Hash, ts: nat)
    ensures var s, e := Resting(WithUser(hash, [Posted(ts)]), 2), Receive(0, StartIdle(LISTEN));
      Enabled(s, e) && Apply(hash, s, e) == Listening(hash, ts)
  {
    hide WithUser;
    assert Reading(2).answered + [2] == [0, 1, 2];
  }

  /** The message is newer than the heartbit and the only one of its chat. */
  lemma PostIsPicked(hash: Hash, messages: seq<Message>, since: nat)
    requires messages != [] && (forall i :: 0 <= i < |messages| ==> messages[i].chatTo == 1)
    ensures |messages| <= 3 && messages[0].ts > since ==> Picked(WithUser(hash, messages), 1, since, 0)
  {
    var s := WithUser(hash, messages);
    assert s.chatuser[0] == Chatuser(1, 1);
    NoMoreThanLater(messages, InChatSince(1, since), 0, |messages|);
    hide NewerMatches;
  }

  lemma {:induction false} NoMoreThanLater(ms: seq<Message>, p: Message -> bool, i: nat, n: nat)
    requires i < n <= |ms|
    ensures NewerMatches(ms, p, i, n) <= n - i - 1
  {
    if n > i + 1 { NoMoreThanLater(ms, p, i, n - 1); }
  }

  /** A run from the start to an idle connection that may poll, with a message for it in the storage. */
  lemma SomeoneListens(hash: Hash, ts: nat) returns (events: seq<Event>)
    requires ts > 0
    ensures Run(hash, Started(1), events, Listening(hash, ts)) && ReadyToPoll(hash, Listening(hash, ts), 0, 0)
    ensures Picked(WithUser(hash, [Posted(ts)]), 1, 0, 0)
  {
    var before := MessageIsStored(hash, ts);
    var s, e := Resting(WithUser(hash, [Posted(ts)]), 2), Receive(0, StartIdle(LISTEN));
    ListenStep(hash, ts);
    Then(hash, Started(1), before, s, e);
    events := before + [e];
    StartedIsSafe(1);
    EveryRunIsSafe(hash, Started(1), events, Listening(hash, ts));
    PostIsPicked(hash, [Posted(ts)], 0);
    hide Safe, Run, Picked, Started, PingDue;
  }

  /** So a run on which a connection has the same message in flight twice. */
  lemma SentTwice(hash: Hash, ts: nat) returns (events: seq<Event>, t: State)
    requires ts > 0
    ensures Run(hash, Started(1), events, t) && |t.conns| > 0 && t.conns[0].idle.Some?
    ensures var sent := t.conns[0].idle.value.inFlight;
      |sent| == 2 && CountOf(sent[0].entries, 0) == 1 && CountOf(sent[1].entries, 0) == 1
  {
    var before := SomeoneListens(hash, ts);
    var s := Listening(hash, ts);
    assert OnTick(s.conns[0].idle.value, 0).params.ts == 0;
    hide Run, ReadyToPoll, Picked, Started, OnTick, CountOf, WithUser;
    var more, end := TwoTicksRepeat(hash, s, 0, 0, 0, 0, 0);
    RunJoin(hash, Started(1), before, s, more, end);
    events, t := before + more, end;
  }

  // ---------------------------------------------------------------- a ping

  /** From every state in which a poll finds nothing and a ping is due: the ping's write sets the newest timestamp back
  to 0, below the watermark, which by then is at least what the newest timestamp was. */
  lemma PingDropsNewest(hash: Hash, s: State, c: nat, w: nat, now: nat) returns (events: seq<Event>, t: State)
    requires ReadyToPoll(hash, s, c, w)
    requires var idle := s.conns[c].idle.value;
      idle.newest > 0 && PingDue(now, idle.lastPing) && PollBatch(s.store, idle.params.uid, Covered(idle)) == []
    ensures Run(hash, s, events, t) && c < |t.conns| && t.conns[c].idle.Some?
    ensures var idle, after := s.conns[c].idle.value, t.conns[c].idle.value;
      after.newest == 0 < idle.newest <= after.params.ts
  {
    hide PollBatch, PingDue, Run;
    var idle := s.conns[c].idle.value;
    events, t := RoundIsARun(hash, s, c, w, now);
    hide ReadyToPoll, AfterPoll;
  }

  /** The first round of the listening connection delivers the message and leaves `newest` above the watermark. */
  lemma FirstRound(hash: Hash, ts: nat) returns (events: seq<Event>, t: State)
    requires ts > 0
    ensures Run(hash, Started(1), events, t) && ReadyToPoll(hash, t, 0, 0)
    ensures var idle := t.conns[0].idle.value;
      && idle.newest == ts && idle.params == LISTEN && idle.lastPing == 0
      && PollBatch(t.store, 1, ts) == []
  {
    var before := SomeoneListens(hash, ts);
    var s := Listening(hash, ts);
    var idle := s.conns[0].idle.value;
    NoPingYet(idle);
    NewestIs(hash, ts);
    NothingLeft(hash, ts);
    var more, end := RoundIsARun(hash, s, 0, 0, 0);
    hide Run, ReadyToPoll, Started, Picked, PollBatch, PingDue, AfterPoll, WithUser, MaxTimestamp;
    RoundKeepsReady(hash, s, 0, 0, 0, more, end);
    RunJoin(hash, Started(1), before, s, more, end);
    events, t := before + more, end;
  }

  /** So a run on which a ping drops the newest timestamp from `ts` to 0 while the watermark is `ts`. */
  lemma NewestDropsOnARun(hash: Hash, ts: nat) returns (events: seq<Event>, s: State, more: seq<Event>, t: State)
    requires ts > 0
    ensures Run(hash, Started(1), events, s) && Run(hash, s, more, t)
    ensures |s.conns| > 0 && |t.conns| > 0 && s.conns[0].idle.Some? && t.conns[0].idle.Some?
    ensures s.conns[0].idle.value.newest == ts && t.conns[0].idle.value.newest == 0
    ensures t.conns[0].idle.value.params.ts >= ts
  {
    events, s := FirstRound(hash, ts);
    NoPingYet(s.conns[0].idle.value);
    assert Covered(s.conns[0].idle.value) == ts;
    hide Run, Started, PollBatch, PingDue, Safe, Authorised;
    more, t := PingDropsNewest(hash, s, 0, 0, 6);
  }

  /** After a round the connection may poll again. */
  lemma RoundKeepsReady(hash: Hash, s: State, c: nat, w: nat, now: nat, events: seq<Event>, t: State)
    requires ReadyToPoll(hash, s, c, w) && Run(hash, s, events, t)
    requires var idle := s.conns[c].idle.value;
      var uid, ts := idle.params.uid, OnTick(idle, now).params.ts;
      && t.conns == s.conns[c := s.conns[c].(idle := Some(Round(idle, uid, PollAt(s.store, now))))]
      && t.store == AfterPoll(s.store, uid, ts, now) && t.queue == [] && t.workers == s.workers
    ensures ReadyToPoll(hash, t, c, w)
  {
    var idle := s.conns[c].idle.value;
    var uid, ts := idle.params.uid, OnTick(idle, now).params.ts;
    var after := Round(idle, uid, PollAt(s.store, now));
    hide Safe, Run, AfterPoll, PollBatch, MaxTimestamp, PingDue;
    EveryRunIsSafe(hash, s, events, t);
    assert after.timer && after.params == idle.params.(ts := after.params.ts);
    SameCredentials(hash, s.store, TickTask(idle, c, s.conns[c].received, 0),
                    TickTask(after, c, t.conns[c].received, 0), ts, now);
  }

  lemma SameCredentials(hash: Hash, s: Storage, task: Task, again: Task, ts: nat, now: nat)
    requires Authorised(hash, s, task)
    requires again.request.uid == task.request.uid && again.request.password == task.request.password
    ensures Authorised(hash, AfterPoll(s, task.request.uid, ts, now), again)
  {
    hide *;
    SecondIsAuthorised(hash, s, task, task.request.uid, ts, now);
    OnlyCredentialsCount(hash, AfterPoll(s, task.request.uid, ts, now), task, again);
  }

  lemma OnlyCredentialsCount(hash: Hash, s: Storage, task: Task, again: Task)
    requires Authorised(hash, s, task)
    requires again.request.uid == task.request.uid && again.request.password == task.request.password
    ensures Authorised(hash, s, again)
  {
  }

  lemma NoPingYet(idle: Idle)
    ensures idle.lastPing == 0 ==> !PingDue(0, idle.lastPing) && PingDue(6, idle.lastPing)
  {
  }

  lemma NewestIs(hash: Hash, ts: nat)
    requires ts > 0 && Picked(WithUser(hash, [Posted(ts)]), 1, 0, 0)
    ensures MaxTimestamp(PollBatch(WithUser(hash, [Posted(ts)]), 1, 0)) == ts
    ensures PollBatch(WithUser(hash, [Posted(ts)]), 1, 0) != []
  {
    var s := WithUser(hash, [Posted(ts)]);
    assert Inv(s) by { OneUserIsGood(hash, [Posted(ts)]); }
    SentIsCovered(s, 1, 0, 0);
    NewestWasStored(s, 1, 0);
    hide Inv, Picked, PollBatch;
    assert forall j :: 0 <= j < |s.messages| ==> s.messages[j].ts == ts;
  }

  lemma OneUserIsGood(hash: Hash, messages: seq<Message>)
    requires forall i :: 0 <= i < |messages| ==> messages[i].userFrom == 1 && messages[i].chatTo == 1
    ensures Inv(WithUser(hash, messages))
  {
    var s := WithUser(hash, messages);
    assert s.chatuser[0] == Chatuser(1, 1);
    assert HasSelfChat(s, s.users[0]);
  }

  /** Nothing is newer than the message. */
  lemma NothingLeft(hash: Hash, ts: nat)
    ensures PollBatch(AfterPoll(WithUser(hash, [Posted(ts)]), 1, 0, 0), 1, ts) == []
  {
    var s := WithUser(hash, [Posted(ts)]);
    var t := AfterPoll(s, 1, 0, 0);
    PollKeepsMessages(UpdateUserHeartBit(s, 1, 0), ChatIdsOf(s, 1), 0);
    assert t.messages[0].ts == ts by { assert SameMessage(s.messages[0], t.messages[0]); }
    hide AfterPoll, PollChats;
    PollCopies(t, ChatIdsOf(t, 1), ts);
    var batch := PollBatch(t, 1, ts);
    SomethingNewer(t, batch, ts);
    hide PollBatch;
  }

  lemma SomethingNewer(s: Storage, batch: seq<Entry>, ts: nat)
    requires AllCopied(s, batch) && AllNewer(batch, ts)
    ensures batch != [] ==> exists j :: 0 <= j < |s.messages| && s.messages[j].ts > ts
  {
    if batch != [] {
      assert Copied(s, batch[0]);
      assert s.messages[batch[0].index].ts > ts;
    }
  }

  // ---------------------------------------------------------------- a request without a branch

  /** A run from the start on which a connection had a request dropped; no continuation changes the connection. */
  lemma SomeoneIsDropped(hash: Hash) returns (events: seq<Event>, t: State)
    ensures Run(hash, Started(1), events, t) && |t.conns| > 0 && t.conns[0].dropped > 0
    ensures forall later, u :: Run(hash, t, later, u) ==> |u.conns| > 0 && u.conns[0] == t.conns[0]
  {
    var s, e := Resting(EMPTY_STORAGE, 0), Receive(0, Accepted(CHAT_HISTORY, CREATE));
    Connected(hash);
    assert Run(hash, Started(1), [], Started(1));
    Then(hash, Started(1), [], Started(1), Connect);
    var connected := [] + [Connect];
    assert Enabled(s, e) && |s.workers| > 0;
    StartedIsOrdered(1);
    hide Run, Started, Enabled, Apply, Safe, Ordered, Resting;
    EveryRunIsOrdered(hash, Started(1), connected, s);
    Then(hash, Started(1), connected, s, e);
    var more, end := UnhandledIsDropped(hash, s, 0, CHAT_HISTORY, CREATE);
    RunJoin(hash, Started(1), connected + [e], Apply(hash, s, e), more, end);
    events, t := connected + [e] + more, end;
  }

  // ---------------------------------------------------------------- a message that is never delivered

  /** Two polls, and a second message saved between them in the second of the first one. It is newer than the heartbit,
  in a chat of the user, and no later message of the chat is; yet no number of further polls delivers it. */
  lemma SomeMessageIsLost(hash: Hash, ts: nat, further: seq<PollAt>)
    requires ts > 0
    requires forall k :: 0 <= k < |further| ==> further[k].store == WithUser(hash, [Posted(ts), Posted(ts)])
    ensures var idle := Idle(LISTEN, 0, 0, true, 0, [], []);
      var one, two := WithUser(hash, [Posted(ts)]), WithUser(hash, [Posted(ts), Posted(ts)]);
      var polls := [PollAt(one, 0), PollAt(two, 0)] + further;
      && Fresh(idle) && Chain(polls) && FirstSeen(polls, 1, 1) && Picked(two, 1, idle.start, 1)
      && Occurrences(Play(idle, 1, polls).delivered, 1) == 0
  {
    var idle := Idle(LISTEN, 0, 0, true, 0, [], []);
    var one, two := WithUser(hash, [Posted(ts)]), WithUser(hash, [Posted(ts), Posted(ts)]);
    var polls := [PollAt(one, 0), PollAt(two, 0)] + further;
    OneUserIsGood(hash, [Posted(ts)]);
    OneUserIsGood(hash, [Posted(ts), Posted(ts)]);
    PostIsPicked(hash, [Posted(ts)], 0);
    SecondIsPicked(hash, ts);
    assert Grows(one, two) && Grows(two, two);
    assert polls[0].store == one && polls[1].store == two && forall k :: 1 <= k < |polls| ==> polls[k].store == two;
    assert polls[..0] == [];
    hide Inv, Grows, Picked;
    assert Chain(polls) && FirstSeen(polls, 1, 1);
    hide Chain;
    SameSecondIsLost(idle, 1, polls, 1, 1, 0);
  }

  lemma SecondIsPicked(hash: Hash, ts: nat)
    requires ts > 0
    ensures Picked(WithUser(hash, [Posted(ts), Posted(ts)]), 1, 0, 1)
  {
    var s := WithUser(hash, [Posted(ts), Posted(ts)]);
    assert s.chatuser[0] == Chatuser(1, 1);
  }
}
