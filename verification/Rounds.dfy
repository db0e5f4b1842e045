/** Delivery on runs of the step system: whenever the polls of a connection take turns and are not interrupted by
other store calls, the connection goes through the rounds of `Delivery`, whatever else happens in between. */
module Rounds {
  import opened Wrappers
  import opened Store
  import opened StoreInvariant
  import opened Server
  import opened WorkerSafety
  import opened Discipline
  import opened Sequential
  import opened Polling
  import opened Delivery
  import opened AtomicPoll

  // ---------------------------------------------------------------- an uninterrupted poll

  predicate OnlyWorker(events: seq<Event>, w: nat) {
    forall i :: 0 <= i < |events| ==> events[i].Work? && events[i].worker == w
  }

  /** What a step of a poll takes from outside matters only for the heartbit. */
  lemma ChoiceFree(hash: Hash, s: Storage, pc: Pc, choice: Choice, now: nat)
    requires Polls(s, pc) && CanStep(s, pc, choice) && (pc.Checked? ==> choice.now == now)
    ensures CanStep(s, pc, At(now)) && WorkerStep(hash, s, pc, choice) == WorkerStep(hash, s, pc, At(now))
  {
    hide Inv, Knows, TakenStep, FormatStep, FormatFromStep, PollStep, LookupChatById, ChatIdsOf, CheckedStep;
  }

  lemma FreeWorkerStops(hash: Hash, s: State, w: nat, events: seq<Event>, t: State)
    requires w < |s.workers| && s.workers[w].Free? && OnlyWorker(events, w) && Run(hash, s, events, t)
    ensures t == s
  {
    hide Apply;
  }

  /** One step nearer the end of its task. */
  predicate Closer(next: Pc, pc: Pc) {
    Stage(next) < Stage(pc) || (Stage(next) == Stage(pc) && 0 <= Left(next) < Left(pc))
  }

  /** The first step of the run is the machine's own next step. */
  lemma FirstStep(hash: Hash, s: State, w: nat, events: seq<Event>, t: State, now: nat)
    requires WorkerPolls(s, w) && OnlyWorker(events, w) && Run(hash, s, events, t) && |t.workers| == |s.workers|
    requires t.workers[w].Free?
    requires s.workers[w].Checked? && |events| > 0 ==> events[0].choice.now == now
    ensures |events| > 0
    ensures var pc, next := s.workers[w], Apply(hash, s, events[0]);
      && Run(hash, next, events[1..], t) && OnlyWorker(events[1..], w)
      && next.workers == s.workers[w := next.workers[w]]
      && (next.workers[w].Free? ==> next == Ended(s, w, Alone(hash, s.store, pc, now)))
      && (!next.workers[w].Free? ==>
            && WorkerPolls(next, w) && next.workers[w].task == pc.task
            && Alone(hash, s.store, pc, now) == Alone(hash, next.store, next.workers[w], now)
            && (forall last :: Ended(next, w, last) == Ended(s, w, last))
            && Closer(next.workers[w], pc))
  {
    assert |events| > 0 by { hide WorkerPolls; NotBusyAtEnd(s, w, t); }
    var pc, e := s.workers[w], events[0];
    ChoiceFree(hash, s.store, pc, e.choice, now);
    var out := WorkerStep(hash, s.store, pc, At(now));
    assert Worked(s, Apply(hash, s, e), w, out) by { WorkShape(hash, s, w, e.choice); }
    StepAlone(hash, s.store, pc, now);
    NextStep(hash, s.store, pc, now);
    hide Polls, WorkerStep, CanStep, OnSend, Alone, Stage, Left, Enabled, Apply;
    if !out.pc.Free? {
      forall last ensures Ended(Apply(hash, s, e), w, last) == Ended(s, w, last) {
        QuietStep(s, Apply(hash, s, e), w, out, last);
      }
    }
  }

  lemma NotBusyAtEnd(s: State, w: nat, t: State)
    requires w < |s.workers| == |t.workers|
    ensures !s.workers[w].Free? && t.workers[w].Free? ==> s != t
  {
  }

  /** After the heartbit the choices do not matter at all. */
  lemma {:induction false} AfterHeartbit(hash: Hash, s: State, w: nat, events: seq<Event>, t: State, now: nat)
    requires WorkerPolls(s, w) && OnlyWorker(events, w) && Run(hash, s, events, t) && |t.workers| == |s.workers|
    requires t.workers[w].Free?
    requires Stage(s.workers[w]) < 7
    ensures t == Ended(s, w, Alone(hash, s.store, s.workers[w], now))
    decreases |events|
  {
    FirstStep(hash, s, w, events, t, now);
    var next := Apply(hash, s, events[0]);
    hide Apply, Enabled, WorkerPolls, Alone, Ended, OnlyWorker;
    if next.workers[w].Free? {
      FreeWorkerStops(hash, next, w, events[1..], t);
    } else {
      AfterHeartbit(hash, next, w, events[1..], t, now);
    }
  }

  lemma StagesOf(pc: Pc)
    ensures Stage(pc) < 7 <==> !pc.Taken? && !pc.Checked?
    ensures Stage(pc) <= 8 && (pc.Checked? ==> Stage(pc) == 7 && Left(pc) == 0)
  {
  }

  /** Any run of one worker alone, from the beginning of a poll to its end, is `Alone` for the clock at its heartbit. */
  lemma {:induction false} Uninterrupted(hash: Hash, s: State, w: nat, events: seq<Event>, t: State) returns (now: nat)
    requires WorkerPolls(s, w) && OnlyWorker(events, w) && Run(hash, s, events, t) && |t.workers| == |s.workers|
    requires t.workers[w].Free?
    ensures t == Ended(s, w, Alone(hash, s.store, s.workers[w], now))
    decreases |events|
  {
    var pc := s.workers[w];
    StagesOf(pc);
    hide Apply, Alone, Ended, Stage, Left;
    if !pc.Taken? && !pc.Checked? {
      now := 0;
      AfterHeartbit(hash, s, w, events, t, now);
    } else {
      now := if |events| > 0 && pc.Checked? then events[0].choice.now else 0;
      FirstStep(hash, s, w, events, t, now);
      var next := Apply(hash, s, events[0]);
      hide Enabled, WorkerPolls, OnlyWorker, Run;
      if next.workers[w].Free? {
        FreeWorkerStops(hash, next, w, events[1..], t);
      } else if pc.Taken? {
        now := Uninterrupted(hash, next, w, events[1..], t);
        FirstStep(hash, s, w, events, t, now);
      } else {
        StagesOf(next.workers[w]);
        AfterHeartbit(hash, next, w, events[1..], t, now);
      }
    }
  }

  // ---------------------------------------------------------------- runs with uninterrupted polls

  /** An event that is no part of a poll of the connection, or a whole poll of it by one worker. */
  datatype Act = Plain(e: Event) | WholePoll(worker: nat, steps: seq<Event>)

  predicate Touches(s: State, c: nat, e: Event) {
    match e
    case Take(_) => s.queue != [] && s.queue[0].client == c
    case Work(w, _) => w < |s.workers| && WorksFor(s.workers[w], c)
    case _ => false
  }

  predicate Concerns(c: nat, e: Event) {
    (e.Tick? || e.IdleWrote?) && e.client == c
  }

  /** One act, from `s` to `t`. The connection polls in turn, its writes succeed; everything else is arbitrary. */
  ghost predicate ActTo(hash: Hash, s: State, c: nat, a: Act, t: State) {
    match a
    case Plain(e) =>
      && Enabled(s, e) && !Touches(s, c, e) && t == Apply(hash, s, e)
      && (Concerns(c, e) && e.Tick? ==> Outstanding(s, c) == 0) && (Concerns(c, e) && e.IdleWrote? ==> e.ok)
    case WholePoll(w, steps) =>
      && Enabled(s, Take(w)) && s.queue[0].client == c && OnlyWorker(steps, w)
      && Run(hash, Apply(hash, s, Take(w)), steps, t) && |t.workers| == |s.workers| && t.workers[w].Free?
  }

  ghost predicate Trace(hash: Hash, c: nat, acts: seq<Act>, states: seq<State>) {
    |states| == |acts| + 1 && forall i :: 0 <= i < |acts| ==> ActTo(hash, states[i], c, acts[i], states[i + 1])
  }

  /** A trace is a run of the step system. */
  lemma {:induction false} TraceIsARun(hash: Hash, c: nat, acts: seq<Act>, states: seq<State>)
    returns (events: seq<Event>)
    requires Trace(hash, c, acts, states)
    ensures Run(hash, states[0], events, states[|acts|])
  {
    hide Apply, Enabled;
    events := [];
    for n := 0 to |acts|
      invariant Run(hash, states[0], events, states[n])
    {
      assert ActTo(hash, states[n], c, acts[n], states[n + 1]);
      var more := match acts[n] case Plain(e) => [e] case WholePoll(w, steps) => [Take(w)] + steps;
      assert more[1..] == match acts[n] case Plain(e) => [] case WholePoll(w, steps) => steps;
      assert Run(hash, states[n + 1], [], states[n + 1]);
      assert Run(hash, states[n], more, states[n + 1]);
      RunJoin(hash, states[0], events, states[n], more, states[n + 1]);
      events := events + more;
    }
  }

  // ---------------------------------------------------------------- where a round stands

  datatype Phase = Resting | Queued(now: nat) | Writing(at: PollAt)

  ghost predicate InPhase(s: State, c: nat, start: Idle, polls: seq<PollAt>, phase: Phase)
    requires start.inFlight == []
  {
    && c < |s.conns| && s.conns[c].idle.Some? && AtWorkers(s.workers, c) == 0
    && var idle, p := s.conns[c].idle.value, Play(start, start.params.uid, polls);
      match phase
      case Resting => Waiting(s.queue, c) == 0 && idle == p
      case Queued(now) =>
        && Waiting(s.queue, c) == 1 && idle == OnTick(p, now)
        && forall i :: 0 <= i < |s.queue| && s.queue[i].client == c ==>
          s.queue[i] == TickTask(p, c, s.queue[i].number, now)
      case Writing(at) =>
        Waiting(s.queue, c) == 0 && |idle.inFlight| == 1 && OnIdleWrote(idle, 0, true) == Round(p, start.params.uid, at)
  }

  function AllPolls(polls: seq<PollAt>, phase: Phase): seq<PollAt> {
    if phase.Writing? then polls + [phase.at] else polls
  }

  ghost predicate ChainTo(polls: seq<PollAt>, s: Storage) {
    Chain(polls) && forall k :: 0 <= k < |polls| ==> Grows(polls[k].store, s)
  }

  /** The idle connection's request carries the id and the password of a user. */
  ghost predicate Known(hash: Hash, s: Storage, start: Idle) {
    HasUser(s, start.params.uid) && s.users[start.params.uid - 1].password == hash(start.params.password)
  }

  ghost predicate PlayedSoFar(hash: Hash, s: State, c: nat, start: Idle, polls: seq<PollAt>, phase: Phase) {
    && start.inFlight == [] && start.timer
    && Safe(s) && InPhase(s, c, start, polls, phase) && ChainTo(AllPolls(polls, phase), s.store)
    && Known(hash, s.store, start)
  }

  lemma KnownStays(hash: Hash, s: Storage, t: Storage, start: Idle)
    requires Known(hash, s, start) && Grows(s, t)
    ensures Known(hash, t, start)
  {
    assert SameUser(s.users[start.params.uid - 1], t.users[start.params.uid - 1]);
  }

  lemma ChainGrows(polls: seq<PollAt>, s: Storage, t: Storage)
    requires ChainTo(polls, s) && Grows(s, t)
    ensures ChainTo(polls, t)
  {
    hide Chain, Grows;
    forall k | 0 <= k < |polls| ensures Grows(polls[k].store, t) { GrowsTransitive(polls[k].store, s, t); }
  }

  lemma ChainSnoc(polls: seq<PollAt>, p: PollAt)
    requires ChainTo(polls, p.store) && Inv(p.store)
    ensures ChainTo(polls + [p], p.store)
  {
    hide Inv, Grows;
    GrowsReflexive(p.store);
  }

  /** Rounds change nothing of the request but its timestamp, and keep the timer. */
  lemma {:induction false} PlayKeepsRequest(idle: Idle, uid: nat, polls: seq<PollAt>)
    requires idle.inFlight == []
    ensures var p := Play(idle, uid, polls); p.params == idle.params.(ts := p.params.ts) && p.timer == idle.timer
  {
    hide PollBatch, MaxTimestamp, PingDue;
    if polls != [] { PlayKeepsRequest(idle, uid, polls[..|polls| - 1]); }
  }

  // ---------------------------------------------------------------- events that do not concern the poll

  /** The connection's idle state and its poll, if one waits, are the same in `t`. */
  predicate SamePoll(s: State, t: State, c: nat) {
    && c < |s.conns| && c < |t.conns| && t.conns[c].idle == s.conns[c].idle
    && Waiting(t.queue, c) == Waiting(s.queue, c) && AtWorkers(t.workers, c) == AtWorkers(s.workers, c)
    && forall i :: 0 <= i < |t.queue| && t.queue[i].client == c ==> t.queue[i] in s.queue
  }

  lemma OtherWorks(s: State, t: State, c: nat, w: nat, out: Outcome)
    requires Worked(s, t, w, out) && !WorksFor(s.workers[w], c) && c < |s.conns|
    requires !out.pc.Free? ==> out.pc.task == s.workers[w].task
    ensures SamePoll(s, t, c)
  {
    hide Waiting, AtWorkers, OnSend;
    AtWorkersUpdate(s.workers, w, out.pc, c);
  }

  lemma OtherTask(s: State, c: nat, task: Task)
    requires task.client != c && c < |s.conns|
    ensures Waiting(s.queue + [task], c) == Waiting(s.queue, c)
    ensures forall i :: 0 <= i <= |s.queue| && (s.queue + [task])[i].client == c ==> (s.queue + [task])[i] in s.queue
  {
    WaitingPush(s.queue, task, c);
  }

  lemma OtherWorkStep(hash: Hash, s: State, c: nat, w: nat, choice: Choice)
    requires Safe(s) && Enabled(s, Work(w, choice)) && !Touches(s, c, Work(w, choice)) && c < |s.conns|
    ensures SamePoll(s, Apply(hash, s, Work(w, choice)), c)
  {
    hide *;
    EnabledWork(s, c, w, choice);
    ApplyIsSafe(hash, s, Work(w, choice));
    WorkShape(hash, s, w, choice);
    var out := WorkerStep(hash, s.store, s.workers[w], choice);
    StepFacts(s.store, s.workers[w], out);
    OtherWorks(s, Apply(hash, s, Work(w, choice)), c, w, out);
  }

  lemma OtherTakeStep(hash: Hash, s: State, c: nat, w: nat)
    requires Enabled(s, Take(w)) && !Touches(s, c, Take(w)) && c < |s.conns|
    ensures SamePoll(s, Apply(hash, s, Take(w)), c)
  {
    WaitingPop(s.queue, c);
    AtWorkersUpdate(s.workers, w, Taken(s.queue[0]), c);
    hide Waiting, AtWorkers;
  }

  lemma Bystander(hash: Hash, s: State, c: nat, e: Event)
    requires Safe(s) && Enabled(s, e) && !Touches(s, c, e) && !Concerns(c, e) && c < |s.conns| && s.conns[c].idle.Some?
    ensures SamePoll(s, Apply(hash, s, e), c)
  {
    hide Safe, Waiting, AtWorkers, OnTick, WorkerStep, CanStep;
    match e {
      case Take(w) => OtherTakeStep(hash, s, c, w);
      case Work(w, choice) => OtherWorkStep(hash, s, c, w, choice);
      case Tick(_, _) => OtherTask(s, c, Apply(hash, s, e).queue[|s.queue|]);
      case Receive(_, request) => if request.Accepted? { OtherTask(s, c, Apply(hash, s, e).queue[|s.queue|]); }
      case _ =>
    }
  }

  lemma EnabledWork(s: State, c: nat, w: nat, choice: Choice)
    requires Enabled(s, Work(w, choice)) && !Touches(s, c, Work(w, choice))
    ensures w < |s.workers| && !WorksFor(s.workers[w], c) && !s.workers[w].Free?
    ensures CanStep(s.store, s.workers[w], choice)
  {
  }

  lemma SamePollSamePhase(s: State, t: State, c: nat, start: Idle, polls: seq<PollAt>, phase: Phase)
    requires start.inFlight == [] && InPhase(s, c, start, polls, phase) && SamePoll(s, t, c)
    ensures InPhase(t, c, start, polls, phase)
  {
    hide Play, Round, OnTick, OnIdleWrote, TickTask, Waiting, AtWorkers;
  }

  lemma BystanderKeepsPhase(hash: Hash, s: State, c: nat, e: Event, start: Idle, polls: seq<PollAt>, phase: Phase)
    requires PlayedSoFar(hash, s, c, start, polls, phase) && Enabled(s, e) && !Touches(s, c, e) && !Concerns(c, e)
    ensures PlayedSoFar(hash, Apply(hash, s, e), c, start, polls, phase)
  {
    assert c < |s.conns| && s.conns[c].idle.Some?;
    hide Safe, Enabled, Apply, Touches, InPhase, ChainTo, Known, Grows, SamePoll, StepOk, WorkerStep;
    var t := Apply(hash, s, e);
    ApplyIsSafe(hash, s, e);
    Bystander(hash, s, c, e);
    SamePollSamePhase(s, t, c, start, polls, phase);
    ChainGrows(AllPolls(polls, phase), s.store, t.store);
    KnownStays(hash, s.store, t.store, start);
  }

  // ---------------------------------------------------------------- tick, poll, write

  lemma TickPhase(hash: Hash, s: State, c: nat, now: nat, start: Idle, polls: seq<PollAt>, phase: Phase)
    requires PlayedSoFar(hash, s, c, start, polls, phase) && Enabled(s, Tick(c, now)) && Outstanding(s, c) == 0
    ensures phase == Resting && PlayedSoFar(hash, Apply(hash, s, Tick(c, now)), c, start, polls, Queued(now))
  {
    hide Safe, Play, Round, Known, ChainTo, Waiting, AtWorkers, OnIdleWrote;
    var t := Apply(hash, s, Tick(c, now));
    assert phase == Resting;
    hide OnTick, TickTask;
    WaitingPush(s.queue, t.queue[|s.queue|], c);
    TickTaskParts(s.conns[c].idle.value, c, s.conns[c].received, now);
    forall i | 0 <= i < |t.queue| && t.queue[i].client == c
      ensures t.queue[i] == TickTask(s.conns[c].idle.value, c, t.queue[i].number, now)
    {
      if i < |s.queue| { NotHeld(s, c, i); }
    }
    assert Safe(t) by { ApplyIsSafe(hash, s, Tick(c, now)); }
  }

  lemma TickTaskParts(idle: Idle, c: nat, number: nat, now: nat)
    ensures var task := TickTask(idle, c, number, now);
      task.client == c && task.number == number && task.cmd.IDLE? && task.request == OnTick(idle, now).params
  {
    hide PingDue;
  }

  lemma WritePhase(hash: Hash, s: State, c: nat, k: nat, start: Idle, polls: seq<PollAt>, phase: Phase)
    requires PlayedSoFar(hash, s, c, start, polls, phase) && Enabled(s, IdleWrote(c, k, true))
    ensures phase.Writing?
    ensures PlayedSoFar(hash, Apply(hash, s, IdleWrote(c, k, true)), c, start, polls + [phase.at], Resting)
  {
    hide Safe, Round, Known, ChainTo, Waiting, AtWorkers;
    assert phase.Writing? && k == 0;
    hide OnIdleWrote, OnTick, TickTask;
    var all := polls + [phase.at];
    assert all[..|all| - 1] == polls;
    assert Safe(Apply(hash, s, IdleWrote(c, k, true))) by { ApplyIsSafe(hash, s, IdleWrote(c, k, true)); }
  }

  lemma TakeParts(hash: Hash, s: State, w: nat)
    requires Enabled(s, Take(w))
    ensures Apply(hash, s, Take(w)) == s.(queue := s.queue[1..], workers := s.workers[w := Taken(s.queue[0])])
  {
  }

  /** The task that waits is the one of the last tick. */
  lemma WaitingIsTicked(s: State, c: nat, now: nat, start: Idle, polls: seq<PollAt>)
    requires start.inFlight == [] && InPhase(s, c, start, polls, Queued(now)) && s.queue != [] && s.queue[0].client == c
    ensures s.queue[0] == TickTask(Play(start, start.params.uid, polls), c, s.queue[0].number, now) && c < |s.conns|
  {
    hide Play, TickTask, OnTick, Waiting, AtWorkers;
  }

  /** The rounds have changed nothing of the request but its timestamp, so it is still authorised. */
  lemma TickedIsAuthorised(hash: Hash, s: Storage, start: Idle, polls: seq<PollAt>, c: nat, number: nat, now: nat)
    requires start.inFlight == [] && Known(hash, s, start)
    ensures var task := TickTask(Play(start, start.params.uid, polls), c, number, now);
      Authorised(hash, s, task) && task.request.uid == start.params.uid && task.cmd.IDLE?
  {
    hide Play, PingDue, HasUser;
    PlayKeepsRequest(start, start.params.uid, polls);
  }

  /** An authorised poll can begin. */
  lemma WaitingTask(hash: Hash, s: State, c: nat, now: nat, start: Idle, polls: seq<PollAt>)
    requires PlayedSoFar(hash, s, c, start, polls, Queued(now)) && s.queue != [] && s.queue[0].client == c
    ensures var task := s.queue[0];
      && task == TickTask(Play(start, start.params.uid, polls), c, task.number, now)
      && Polls(s.store, Taken(task)) && Authorised(hash, s.store, task) && task.request.uid == start.params.uid
      && c < |s.conns|
  {
    hide InPhase, ChainTo, Known, Inv, PcOk, Play, TickTask, Authorised;
    WaitingIsTicked(s, c, now, start, polls);
    TickedIsAuthorised(hash, s.store, start, polls, c, s.queue[0].number, now);
    TakenIsOk(s.store, s.queue[0]);
  }

  /** The steps of the poll, from the state where its task was taken. */
  lemma PollSteps(hash: Hash, s: State, w: nat, steps: seq<Event>, t: State) returns (out: Outcome)
    requires WorkerPolls(s, w) && s.workers[w].Taken? && Authorised(hash, s.store, s.workers[w].task)
    requires OnlyWorker(steps, w) && Run(hash, s, steps, t) && |t.workers| == |s.workers| && t.workers[w].Free?
    ensures var task := s.workers[w].task;
      && out.pc.Free? && Answers(task, PollBatch(s.store, task.request.uid, task.request.ts), out.send)
      && t == Ended(s, w, out)
  {
    hide Polls, Alone, Answers, PollBatch, Authorised, Run, OnlyWorker, Ended;
    var beat := Uninterrupted(hash, s, w, steps, t);
    TaskAlone(hash, s.store, s.workers[w].task, beat);
    out := Alone(hash, s.store, s.workers[w], beat);
  }

  lemma PollEnds(hash: Hash, s: State, c: nat, w: nat, now: nat, steps: seq<Event>, t: State, start: Idle,
                 polls: seq<PollAt>)
    returns (out: Outcome)
    requires PlayedSoFar(hash, s, c, start, polls, Queued(now)) && ActTo(hash, s, c, WholePoll(w, steps), t)
    ensures out.pc.Free? && Answers(s.queue[0], PollBatch(s.store, start.params.uid, s.queue[0].request.ts), out.send)
    ensures t == State(t.store, s.queue[1..], s.workers, s.conns[c := OnSend(s.conns[c], s.queue[0], out)])
  {
    assert w < |s.workers| && s.workers[w].Free? && s.queue != [];
    hide PlayedSoFar, Apply, Enabled, Play, TickTask, Authorised, Polls, OnSend, Answers, PollBatch, Run, OnlyWorker;
    WaitingTask(hash, s, c, now, start, polls);
    TakeParts(hash, s, w);
    out := PollSteps(hash, Apply(hash, s, Take(w)), w, steps, t);
    hide ActTo, WorkerPolls;
    assert s.workers[w := Taken(s.queue[0])][w := Free] == s.workers;
  }

  lemma ConnAfterPoll(conn: Conn, p: Idle, uid: nat, at: PollAt, task: Task, out: Outcome)
    requires p.inFlight == [] && conn.idle == Some(OnTick(p, at.now))
    requires task == TickTask(p, task.client, task.number, at.now)
    requires out.pc.Free? && Answers(task, PollBatch(at.store, uid, task.request.ts), out.send)
    ensures var after := OnSend(conn, task, out);
      && after.idle.Some?
      && (out.send.None? ==> after.idle.value == Round(p, uid, at))
      && (out.send.Some? ==> |after.idle.value.inFlight| == 1)
      && (out.send.Some? ==> OnIdleWrote(after.idle.value, 0, true) == Round(p, uid, at))
  {
    hide OnTick, TickTask, Answers, PollBatch, OnIdleWrote, Round;
    EndOfRound(conn.(idle := Some(p)), uid, at, task, out);
    assert conn.(idle := Some(p)).(idle := Some(OnTick(p, at.now))) == conn;
  }

  lemma PollIsSafe(hash: Hash, s: State, c: nat, w: nat, steps: seq<Event>, t: State)
    requires Safe(s) && ActTo(hash, s, c, WholePoll(w, steps), t)
    ensures Safe(t) && Grows(s.store, t.store) && s.queue != [] && s.queue[0].client == c
  {
    assert s.queue != [];
    hide Safe, Grows, Apply, Enabled;
    ApplyIsSafe(hash, s, Take(w));
    EveryRunIsSafe(hash, Apply(hash, s, Take(w)), steps, t);
    assert Apply(hash, s, Take(w)).store == s.store by { TakeKeepsStore(hash, s, w); }
  }

  lemma TakeKeepsStore(hash: Hash, s: State, w: nat)
    requires Enabled(s, Take(w))
    ensures Apply(hash, s, Take(w)).store == s.store
  {
  }

  lemma AfterPollInPhase(s: State, t: State, c: nat, start: Idle, polls: seq<PollAt>, now: nat, out: Outcome)
    requires start.inFlight == [] && InPhase(s, c, start, polls, Queued(now)) && s.queue != [] && s.queue[0].client == c
    requires out.pc.Free? && Answers(s.queue[0], PollBatch(s.store, start.params.uid, s.queue[0].request.ts), out.send)
    requires t == State(t.store, s.queue[1..], s.workers, s.conns[c := OnSend(s.conns[c], s.queue[0], out)])
    ensures var at := PollAt(s.store, now);
      if out.send.None? then InPhase(t, c, start, polls + [at], Resting) else InPhase(t, c, start, polls, Writing(at))
  {
    var at, p, uid := PollAt(s.store, now), Play(start, start.params.uid, polls), start.params.uid;
    var all := polls + [at];
    assert all[..|all| - 1] == polls;
    assert Play(start, uid, all) == Round(p, uid, at);
    hide Play, Round, OnTick, TickTask, AtWorkers, OnSend, OnIdleWrote, Answers, PollBatch;
    WaitingPop(s.queue, c);
    hide Waiting;
    ConnAfterPoll(s.conns[c], p, uid, at, s.queue[0], out);
  }

  lemma PollKnown(hash: Hash, s: State, t: State, start: Idle, polls: seq<PollAt>, at: PollAt)
    requires Safe(s) && ChainTo(polls, s.store) && Known(hash, s.store, start) && Grows(s.store, t.store)
    requires at.store == s.store
    ensures ChainTo(polls + [at], t.store) && Known(hash, t.store, start)
  {
    assert Inv(s.store);
    hide Safe, Known, Inv, ChainTo, Grows;
    ChainSnoc(polls, at);
    ChainGrows(polls + [at], s.store, t.store);
    KnownStays(hash, s.store, t.store, start);
  }

  /** A whole poll of the connection: nothing is found and nothing sent, or a batch is on its way. */
  lemma PollPhase(hash: Hash, s: State, c: nat, w: nat, steps: seq<Event>, t: State, start: Idle, polls: seq<PollAt>,
                  phase: Phase)
    returns (next: Phase)
    requires PlayedSoFar(hash, s, c, start, polls, phase) && ActTo(hash, s, c, WholePoll(w, steps), t)
    ensures phase.Queued? && var at := PollAt(s.store, phase.now);
      if next == Resting then PlayedSoFar(hash, t, c, start, polls + [at], Resting)
      else next == Writing(at) && PlayedSoFar(hash, t, c, start, polls, next)
  {
    hide Enabled, Apply, Run, OnlyWorker, InPhase, Play, ActTo, Answers, OnSend, PollBatch, Grows, Safe, Known, ChainTo;
    PollIsSafe(hash, s, c, w, steps, t);
    PollMeansQueued(s, c, start, polls, phase);
    var at := PollAt(s.store, phase.now);
    var out := PollEnds(hash, s, c, w, phase.now, steps, t, start, polls);
    AfterPollInPhase(s, t, c, start, polls, phase.now, out);
    PollKnown(hash, s, t, start, polls, at);
    next := if out.send.None? then Resting else Writing(at);
  }

  lemma PollMeansQueued(s: State, c: nat, start: Idle, polls: seq<PollAt>, phase: Phase)
    requires start.inFlight == [] && InPhase(s, c, start, polls, phase) && s.queue != [] && s.queue[0].client == c
    ensures phase.Queued?
  {
    hide Play, Round, OnTick, OnIdleWrote, TickTask;
    HeldIfWaiting(s, c, 0);
  }

  // ---------------------------------------------------------------- every trace

  function StoresOf(polls: seq<PollAt>): (r: seq<Storage>)
    ensures |r| == |polls|
  {
    seq(|polls|, k requires 0 <= k < |polls| => polls[k].store)
  }

  /** The storages on which the connection's polls began, in order. */
  function PollStores(acts: seq<Act>, states: seq<State>): seq<Storage>
    requires |states| == |acts| + 1
    decreases |acts|
  {
    if acts == [] then []
    else
      var n := |acts| - 1;
      PollStores(acts[..n], states[..n + 1]) + (if acts[n].WholePoll? then [states[n].store] else [])
  }

  lemma StoresSnoc(polls: seq<PollAt>, p: PollAt)
    ensures StoresOf(polls + [p]) == StoresOf(polls) + [p.store]
  {
  }

  lemma PlainKeepsPlaying(hash: Hash, s: State, c: nat, e: Event, t: State, start: Idle, polls: seq<PollAt>,
                          phase: Phase)
    returns (more: seq<PollAt>, next: Phase)
    requires PlayedSoFar(hash, s, c, start, polls, phase) && ActTo(hash, s, c, Plain(e), t)
    ensures PlayedSoFar(hash, t, c, start, more, next) && AllPolls(more, next) == AllPolls(polls, phase)
  {
    hide PlayedSoFar, Apply, Enabled, Touches;
    more, next := polls, phase;
    if !Concerns(c, e) {
      BystanderKeepsPhase(hash, s, c, e, start, polls, phase);
    } else if e.Tick? {
      TickPhase(hash, s, c, e.now, start, polls, phase);
      next := Queued(e.now);
    } else {
      WritePhase(hash, s, c, e.k, start, polls, phase);
      more, next := polls + [phase.at], Resting;
    }
  }

  lemma ActKeepsPlaying(hash: Hash, s: State, c: nat, a: Act, t: State, start: Idle, polls: seq<PollAt>, phase: Phase)
    returns (more: seq<PollAt>, next: Phase)
    requires PlayedSoFar(hash, s, c, start, polls, phase) && ActTo(hash, s, c, a, t)
    ensures PlayedSoFar(hash, t, c, start, more, next)
    ensures StoresOf(AllPolls(more, next))
      == StoresOf(AllPolls(polls, phase)) + (if a.WholePoll? then [s.store] else [])
  {
    hide PlayedSoFar, ActTo, StoresOf;
    match a {
      case Plain(e) =>
        more, next := PlainKeepsPlaying(hash, s, c, e, t, start, polls, phase);
        assert StoresOf(AllPolls(polls, phase)) + [] == StoresOf(AllPolls(polls, phase));
      case WholePoll(w, steps) =>
        next := PollPhase(hash, s, c, w, steps, t, start, polls, phase);
        var at := PollAt(s.store, phase.now);
        StoresSnoc(polls, at);
        more := if next == Resting then polls + [at] else polls;
    }
  }

  lemma TracePrefix(hash: Hash, c: nat, acts: seq<Act>, states: seq<State>)
    requires Trace(hash, c, acts, states) && acts != []
    ensures var n := |acts| - 1;
      Trace(hash, c, acts[..n], states[..n + 1]) && ActTo(hash, states[n], c, acts[n], states[n + 1])
  {
    hide ActTo;
  }

  lemma {:induction false} TraceIsPlayed(hash: Hash, c: nat, acts: seq<Act>, states: seq<State>, start: Idle)
    returns (polls: seq<PollAt>, phase: Phase)
    requires Trace(hash, c, acts, states) && PlayedSoFar(hash, states[0], c, start, [], Resting)
    ensures PlayedSoFar(hash, states[|acts|], c, start, polls, phase)
    ensures StoresOf(AllPolls(polls, phase)) == PollStores(acts, states)
    decreases |acts|
  {
    hide PlayedSoFar, ActTo;
    if acts == [] {
      polls, phase := [], Resting;
    } else {
      var n := |acts| - 1;
      var init := states[..|states| - 1];
      TracePrefix(hash, c, acts, states);
      var before, at := TraceIsPlayed(hash, c, acts[..n], init, start);
      polls, phase := ActKeepsPlaying(hash, states[n], c, acts[n], states[n + 1], start, before, at);
    }
  }

  /** A fresh idle connection of a known user, with nothing of it under way. */
  ghost predicate StartsIdle(hash: Hash, s: State, c: nat) {
    && Safe(s) && c < |s.conns| && s.conns[c].idle.Some? && Held(s, c) == 0
    && Fresh(s.conns[c].idle.value) && s.conns[c].idle.value.timer && Known(hash, s.store, s.conns[c].idle.value)
  }

  /** Nothing of the connection is under way. */
  predicate AtRest(s: State, c: nat) {
    c < |s.conns| && Outstanding(s, c) == 0
  }

  /** On every run on which the polls of a connection take turns and are not interrupted, the rounds of these polls, on
  the storages they began with, are all that happened to the connection. */
  lemma RunIsRounds(hash: Hash, c: nat, acts: seq<Act>, states: seq<State>) returns (polls: seq<PollAt>)
    requires Trace(hash, c, acts, states) && StartsIdle(hash, states[0], c) && AtRest(states[|acts|], c)
    ensures var start := states[0].conns[c].idle.value;
      && Chain(polls) && StoresOf(polls) == PollStores(acts, states)
      && states[|acts|].conns[c].idle == Some(Play(start, start.params.uid, polls))
  {
    var s, start := states[0], states[0].conns[c].idle.value;
    assert PlayedSoFar(hash, s, c, start, [], Resting) by { hide Safe, Trace, Known, Waiting, AtWorkers; }
    var played, phase := TraceIsPlayed(hash, c, acts, states, start);
    hide Trace, Safe, Known, Grows, StartsIdle, Play, Round, OnTick, OnIdleWrote, TickTask, Waiting, AtWorkers;
    hide PollStores;
    assert phase == Resting;
    polls := played;
  }

  /** The conditions of `DeliveredIff` for the message at position `i`. */
  predicate SeenInOrder(s: Storage, uid: nat, i: nat)
    requires i < |s.messages|
  {
    InTimeOrder(s.messages) && Member(s, uid, s.messages[i].chatTo)
  }

  /** The conditions of `ExactlyOnce` for the message at position `i`. */
  predicate ArrivesOnce(start: Idle, polls: seq<PollAt>, f: nat, i: nat)
    requires start.inFlight == [] && f < |polls| && i < |polls[f].store.messages|
  {
    var m, uid := polls[f].store.messages[i], start.params.uid;
    && LaterPollsNewer(polls) && m.ts > start.start && Member(polls[f].store, uid, m.chatTo)
    && AtMostThreeNew(polls[f].store, m.chatTo, WatermarkAt(start, uid, polls, f))
  }

  lemma CoveredDecides(start: Idle, uid: nat, polls: seq<PollAt>, f: nat, i: nat)
    requires Fresh(start) && Chain(polls) && FirstSeen(polls, f, i) && SeenInOrder(polls[f].store, uid, i)
    ensures Occurrences(Play(start, uid, polls).delivered, i)
      == One(Picked(polls[f].store, uid, WatermarkAt(start, uid, polls, f), i))
  {
    hide InTimeOrder, Play, Occurrences, WatermarkAt, NewerMatches;
    DeliveredIff(start, uid, polls, f, i);
  }

  /** So on every such run it is exactly known which stored messages the connection was sent, and how often. */
  lemma DeliveredOnEveryRun(hash: Hash, c: nat, acts: seq<Act>, states: seq<State>) returns (polls: seq<PollAt>)
    requires Trace(hash, c, acts, states) && StartsIdle(hash, states[0], c) && AtRest(states[|acts|], c)
    ensures StoresOf(polls) == PollStores(acts, states) && Chain(polls) && states[|acts|].conns[c].idle.Some?
    ensures var start, delivered := states[0].conns[c].idle.value, states[|acts|].conns[c].idle.value.delivered;
      var uid := start.params.uid;
      && start.inFlight == []
      && (forall f: nat, i: nat :: FirstSeen(polls, f, i) && SeenInOrder(polls[f].store, uid, i) ==>
            Occurrences(delivered, i) == One(Picked(polls[f].store, uid, WatermarkAt(start, uid, polls, f), i)))
      && (forall f: nat, i: nat :: FirstSeen(polls, f, i) && ArrivesOnce(start, polls, f, i) ==>
            Occurrences(delivered, i) == 1)
  {
    polls := RunIsRounds(hash, c, acts, states);
    var start := states[0].conns[c].idle.value;
    assert Fresh(start);
    hide Trace, StartsIdle, AtRest, Chain, Play, Occurrences, Picked, PollStores, WatermarkAt, SeenInOrder;
    hide LaterPollsNewer, AtMostThreeNew;
    var uid := start.params.uid;
    forall f: nat, i: nat | FirstSeen(polls, f, i) && SeenInOrder(polls[f].store, uid, i)
      ensures Occurrences(Play(start, uid, polls).delivered, i)
        == One(Picked(polls[f].store, uid, WatermarkAt(start, uid, polls, f), i))
    {
      CoveredDecides(start, uid, polls, f, i);
    }
    forall f: nat, i: nat | FirstSeen(polls, f, i) && ArrivesOnce(start, polls, f, i)
      ensures Occurrences(Play(start, uid, polls).delivered, i) == 1
    {
      ExactlyOnce(start, uid, polls, f, i);
    }
  }
}
