/** Requests and responses: on every run each request leads to one response, in order, and a connection never
has more than one of a read armed, a task waiting, a task at a worker and a response being written. */
module Discipline {
  import opened Store
  import opened Server
  import opened WorkerSafety

  // ---------------------------------------------------------------- tasks of a connection

  function One(b: bool): nat {
    if b then 1 else 0
  }

  function Waiting(queue: seq<Task>, c: nat): nat {
    if queue == [] then 0 else Waiting(queue[..|queue| - 1], c) + One(queue[|queue| - 1].client == c)
  }

  predicate WorksFor(pc: Pc, c: nat) {
    !pc.Free? && pc.task.client == c
  }

  function AtWorkers(workers: seq<Pc>, c: nat): nat {
    if workers == [] then 0 else AtWorkers(workers[..|workers| - 1], c) + One(WorksFor(workers[|workers| - 1], c))
  }

  /** The tasks of connection `c` that are queued or at a worker. */
  function Held(s: State, c: nat): nat {
    Waiting(s.queue, c) + AtWorkers(s.workers, c)
  }

  lemma WaitingPush(queue: seq<Task>, task: Task, c: nat)
    ensures Waiting(queue + [task], c) == Waiting(queue, c) + One(task.client == c)
  {
    assert (queue + [task])[..|queue|] == queue;
  }

  lemma {:induction false} WaitingPop(queue: seq<Task>, c: nat)
    requires queue != []
    ensures Waiting(queue, c) == One(queue[0].client == c) + Waiting(queue[1..], c)
  {
    if |queue| > 1 {
      WaitingPop(queue[..|queue| - 1], c);
      assert queue[..|queue| - 1][1..] == queue[1..][..|queue| - 2];
    } else {
      assert queue[..0] == [] && queue[1..] == [];
    }
  }

  lemma {:induction false} AtWorkersUpdate(workers: seq<Pc>, w: nat, pc: Pc, c: nat)
    requires w < |workers|
    ensures AtWorkers(workers[w := pc], c) + One(WorksFor(workers[w], c))
      == AtWorkers(workers, c) + One(WorksFor(pc, c))
  {
    var last := |workers| - 1;
    if w < last {
      AtWorkersUpdate(workers[..last], w, pc, c);
      assert workers[w := pc][..last] == workers[..last][w := pc];
    } else {
      assert workers[w := pc][..last] == workers[..last];
    }
  }

  lemma {:induction false} HeldIfWaiting(s: State, c: nat, i: nat)
    requires i < |s.queue| && s.queue[i].client == c
    ensures Waiting(s.queue, c) >= 1
    decreases |s.queue|
  {
    if i < |s.queue| - 1 { HeldIfWaiting(s.(queue := s.queue[..|s.queue| - 1]), c, i); }
  }

  lemma {:induction false} HeldIfAtWorker(workers: seq<Pc>, c: nat, w: nat)
    requires w < |workers| && WorksFor(workers[w], c)
    ensures AtWorkers(workers, c) >= 1
    decreases |workers|
  {
    if w < |workers| - 1 { HeldIfAtWorker(workers[..|workers| - 1], c, w); }
  }

  // ---------------------------------------------------------------- the invariant

  ghost predicate InRequestOrder(answered: seq<nat>) {
    forall i :: 0 <= i < |answered| ==> answered[i] == i
  }

  ghost predicate Increasing(answered: seq<nat>, bound: nat) {
    && (forall i, j :: 0 <= i < j < |answered| ==> answered[i] < answered[j])
    && (forall i :: 0 <= i < |answered| ==> answered[i] < bound)
  }

  /** A connection that has not gone idle, with `held` tasks of its own under way. A request that was
  dropped leaves it silent. */
  ghost predicate Disciplined(conn: Conn, held: nat) {
    && One(conn.reading) + held + conn.writes <= 1
    && conn.received == |conn.answered| + conn.dropped + held
    && (conn.dropped == 0 ==> InRequestOrder(conn.answered))
    && Increasing(conn.answered, conn.received - held)
    && (conn.dropped > 0 ==> !conn.reading && held == 0 && conn.writes == 0)
  }

  /** A task belongs to an existing connection; to an idle one exactly when it is a poll; and otherwise
  it is for the last request read. */
  ghost predicate TaskOk(conns: seq<Conn>, task: Task) {
    && task.client < |conns|
    && (task.cmd.IDLE? <==> conns[task.client].idle.Some?)
    && (!task.cmd.IDLE? ==> task.number + 1 == conns[task.client].received)
  }

  ghost predicate Ordered(s: State) {
    && (forall i :: 0 <= i < |s.queue| ==> TaskOk(s.conns, s.queue[i]))
    && (forall w :: 0 <= w < |s.workers| && !s.workers[w].Free? ==> TaskOk(s.conns, s.workers[w].task))
    && (forall c :: 0 <= c < |s.conns| && s.conns[c].idle.None? ==> Disciplined(s.conns[c], Held(s, c)))
  }

  // ---------------------------------------------------------------- one step

  lemma NewRequest(conn: Conn, request: Request, held: nat)
    requires Disciplined(conn, held) && conn.reading
    ensures var t := OnReceive(conn, request); t.idle.None? ==> Disciplined(t, held + One(request.Accepted?))
  {
  }

  lemma NewResponse(conn: Conn, task: Task, out: Outcome, held: nat)
    requires Disciplined(conn, held) && held >= 1 && conn.idle.None? && task.number + 1 == conn.received
    requires !task.cmd.IDLE?
    requires out.send.Some? ==> out.pc.Free? && !out.send.value.IdleMessages?
    ensures var t := OnSend(conn, task, out);
      t.idle.None? && t.received == conn.received && Disciplined(t, held - One(out.pc.Free?))
  {
  }

  lemma ReceiveKeepsConns(hash: Hash, s: State, c: nat, request: Request)
    requires Ordered(s) && Enabled(s, Receive(c, request))
    ensures var t := Apply(hash, s, Receive(c, request));
      forall d :: 0 <= d < |t.conns| && t.conns[d].idle.None? ==> Disciplined(t.conns[d], Held(t, d))
  {
    hide Disciplined, OnReceive, Waiting, AtWorkers, TaskOk;
    var t := Apply(hash, s, Receive(c, request));
    NewRequest(s.conns[c], request, Held(s, c));
    forall d | 0 <= d < |t.conns| && t.conns[d].idle.None? ensures Disciplined(t.conns[d], Held(t, d)) {
      if request.Accepted? { WaitingPush(s.queue, t.queue[|s.queue|], d); }
    }
  }

  lemma ReceiveKeepsOrder(hash: Hash, s: State, c: nat, request: Request)
    requires Ordered(s) && Enabled(s, Receive(c, request))
    ensures Ordered(Apply(hash, s, Receive(c, request)))
  {
    hide OnReceive, Disciplined, Waiting, AtWorkers;
    var t := Apply(hash, s, Receive(c, request));
    ReceiveKeepsConns(hash, s, c, request);
    ReadingMeansNotHeld(s, c);
    ReceiveCounts(s.conns[c], request);
    forall i | 0 <= i < |t.queue| ensures TaskOk(t.conns, t.queue[i]) {
      if i < |s.queue| { NotHeld(s, c, i); }
    }
    forall w | 0 <= w < |t.workers| && !t.workers[w].Free? ensures TaskOk(t.conns, t.workers[w].task) {
      NotHeldAtWorker(s, c, w);
    }
  }

  lemma ReceiveCounts(conn: Conn, request: Request)
    ensures var t := OnReceive(conn, request);
      && t.received == conn.received + 1 && (request.StartIdle? || t.idle == conn.idle)
      && (request.StartIdle? ==> t.idle.Some?)
  {
  }

  lemma ReadingMeansNotHeld(s: State, c: nat)
    requires Ordered(s) && c < |s.conns| && s.conns[c].reading && s.conns[c].idle.None?
    ensures Waiting(s.queue, c) == 0 && AtWorkers(s.workers, c) == 0
  {
  }

  lemma NotHeld(s: State, c: nat, i: nat)
    requires Waiting(s.queue, c) == 0 && i < |s.queue|
    ensures s.queue[i].client != c
  {
    if s.queue[i].client == c { HeldIfWaiting(s, c, i); }
  }

  lemma NotHeldAtWorker(s: State, c: nat, w: nat)
    requires AtWorkers(s.workers, c) == 0 && w < |s.workers|
    ensures !WorksFor(s.workers[w], c)
  {
    if WorksFor(s.workers[w], c) { HeldIfAtWorker(s.workers, c, w); }
  }

  lemma TakeKeepsOrder(hash: Hash, s: State, w: nat)
    requires Ordered(s) && Enabled(s, Take(w))
    ensures Ordered(Apply(hash, s, Take(w)))
  {
    hide Disciplined, TaskOk;
    var t := Apply(hash, s, Take(w));
    forall c ensures Held(t, c) == Held(s, c) {
      WaitingPop(s.queue, c);
      AtWorkersUpdate(s.workers, w, Taken(s.queue[0]), c);
    }
  }

  /** `t` is the state after worker `w` made a step with outcome `out`. */
  ghost predicate Worked(s: State, t: State, w: nat, out: Outcome) {
    && w < |s.workers| && !s.workers[w].Free? && s.workers[w].task.client < |s.conns|
    && var c := s.workers[w].task.client;
      t == State(out.store, s.queue, s.workers[w := out.pc], s.conns[c := OnSend(s.conns[c], s.workers[w].task, out)])
  }

  lemma WorkKeepsConns(s: State, t: State, w: nat, out: Outcome)
    requires Ordered(s) && Worked(s, t, w, out) && StepOk(s.store, s.workers[w], out)
    ensures forall d :: 0 <= d < |t.conns| && t.conns[d].idle.None? ==> Disciplined(t.conns[d], Held(t, d))
  {
    hide Disciplined, OnSend, Waiting, AtWorkers, StepOk;
    var pc := s.workers[w];
    var c := pc.task.client;
    AtWorkersUpdate(s.workers, w, out.pc, c);
    HeldIfAtWorker(s.workers, c, w);
    SendKeepsKind(s.conns[c], pc.task, out);
    StepFacts(s.store, pc, out);
    if s.conns[c].idle.None? {
      NewResponse(s.conns[c], pc.task, out, Held(s, c));
    }
    forall d | 0 <= d < |t.conns| && t.conns[d].idle.None? ensures Disciplined(t.conns[d], Held(t, d)) {
      AtWorkersUpdate(s.workers, w, out.pc, d);
    }
  }

  lemma StepFacts(s: Storage, pc: Pc, out: Outcome)
    requires !pc.Free? && StepOk(s, pc, out)
    ensures out.send.Some? ==> out.pc.Free? && (out.send.value.IdleMessages? ==> pc.task.cmd.IDLE?)
    ensures !out.pc.Free? ==> out.pc.task == pc.task
    ensures out.send.None? && out.pc.Free? ==> pc.task.cmd.IDLE? || Unhandled(pc.task.cmd)
  {
    hide PcOk;
  }

  lemma WorkKeepsTasks(s: State, t: State, w: nat, out: Outcome)
    requires Ordered(s) && Worked(s, t, w, out) && StepOk(s.store, s.workers[w], out)
    ensures forall i :: 0 <= i < |t.queue| ==> TaskOk(t.conns, t.queue[i])
    ensures forall v :: 0 <= v < |t.workers| && !t.workers[v].Free? ==> TaskOk(t.conns, t.workers[v].task)
  {
    hide Disciplined, OnSend, StepOk;
    var c := s.workers[w].task.client;
    SendKeepsKind(s.conns[c], s.workers[w].task, out);
    StepFacts(s.store, s.workers[w], out);
    forall v | 0 <= v < |t.workers| && !t.workers[v].Free? ensures TaskOk(t.conns, t.workers[v].task) {
      assert t.workers[v].task == s.workers[v].task;
    }
  }

  lemma WorkKeepsOrder(hash: Hash, s: State, w: nat, choice: Choice)
    requires Ordered(s) && Safe(s) && Enabled(s, Work(w, choice))
    ensures Ordered(Apply(hash, s, Work(w, choice)))
  {
    ApplyIsSafe(hash, s, Work(w, choice));
    WorkShape(hash, s, w, choice);
    hide Safe, WorkerStep, Apply, OnSend, Disciplined, TaskOk, StepOk, Held;
    var out := WorkerStep(hash, s.store, s.workers[w], choice);
    WorkKeepsConns(s, Apply(hash, s, Work(w, choice)), w, out);
    WorkKeepsTasks(s, Apply(hash, s, Work(w, choice)), w, out);
  }

  lemma WorkShape(hash: Hash, s: State, w: nat, choice: Choice)
    requires Enabled(s, Work(w, choice))
    ensures Worked(s, Apply(hash, s, Work(w, choice)), w, WorkerStep(hash, s.store, s.workers[w], choice))
  {
    hide WorkerStep, OnSend;
  }

  lemma SendKeepsKind(conn: Conn, task: Task, out: Outcome)
    ensures var t := OnSend(conn, task, out); t.idle.Some? == conn.idle.Some? && t.received == conn.received
  {
  }

  lemma TickKeepsOrder(hash: Hash, s: State, c: nat, now: nat)
    requires Ordered(s) && Enabled(s, Tick(c, now))
    ensures Ordered(Apply(hash, s, Tick(c, now)))
  {
    hide Disciplined, OnTick;
    var t := Apply(hash, s, Tick(c, now));
    forall d | 0 <= d < |t.conns| && t.conns[d].idle.None? ensures Disciplined(t.conns[d], Held(t, d)) {
      WaitingPush(s.queue, t.queue[|s.queue|], d);
    }
  }

  lemma ConnectKeepsOrder(hash: Hash, s: State)
    requires Ordered(s)
    ensures Ordered(Apply(hash, s, Connect))
  {
    hide Waiting, AtWorkers;
    var t := Apply(hash, s, Connect);
    assert forall c :: Held(t, c) == Held(s, c);
    NewcomerHasNoTasks(s, |s.conns|);
  }

  /** Events that change one connection and no task. */
  lemma ConnChangeKeepsOrder(s: State, t: State, c: nat, conn: Conn)
    requires Ordered(s) && c < |s.conns| && t == s.(conns := s.conns[c := conn])
    requires conn.idle.Some? == s.conns[c].idle.Some? && conn.received == s.conns[c].received
    requires conn.idle.None? ==> Disciplined(conn, Held(s, c))
    ensures Ordered(t)
  {
    hide Waiting, AtWorkers, Disciplined;
    assert forall d :: Held(t, d) == Held(s, d);
  }

  lemma OtherKeepsOrder(hash: Hash, s: State, e: Event)
    requires Ordered(s) && Enabled(s, e) && (e.ReadError? || e.Wrote? || e.IdleWrote?)
    ensures Ordered(Apply(hash, s, e))
  {
    hide OnIdleWrote, Waiting, AtWorkers;
    ConnChangeKeepsOrder(s, Apply(hash, s, e), e.client, Apply(hash, s, e).conns[e.client]);
  }

  lemma NewcomerHasNoTasks(s: State, c: nat)
    requires forall i :: 0 <= i < |s.queue| ==> s.queue[i].client != c
    requires forall w :: 0 <= w < |s.workers| ==> !WorksFor(s.workers[w], c)
    ensures Held(s, c) == 0
  {
    NoneWaiting(s.queue, c);
    NoneAtWorkers(s.workers, c);
  }

  lemma {:induction false} NoneWaiting(queue: seq<Task>, c: nat)
    requires forall i :: 0 <= i < |queue| ==> queue[i].client != c
    ensures Waiting(queue, c) == 0
  {
    if queue != [] { NoneWaiting(queue[..|queue| - 1], c); }
  }

  lemma {:induction false} NoneAtWorkers(workers: seq<Pc>, c: nat)
    requires forall w :: 0 <= w < |workers| ==> !WorksFor(workers[w], c)
    ensures AtWorkers(workers, c) == 0
  {
    if workers != [] { NoneAtWorkers(workers[..|workers| - 1], c); }
  }

  lemma ApplyKeepsOrder(hash: Hash, s: State, e: Event)
    requires Ordered(s) && Safe(s) && Enabled(s, e)
    ensures Ordered(Apply(hash, s, e))
  {
    hide Ordered, Safe, Apply;
    match e {
      case Receive(c, request) => ReceiveKeepsOrder(hash, s, c, request);
      case Take(w) => TakeKeepsOrder(hash, s, w);
      case Work(w, choice) => WorkKeepsOrder(hash, s, w, choice);
      case Tick(c, now) => TickKeepsOrder(hash, s, c, now);
      case Connect => ConnectKeepsOrder(hash, s);
      case _ => OtherKeepsOrder(hash, s, e);
    }
  }

  // ---------------------------------------------------------------- every run

  lemma StartedIsOrdered(workers: nat)
    ensures Ordered(Started(workers)) && Safe(Started(workers))
  {
    StartedIsSafe(workers);
  }

  lemma {:induction false} EveryRunIsOrdered(hash: Hash, s: State, events: seq<Event>, t: State)
    requires Ordered(s) && Safe(s) && Run(hash, s, events, t)
    ensures Ordered(t) && Safe(t)
    decreases |events|
  {
    hide Ordered, Safe, Apply, Enabled;
    if events != [] {
      ApplyKeepsOrder(hash, s, events[0]);
      ApplyIsSafe(hash, s, events[0]);
      EveryRunIsOrdered(hash, Apply(hash, s, events[0]), events[1..], t);
    }
  }

  // ---------------------------------------------------------------- exactly one response

  /** No task of connection `c` for a command without a branch is under way, and none of its requests was dropped. */
  ghost predicate AllHandled(s: State, c: nat) {
    && (forall i :: 0 <= i < |s.queue| && s.queue[i].client == c ==> !Unhandled(s.queue[i].cmd))
    && (forall w :: 0 <= w < |s.workers| && WorksFor(s.workers[w], c) ==> !Unhandled(s.workers[w].task.cmd))
    && (c < |s.conns| ==> s.conns[c].dropped == 0)
  }

  /** Not a request of connection `c` for such a command. */
  predicate HandledEvent(e: Event, c: nat) {
    e.Receive? && e.client == c && e.request.Accepted? ==> !Unhandled(e.request.cmd)
  }

  lemma WorkKeepsHandled(s: State, t: State, w: nat, out: Outcome, c: nat)
    requires AllHandled(s, c) && Worked(s, t, w, out) && StepOk(s.store, s.workers[w], out)
    ensures AllHandled(t, c)
  {
    hide StepOk;
    StepFacts(s.store, s.workers[w], out);
  }

  lemma ApplyKeepsHandled(hash: Hash, s: State, e: Event, c: nat)
    requires Safe(s) && AllHandled(s, c) && Enabled(s, e) && HandledEvent(e, c)
    ensures AllHandled(Apply(hash, s, e), c)
  {
    if e.Work? {
      hide *;
      ApplyIsSafe(hash, s, e);
      EnabledWorker(s, e.worker, e.choice);
      WorkShape(hash, s, e.worker, e.choice);
      WorkKeepsHandled(s, Apply(hash, s, e), e.worker, WorkerStep(hash, s.store, s.workers[e.worker], e.choice), c);
    } else {
      hide Safe;
    }
  }

  lemma EnabledWorker(s: State, w: nat, choice: Choice)
    requires Enabled(s, Work(w, choice))
    ensures w < |s.workers| && !s.workers[w].Free? && CanStep(s.store, s.workers[w], choice)
  {
  }

  lemma {:induction false} RunKeepsHandled(hash: Hash, s: State, events: seq<Event>, t: State, c: nat)
    requires Safe(s) && AllHandled(s, c) && Run(hash, s, events, t)
    requires forall i :: 0 <= i < |events| ==> HandledEvent(events[i], c)
    ensures AllHandled(t, c)
    decreases |events|
  {
    hide Safe, AllHandled, Apply, Enabled, HandledEvent;
    if events != [] {
      ApplyKeepsHandled(hash, s, events[0], c);
      ApplyIsSafe(hash, s, events[0]);
      RunKeepsHandled(hash, Apply(hash, s, events[0]), events[1..], t, c);
    }
  }

  /** As long as connection `c` itself sends no request for a command without a branch, every one of its requests has
  been answered in request order, exactly once, except the one whose task is still under way; and the connection is
  doing one thing at a time. Other connections may send what they like. */
  lemma RequestsAreAnsweredOnce(hash: Hash, workers: nat, events: seq<Event>, t: State, c: nat)
    requires Run(hash, Started(workers), events, t) && forall i :: 0 <= i < |events| ==> HandledEvent(events[i], c)
    requires c < |t.conns| && t.conns[c].idle.None?
    ensures var conn := t.conns[c];
      && conn.received == |conn.answered| + Held(t, c)
      && InRequestOrder(conn.answered)
      && One(conn.reading) + Held(t, c) + conn.writes <= 1
  {
    hide Apply, Enabled, HandledEvent, Held;
    StartedIsOrdered(workers);
    EveryRunIsOrdered(hash, Started(workers), events, t);
    assert AllHandled(Started(workers), c);
    RunKeepsHandled(hash, Started(workers), events, t, c);
  }

  // ---------------------------------------------------------------- requests that are never answered

  /** Nothing of the connection is under way, and no request is read from it. */
  ghost predicate Silent(s: State, c: nat) {
    && c < |s.conns| && s.conns[c].idle.None? && !s.conns[c].reading && s.conns[c].writes == 0 && Held(s, c) == 0
  }

  lemma SilentStep(hash: Hash, s: State, e: Event, c: nat)
    requires Ordered(s) && Safe(s) && Enabled(s, e) && Silent(s, c)
    ensures var t := Apply(hash, s, e); c < |t.conns| && t.conns[c] == s.conns[c]
  {
    hide WorkerStep, OnSend, Safe, Waiting, AtWorkers;
    if e.Work? {
      NotHeldAtWorker(s, c, e.worker);
    }
  }

  lemma SilentNext(s: State, t: State, c: nat)
    requires Ordered(s) && Ordered(t) && Silent(s, c) && c < |t.conns| && t.conns[c] == s.conns[c]
    ensures Silent(t, c)
  {
    hide Held;
    assert Disciplined(s.conns[c], Held(s, c)) && Disciplined(t.conns[c], Held(t, c));
  }

  /** Such a connection stays as it is for ever: no later event of any run changes it. */
  lemma {:induction false} SilentStays(hash: Hash, s: State, events: seq<Event>, t: State, c: nat)
    requires Ordered(s) && Safe(s) && Silent(s, c) && Run(hash, s, events, t)
    ensures c < |t.conns| && t.conns[c] == s.conns[c]
    decreases |events|
  {
    assert Silent(s, c) ==> c < |s.conns|;
    hide Ordered, Safe, Apply, Enabled, Silent;
    if events != [] {
      var next := Apply(hash, s, events[0]);
      SilentStep(hash, s, events[0], c);
      ApplyKeepsOrder(hash, s, events[0]);
      ApplyIsSafe(hash, s, events[0]);
      SilentNext(s, next, c);
      SilentStays(hash, next, events[1..], t, c);
    }
  }

  lemma DroppedIsSilent(s: State, c: nat)
    requires Ordered(s) && c < |s.conns| && s.conns[c].idle.None? && s.conns[c].dropped > 0
    ensures Silent(s, c)
  {
    hide Held;
    assert Disciplined(s.conns[c], Held(s, c));
  }

  /** A connection that had a request dropped. */
  lemma DroppedStaysSilent(hash: Hash, s: State, events: seq<Event>, t: State, c: nat)
    requires Ordered(s) && Safe(s) && c < |s.conns| && s.conns[c].idle.None? && s.conns[c].dropped > 0
    requires Run(hash, s, events, t)
    ensures c < |t.conns| && t.conns[c] == s.conns[c]
  {
    DroppedIsSilent(s, c);
    hide Ordered, Safe, Silent;
    SilentStays(hash, s, events, t, c);
  }

  /** And one whose request could not be read. */
  lemma FailedReadIsSilent(hash: Hash, s: State, c: nat, events: seq<Event>, t: State)
    requires Ordered(s) && Safe(s) && Enabled(s, ReadError(c)) && s.conns[c].idle.None?
    requires Run(hash, Apply(hash, s, ReadError(c)), events, t)
    ensures c < |t.conns| && t.conns[c] == s.conns[c].(reading := false)
  {
    ApplyKeepsOrder(hash, s, ReadError(c));
    ApplyIsSafe(hash, s, ReadError(c));
    FailedReadStops(hash, s, c);
    hide Ordered, Safe, Silent, Run;
    SilentStays(hash, Apply(hash, s, ReadError(c)), events, t, c);
  }

  lemma FailedReadStops(hash: Hash, s: State, c: nat)
    requires Ordered(s) && Enabled(s, ReadError(c)) && s.conns[c].idle.None?
    ensures var u := Apply(hash, s, ReadError(c)); Silent(u, c) && u.conns[c] == s.conns[c].(reading := false)
  {
    assert Disciplined(s.conns[c], Held(s, c));
    hide Waiting, AtWorkers;
  }

  lemma ConnsGrow(hash: Hash, s: State, e: Event)
    requires Enabled(s, e)
    ensures |s.conns| <= |Apply(hash, s, e).conns|
  {
    hide WorkerStep, OnSend;
  }

  /** The task of connection `c` is for a command without a branch, and no worker has looked at it yet. */
  ghost predicate Hopeless(s: State, c: nat) {
    && Held(s, c) == 1
    && (forall i :: 0 <= i < |s.queue| && s.queue[i].client == c ==> Unhandled(s.queue[i].cmd))
    && (forall w :: 0 <= w < |s.workers| && WorksFor(s.workers[w], c) ==> s.workers[w].Taken?)
    && (forall w :: 0 <= w < |s.workers| && WorksFor(s.workers[w], c) ==> Unhandled(s.workers[w].task.cmd))
  }

  /** The last request of connection `c` was dropped, or will be. */
  ghost predicate Lost(s: State, c: nat, n: nat) {
    && c < |s.conns| && s.conns[c].idle.None? && s.conns[c].received == n + 1 && n !in s.conns[c].answered
    && (s.conns[c].dropped > 0 || Hopeless(s, c))
  }

  lemma UnhandledIsLost(hash: Hash, s: State, c: nat, cmd: Command, params: Params)
    requires Ordered(s) && Enabled(s, Receive(c, Accepted(cmd, params))) && Unhandled(cmd)
    ensures Lost(Apply(hash, s, Receive(c, Accepted(cmd, params))), c, s.conns[c].received)
  {
    hide Waiting, AtWorkers;
    var t := Apply(hash, s, Receive(c, Accepted(cmd, params)));
    ReadingMeansNotHeld(s, c);
    WaitingPush(s.queue, t.queue[|s.queue|], c);
    forall i | 0 <= i < |t.queue| && t.queue[i].client == c ensures Unhandled(t.queue[i].cmd) {
      if i < |s.queue| { NotHeld(s, c, i); }
    }
    forall w | 0 <= w < |t.workers| ensures !WorksFor(t.workers[w], c) { NotHeldAtWorker(s, c, w); }
  }

  /** The one step a worker makes for such a task. */
  lemma UnhandledStep(hash: Hash, s: Storage, pc: Pc, choice: Choice)
    requires CanStep(s, pc, choice) && pc.Taken? && Unhandled(pc.task.cmd)
    ensures WorkerStep(hash, s, pc, choice) == Goes(s, Free)
  {
    hide CreateUser, ByName, CheckPass;
  }

  lemma LostAtWorker(hash: Hash, s: State, w: nat, choice: Choice, c: nat, n: nat)
    requires Lost(s, c, n) && s.conns[c].dropped == 0 && Enabled(s, Work(w, choice)) && WorksFor(s.workers[w], c)
    ensures Lost(Apply(hash, s, Work(w, choice)), c, n)
  {
    hide Held;
    UnhandledStep(hash, s.store, s.workers[w], choice);
    hide WorkerStep, CanStep;
  }

  lemma LostBeside(s: State, t: State, w: nat, out: Outcome, c: nat, n: nat)
    requires Lost(s, c, n) && s.conns[c].dropped == 0 && Worked(s, t, w, out) && !WorksFor(s.workers[w], c)
    requires !out.pc.Free? ==> out.pc.task == s.workers[w].task
    ensures Lost(t, c, n)
  {
    hide Waiting, AtWorkers, OnSend;
    AtWorkersUpdate(s.workers, w, out.pc, c);
  }

  lemma LostBesideWorker(hash: Hash, s: State, w: nat, choice: Choice, c: nat, n: nat)
    requires Enabled(s, Work(w, choice)) && Safe(s) && Lost(s, c, n) && s.conns[c].dropped == 0
    requires !WorksFor(s.workers[w], c)
    ensures Lost(Apply(hash, s, Work(w, choice)), c, n)
  {
    assert w < |s.workers| && !s.workers[w].Free? && CanStep(s.store, s.workers[w], choice);
    hide *;
    var out := WorkerStep(hash, s.store, s.workers[w], choice);
    ApplyIsSafe(hash, s, Work(w, choice));
    WorkShape(hash, s, w, choice);
    StepFacts(s.store, s.workers[w], out);
    LostBeside(s, Apply(hash, s, Work(w, choice)), w, out, c, n);
  }

  lemma LostAtTake(hash: Hash, s: State, w: nat, c: nat, n: nat)
    requires Lost(s, c, n) && s.conns[c].dropped == 0 && Enabled(s, Take(w))
    ensures Lost(Apply(hash, s, Take(w)), c, n)
  {
    WaitingPop(s.queue, c);
    AtWorkersUpdate(s.workers, w, Taken(s.queue[0]), c);
    hide Waiting, AtWorkers;
  }

  /** A task of another connection is queued. */
  lemma LostBesideTask(s: State, t: State, c: nat, n: nat)
    requires Lost(s, c, n) && s.conns[c].dropped == 0 && c < |t.conns| && t.conns[c] == s.conns[c]
    requires t.workers == s.workers
    requires t.queue == s.queue ||
      (t.queue != [] && t.queue[..|t.queue| - 1] == s.queue && t.queue[|t.queue| - 1].client != c)
    ensures Lost(t, c, n)
  {
    hide Waiting, AtWorkers;
    if t.queue != s.queue {
      assert t.queue == s.queue + [t.queue[|s.queue|]];
      WaitingPush(s.queue, t.queue[|s.queue|], c);
    }
  }

  /** A connection with a task under way does nothing else. */
  lemma LostIsWaiting(s: State, e: Event, c: nat, n: nat)
    requires Lost(s, c, n) && Ordered(s) && s.conns[c].dropped == 0 && Enabled(s, e)
    ensures e.Receive? || e.ReadError? || e.Wrote? || e.Tick? || e.IdleWrote? ==> e.client != c
  {
    assert Disciplined(s.conns[c], Held(s, c));
    hide Ordered, Held;
  }

  lemma LostAtOther(hash: Hash, s: State, e: Event, c: nat, n: nat)
    requires Lost(s, c, n) && Ordered(s) && s.conns[c].dropped == 0 && Enabled(s, e) && !e.Work? && !e.Take?
    ensures Lost(Apply(hash, s, e), c, n)
  {
    assert c < |s.conns|;
    hide Lost, Ordered, OnTick, OnIdleWrote, OnReceive;
    LostIsWaiting(s, e, c, n);
    LostBesideTask(s, Apply(hash, s, e), c, n);
  }

  lemma LostStays(hash: Hash, s: State, e: Event, c: nat, n: nat)
    requires Lost(s, c, n) && Ordered(s) && Safe(s) && Enabled(s, e)
    ensures Lost(Apply(hash, s, e), c, n)
  {
    hide Ordered, Safe, Enabled, Apply, Hopeless;
    if s.conns[c].dropped > 0 {
      ConnsGrow(hash, s, e);
      DroppedIsSilent(s, c);
      SilentStep(hash, s, e, c);
    } else {
      hide Lost;
      match e {
        case Work(w, choice) =>
          EnabledWorker(s, w, choice);
          if WorksFor(s.workers[w], c) {
            LostAtWorker(hash, s, w, choice, c, n);
          } else {
            LostBesideWorker(hash, s, w, choice, c, n);
          }
        case Take(w) => LostAtTake(hash, s, w, c, n);
        case _ => LostAtOther(hash, s, e, c, n);
      }
    }
  }

  /** On no run is it ever answered. */
  lemma {:induction false} LostForEver(hash: Hash, s: State, events: seq<Event>, t: State, c: nat, n: nat)
    requires Lost(s, c, n) && Ordered(s) && Safe(s) && Run(hash, s, events, t)
    ensures Lost(t, c, n)
    decreases |events|
  {
    hide Lost, Ordered, Safe, Apply, Enabled;
    if events != [] {
      LostStays(hash, s, events[0], c, n);
      ApplyKeepsOrder(hash, s, events[0]);
      ApplyIsSafe(hash, s, events[0]);
      LostForEver(hash, Apply(hash, s, events[0]), events[1..], t, c, n);
    }
  }

  // ---------------------------------------------------------------- every task ends

  /** How far a worker is from the end of its task: the stage, and what is left to do in it. */
  function Stage(pc: Pc): nat {
    match pc
    case Free => 0
    case Taken(_) => 8
    case Checked(_, _) => 7
    case Peered(_, _, _) => 6
    case HaveChat(_, _, _, _) => 5
    case Half(_, _, _, _) => 5
    case Beaten(_, _) => 4
    case Chats(_, _, _) => 3
    case Poll(_, _, _) => 2
    case Format(_, _, _) => 1
    case FormatFrom(_, _, _, _) => 1
  }

  function Left(pc: Pc): int {
    match pc
    case Chats(_, ids, _) => |ids|
    case Poll(_, chats, _) => |chats|
    case Format(_, entries, done) => 2 * (|entries| - |done|)
    case FormatFrom(_, entries, done, _) => 2 * (|entries| - |done|) - 1
    case _ => 0
  }

  /** Each step brings the worker closer to the end, where it has sent its one response. */
  lemma TasksEnd(hash: Hash, s: Storage, pc: Pc, choice: Choice)
    requires CanStep(s, pc, choice) && PcOk(s, pc)
    ensures var next := WorkerStep(hash, s, pc, choice).pc;
      Stage(next) < Stage(pc) || (Stage(next) == Stage(pc) && 0 <= Left(next) < Left(pc))
  {
    hide CreateUser, ByName, CheckPass, CreateChat, FindPeer, FindRecipient, FindChat, SelectMessages, GetMessages;
    hide Selected, SaveMessage;
    hide LookupUserById, LookupChatById, ChatIdsOf, PageEntries, UpdateUserHeartBit;
    SubSteps(hash, s, pc);
  }

  lemma SubSteps(hash: Hash, s: Storage, pc: Pc)
    ensures !pc.Free? ==> Stage(CheckPass(hash, s, pc.task).pc) <= 7
    ensures pc.Checked? ==> forall name :: Stage(FindPeer(hash, s, pc.task, pc.user, name).pc) <= 6
    ensures pc.Checked? ==> Stage(FindRecipient(s, pc.task, pc.user).pc) <= 6
    ensures !pc.Free? ==> forall user, peer :: Stage(FindChat(s, pc.task, user, peer).pc) <= 5
  {
    hide LookupUserById, LookupUserByName, LookupChatByName;
  }
}
