/** Which request a task and its response belong to, and the order in which tasks are taken. */
module Requests {
  import opened StoreInvariant
  import opened Server
  import opened WorkerSafety
  import opened Effects

  // ---------------------------------------------------------------- the request behind a task

  /** How many requests of connection `c` were read. */
  function Received(events: seq<Event>, c: nat): nat {
    if events == [] then 0
    else
      var last := events[|events| - 1];
      Received(events[..|events| - 1], c) + (if last.Receive? && last.client == c then 1 else 0)
  }

  /** The task is for the request of its number on its connection, with that command and those parameters. */
  ghost predicate Asked(events: seq<Event>, task: Task) {
    exists k :: 0 <= k < |events|
      && events[k] == Receive(task.client, Accepted(task.cmd, task.request))
      && Received(events[..k], task.client) == task.number
  }

  /** The connection went idle with these parameters, but for the watermark. */
  ghost predicate WentIdle(events: seq<Event>, c: nat, params: Params) {
    exists ts :: Receive(c, StartIdle(params.(ts := ts))) in events
  }

  /** The connection went idle with its parameters and, as its watermark, the timestamp of that request. */
  ghost predicate Began(events: seq<Event>, c: nat, idle: Idle) {
    Receive(c, StartIdle(idle.params.(ts := idle.start))) in events
  }

  ghost predicate HasRequest(events: seq<Event>, task: Task) {
    if task.cmd.IDLE? then WentIdle(events, task.client, task.request) else Asked(events, task)
  }

  ghost predicate ConnSeen(events: seq<Event>, c: nat, conn: Conn) {
    conn.received == Received(events, c) && (conn.idle.Some? ==> Began(events, c, conn.idle.value))
  }

  ghost predicate AllSeen(events: seq<Event>, s: State) {
    && (forall i :: 0 <= i < |s.queue| ==> HasRequest(events, s.queue[i]))
    && (forall w :: 0 <= w < |s.workers| && !s.workers[w].Free? ==> HasRequest(events, s.workers[w].task))
    && (forall c :: 0 <= c < |s.conns| ==> ConnSeen(events, c, s.conns[c]))
    && (forall c :: c >= |s.conns| ==> Received(events, c) == 0)
  }

  lemma RequestStays(events: seq<Event>, e: Event, task: Task)
    requires HasRequest(events, task)
    ensures HasRequest(events + [e], task)
  {
    var more := events + [e];
    if task.cmd.IDLE? {
      IdleStays(events, e, task.client, task.request);
    } else {
      var k :| 0 <= k < |events| && events[k] == Receive(task.client, Accepted(task.cmd, task.request))
        && Received(events[..k], task.client) == task.number;
      assert more[k] == events[k] && more[..k] == events[..k];
    }
  }

  lemma IdleStays(events: seq<Event>, e: Event, c: nat, params: Params)
    requires WentIdle(events, c, params)
    ensures WentIdle(events + [e], c, params)
  {
    var ts :| Receive(c, StartIdle(params.(ts := ts))) in events;
    assert Receive(c, StartIdle(params.(ts := ts))) in events + [e];
  }

  lemma ReceivedSnoc(events: seq<Event>, e: Event, c: nat)
    ensures Received(events + [e], c) == Received(events, c) + (if e.Receive? && e.client == c then 1 else 0)
  {
    assert (events + [e])[..|events|] == events;
  }

  /** More events, with the same state. */
  lemma SeenStays(events: seq<Event>, e: Event, s: State)
    requires AllSeen(events, s)
    ensures forall i :: 0 <= i < |s.queue| ==> HasRequest(events + [e], s.queue[i])
    ensures forall w :: 0 <= w < |s.workers| && !s.workers[w].Free? ==> HasRequest(events + [e], s.workers[w].task)
    ensures forall c :: 0 <= c < |s.conns| && s.conns[c].idle.Some? ==> Began(events + [e], c, s.conns[c].idle.value)
    ensures forall c: nat ::
      (var before := if c < |s.conns| then s.conns[c].received else 0;
       Received(events + [e], c) == before + (if e.Receive? && e.client == c then 1 else 0))
  {
    hide HasRequest, WentIdle, Received;
    forall i | 0 <= i < |s.queue| ensures HasRequest(events + [e], s.queue[i]) { RequestStays(events, e, s.queue[i]); }
    forall w | 0 <= w < |s.workers| && !s.workers[w].Free? ensures HasRequest(events + [e], s.workers[w].task) {
      RequestStays(events, e, s.workers[w].task);
    }
    forall c | 0 <= c < |s.conns| && s.conns[c].idle.Some? ensures Began(events + [e], c, s.conns[c].idle.value) {
      assert Began(events, c, s.conns[c].idle.value);
    }
    forall c: nat
      ensures Received(events + [e], c) == Received(events, c) + (if e.Receive? && e.client == c then 1 else 0)
    {
      ReceivedSnoc(events, e, c);
    }
  }

  lemma NowAsked(events: seq<Event>, task: Task)
    requires Received(events, task.client) == task.number
    ensures Asked(events + [Receive(task.client, Accepted(task.cmd, task.request))], task)
  {
    var more := events + [Receive(task.client, Accepted(task.cmd, task.request))];
    assert more[..|events|] == events && more[|events|] == Receive(task.client, Accepted(task.cmd, task.request));
  }

  lemma NowIdle(events: seq<Event>, c: nat, params: Params)
    ensures Receive(c, StartIdle(params.(ts := params.ts))) in events + [Receive(c, StartIdle(params))]
  {
    assert params.(ts := params.ts) == params;
  }

  /** The watermark may have moved. */
  lemma BeganMeansIdle(events: seq<Event>, c: nat, idle: Idle, params: Params)
    requires Began(events, c, idle) && params.(ts := idle.start) == idle.params.(ts := idle.start)
    ensures WentIdle(events, c, params)
  {
    assert Receive(c, StartIdle(params.(ts := idle.start))) in events;
  }

  lemma ReceiveKeepsTasks(hash: Hash, s: State, events: seq<Event>, c: nat, request: Request)
    requires AllSeen(events, s) && Enabled(s, Receive(c, request))
    ensures var t, more := Apply(hash, s, Receive(c, request)), events + [Receive(c, request)];
      && (forall i :: 0 <= i < |t.queue| ==> HasRequest(more, t.queue[i]))
      && (forall w :: 0 <= w < |t.workers| && !t.workers[w].Free? ==> HasRequest(more, t.workers[w].task))
  {
    hide HasRequest, WentIdle, Received, Began, OnReceive, ConnSeen;
    SeenStays(events, Receive(c, request), s);
    NewTaskHasRequest(s, events, c, request);
  }

  lemma NewTaskHasRequest(s: State, events: seq<Event>, c: nat, request: Request)
    requires AllSeen(events, s) && Enabled(s, Receive(c, request))
    ensures request.Accepted? ==>
      HasRequest(events + [Receive(c, request)], Task(request.cmd, request.params, c, s.conns[c].received, false))
  {
    assert ConnSeen(events, c, s.conns[c]);
    if request.Accepted? { NowAsked(events, Task(request.cmd, request.params, c, s.conns[c].received, false)); }
    hide Asked, WentIdle, Received, Began;
  }

  lemma ReceiveKeepsConns(hash: Hash, s: State, events: seq<Event>, c: nat, request: Request)
    requires AllSeen(events, s) && Enabled(s, Receive(c, request))
    ensures var t, more := Apply(hash, s, Receive(c, request)), events + [Receive(c, request)];
      && (forall d :: 0 <= d < |t.conns| ==> ConnSeen(more, d, t.conns[d]))
      && (forall d :: d >= |t.conns| ==> Received(more, d) == 0)
  {
    SeenStays(events, Receive(c, request), s);
    var more := events + [Receive(c, request)];
    if request.StartIdle? { NowIdle(events, c, request.params); }
    var conn := OnReceive(s.conns[c], request);
    assert conn.idle.Some? ==> Began(more, c, conn.idle.value);
    hide HasRequest, Received, Began, OnReceive;
    ReceiveCounts(s.conns[c], request);
  }

  lemma ReceiveCounts(conn: Conn, request: Request)
    ensures OnReceive(conn, request).received == conn.received + 1
  {
  }

  lemma ReceiveSeen(hash: Hash, s: State, events: seq<Event>, c: nat, request: Request)
    requires AllSeen(events, s) && Enabled(s, Receive(c, request))
    ensures AllSeen(events + [Receive(c, request)], Apply(hash, s, Receive(c, request)))
  {
    ReceiveKeepsTasks(hash, s, events, c, request);
    ReceiveKeepsConns(hash, s, events, c, request);
    hide HasRequest, ConnSeen, Received, Apply, Enabled;
  }

  lemma TickSeen(hash: Hash, s: State, events: seq<Event>, c: nat, now: nat)
    requires AllSeen(events, s) && Enabled(s, Tick(c, now))
    ensures AllSeen(events + [Tick(c, now)], Apply(hash, s, Tick(c, now)))
  {
    var e := Tick(c, now);
    SeenStays(events, e, s);
    var idle := s.conns[c].idle.value;
    var ts := Max(idle.params.ts, idle.newest);
    assert idle.params.(ts := ts).(ts := idle.start) == idle.params.(ts := idle.start);
    assert Began(events + [e], c, idle);
    BeganMeansIdle(events + [e], c, idle, idle.params.(ts := ts));
    hide Asked, WentIdle, Received, PingDue;
  }

  lemma WorkSeen(hash: Hash, s: State, events: seq<Event>, w: nat, choice: Choice)
    requires Safe(s) && AllSeen(events, s) && Enabled(s, Work(w, choice))
    ensures AllSeen(events + [Work(w, choice)], Apply(hash, s, Work(w, choice)))
  {
    var e := Work(w, choice);
    ApplyIsSafe(hash, s, e);
    SeenStays(events, e, s);
    hide Safe, WorkerStep, HasRequest, WentIdle, Received, Inv, Grows, PcOk, SendOk, CanStep;
  }

  lemma OtherSeen(hash: Hash, s: State, events: seq<Event>, e: Event)
    requires AllSeen(events, s) && Enabled(s, e) && !e.Receive? && !e.Tick? && !e.Work?
    ensures AllSeen(events + [e], Apply(hash, s, e))
  {
    SeenStays(events, e, s);
    hide HasRequest, WentIdle, Received;
  }

  lemma ApplySeen(hash: Hash, s: State, events: seq<Event>, e: Event)
    requires Safe(s) && AllSeen(events, s) && Enabled(s, e)
    ensures AllSeen(events + [e], Apply(hash, s, e))
  {
    hide Safe, AllSeen, Enabled, Apply;
    match e {
      case Receive(c, request) => ReceiveSeen(hash, s, events, c, request);
      case Tick(c, now) => TickSeen(hash, s, events, c, now);
      case Work(w, choice) => WorkSeen(hash, s, events, w, choice);
      case _ => OtherSeen(hash, s, events, e);
    }
  }

  lemma {:induction false} RunSeen(hash: Hash, s: State, before: seq<Event>, events: seq<Event>, t: State)
    requires Safe(s) && AllSeen(before, s) && Run(hash, s, events, t)
    ensures AllSeen(before + events, t)
    decreases |events|
  {
    hide Safe, AllSeen, Enabled, Apply;
    if events == [] {
      assert before + events == before;
    } else {
      ApplySeen(hash, s, before, events[0]);
      ApplyIsSafe(hash, s, events[0]);
      RunSeen(hash, Apply(hash, s, events[0]), before + [events[0]], events[1..], t);
      assert before + [events[0]] + events[1..] == before + events;
    }
  }

  lemma NothingSeen(workers: nat)
    ensures AllSeen([], Started(workers))
  {
  }

  lemma AnswerIsNumbered(hash: Hash, s: State, w: nat, choice: Choice)
    requires Enabled(s, Work(w, choice))
    ensures var task, out := s.workers[w].task, WorkerStep(hash, s.store, s.workers[w], choice);
      var t := Apply(hash, s, Work(w, choice));
      && t.store == out.store
      && (out.send.Some? && !out.send.value.IdleMessages? ==>
            t.conns[task.client].answered == s.conns[task.client].answered + [task.number])
  {
    hide WorkerStep;
  }

  lemma BusyHasRequest(hash: Hash, workers: nat, events: seq<Event>, s: State, w: nat, choice: Choice)
    requires Run(hash, Started(workers), events, s) && Enabled(s, Work(w, choice))
    ensures HasRequest(events, s.workers[w].task)
  {
    StartedIsSafe(workers);
    NothingSeen(workers);
    hide Safe, HasRequest, Run, Started;
    RunSeen(hash, Started(workers), [], events, s);
    assert [] + events == events;
  }

  /** On every run each response belongs to a request that was read: a poll to the start of idling on its connection,
  any other task to the request whose number it carries, and its answer is right for that request's parameters. */
  lemma EveryResponseHasARequest(hash: Hash, workers: nat, events: seq<Event>, s: State, w: nat, choice: Choice)
    requires Run(hash, Started(workers), events, s) && Enabled(s, Work(w, choice))
    requires WorkerStep(hash, s.store, s.workers[w], choice).send.Some?
    ensures var task, send := s.workers[w].task, WorkerStep(hash, s.store, s.workers[w], choice).send.value;
      var t := Apply(hash, s, Work(w, choice));
      && HasRequest(events, task) && Justified(hash, s.store, task, choice.now, t.store, send)
      && (!send.IdleMessages? ==>
            t.conns[task.client].answered == s.conns[task.client].answered + [task.number])
  {
    hide *;
    BusyHasRequest(hash, workers, events, s, w, choice);
    EveryResponseIsJustified(hash, workers, events, s, Work(w, choice));
    AnswerIsNumbered(hash, s, w, choice);
  }

  /** On every run an idle connection has the parameters of its own request to go idle, and began with its timestamp. */
  lemma EveryIdleWasAsked(hash: Hash, workers: nat, events: seq<Event>, s: State, c: nat)
    requires Run(hash, Started(workers), events, s) && c < |s.conns| && s.conns[c].idle.Some?
    ensures var idle := s.conns[c].idle.value; Receive(c, StartIdle(idle.params.(ts := idle.start))) in events
    ensures s.conns[c].received == Received(events, c)
  {
    StartedIsSafe(workers);
    NothingSeen(workers);
    hide Safe, HasRequest, Run, Started;
    RunSeen(hash, Started(workers), [], events, s);
    assert [] + events == events;
  }

  // ---------------------------------------------------------------- first come, first served

  /** The tasks that workers took, in order. */
  ghost function TakenTasks(hash: Hash, s: State, events: seq<Event>, t: State): seq<Task>
    requires Run(hash, s, events, t)
    decreases |events|
  {
    if events == [] then []
    else
      var e, next := events[0], Apply(hash, s, events[0]);
      (if e.Take? && !next.workers[e.worker].Free? then [next.workers[e.worker].task] else [])
      + TakenTasks(hash, next, events[1..], t)
  }

  /** The tasks that requests and ticks put into the queue, in order. */
  ghost function AddedTasks(hash: Hash, s: State, events: seq<Event>, t: State): seq<Task>
    requires Run(hash, s, events, t)
    decreases |events|
  {
    if events == [] then []
    else
      var e, next := events[0], Apply(hash, s, events[0]);
      (if (e.Receive? || e.Tick?) && |next.queue| > |s.queue| then next.queue[|s.queue|..] else [])
      + AddedTasks(hash, next, events[1..], t)
  }

  lemma OneEvent(hash: Hash, s: State, e: Event)
    requires Enabled(s, e)
    ensures var t := Apply(hash, s, e);
      if e.Take? then
        s.queue != [] && e.worker < |t.workers| && !t.workers[e.worker].Free?
        && [t.workers[e.worker].task] + t.queue == s.queue
      else if e.Receive? || e.Tick? then |t.queue| >= |s.queue| && t.queue == s.queue + t.queue[|s.queue|..]
      else t.queue == s.queue
  {
    hide WorkerStep, OnTick, OnReceive, OnSend, OnIdleWrote;
  }

  lemma JoinedOnce<T>(a: seq<T>, taken: seq<T>, q: seq<T>, p: seq<T>, b: seq<T>, more: seq<T>, last: seq<T>)
    requires a + q == p + b && taken + last == q + more
    ensures (a + taken) + last == p + (b + more)
  {
    assert (a + taken) + last == a + (q + more);
    assert a + (q + more) == (a + q) + more;
  }

  /** On every run the tasks taken, followed by those still waiting, are the tasks queued, in that order: none is lost,
  taken twice or overtaken. */
  lemma {:induction false} FirstComeFirstServed(hash: Hash, s: State, events: seq<Event>, t: State)
    requires Run(hash, s, events, t)
    ensures TakenTasks(hash, s, events, t) + t.queue == s.queue + AddedTasks(hash, s, events, t)
    decreases |events|
  {
    if events == [] {
      assert [] + t.queue == s.queue + [];
    } else {
      var e, next := events[0], Apply(hash, s, events[0]);
      OneEvent(hash, s, e);
      hide Apply, Enabled;
      FirstComeFirstServed(hash, next, events[1..], t);
      var a := if e.Take? then [next.workers[e.worker].task] else [];
      var b := if e.Receive? || e.Tick? then next.queue[|s.queue|..] else [];
      assert a + next.queue == s.queue + b;
      JoinedOnce(a, TakenTasks(hash, next, events[1..], t), next.queue, s.queue, b,
                 AddedTasks(hash, next, events[1..], t), t.queue);
    }
  }
}
