/** No worker ever gets stuck, so from every reachable state all tasks can be finished, and then every request
has been answered exactly once. */
module Progress {
  import opened Store
  import opened History
  import opened Server
  import opened WorkerSafety
  import opened Discipline

  // ---------------------------------------------------------------- a sort exists

  function Insert(sorted: seq<Message>, m: Message): seq<Message> {
    if sorted == [] || sorted[0].ts <= m.ts then [m] + sorted else [sorted[0]] + Insert(sorted[1..], m)
  }

  function InsertionSort(ms: seq<Message>): seq<Message> {
    if ms == [] then [] else Insert(InsertionSort(ms[1..]), ms[0])
  }

  lemma {:induction false} InsertPermutes(sorted: seq<Message>, m: Message)
    ensures multiset(Insert(sorted, m)) == multiset(sorted) + multiset{m}
  {
    if sorted != [] && sorted[0].ts > m.ts {
      InsertPermutes(sorted[1..], m);
      assert sorted == [sorted[0]] + sorted[1..];
    }
  }

  lemma ConsSorted(x: Message, rest: seq<Message>)
    requires SortedDesc(rest) && forall m :: m in multiset(rest) ==> m.ts <= x.ts
    ensures SortedDesc([x] + rest)
  {
    assert forall i :: 0 <= i < |rest| ==> rest[i] in multiset(rest);
  }

  lemma {:induction false} InsertSorts(sorted: seq<Message>, m: Message)
    requires SortedDesc(sorted)
    ensures SortedDesc(Insert(sorted, m))
  {
    if sorted != [] && sorted[0].ts > m.ts {
      InsertSorts(sorted[1..], m);
      InsertPermutes(sorted[1..], m);
      ConsSorted(sorted[0], Insert(sorted[1..], m));
    }
  }

  lemma {:induction false} SortExists(ms: seq<Message>)
    ensures IsSortOf(InsertionSort(ms), ms)
  {
    if ms != [] {
      SortExists(ms[1..]);
      InsertSorts(InsertionSort(ms[1..]), ms[0]);
      InsertPermutes(InsertionSort(ms[1..]), ms[0]);
      assert ms == [ms[0]] + ms[1..];
    }
  }

  function ChoiceFor(s: Storage, pc: Pc): Choice {
    Choice(0, if pc.Half? then InsertionSort(MessagesFrom(s, pc.user, pc.peer, pc.task.request.count) + pc.to) else [])
  }

  /** A busy worker can always make its next step. */
  lemma BusyWorkerCanStep(s: Storage, pc: Pc)
    requires PcOk(s, pc) && !pc.Free?
    ensures CanStep(s, pc, ChoiceFor(s, pc))
  {
    hide InsertionSort, IsSortOf, SelectMessages;
    if pc.Half? { SortExists(MessagesFrom(s, pc.user, pc.peer, pc.task.request.count) + pc.to); }
  }

  // ---------------------------------------------------------------- one task

  /** The connection after its task ended: one more response, unless the command has no branch or is a poll. */
  ghost predicate Answered(conn: Conn, after: Conn, task: Task) {
    !task.cmd.IDLE? && !Unhandled(task.cmd) ==>
      after.answered == conn.answered + [task.number] && after.received == conn.received
  }

  ghost predicate Busy(s: State, w: nat) {
    w < |s.workers| && !s.workers[w].Free? && s.workers[w].task.client < |s.conns|
  }

  lemma OneStep(hash: Hash, s: State, w: nat) returns (e: Event)
    requires Safe(s) && Ordered(s) && Busy(s, w)
    ensures Enabled(s, e) && e.Work? && e.worker == w && Safe(Apply(hash, s, e)) && Ordered(Apply(hash, s, e))
    ensures var t := Apply(hash, s, e);
      var pc, next, c := s.workers[w], t.workers[w], s.workers[w].task.client;
      && t.workers == s.workers[w := next] && t.queue == s.queue && |t.conns| == |s.conns|
      && (next.Free? ==> Answered(s.conns[c], t.conns[c], pc.task))
      && (!next.Free? ==> next.task == pc.task && t.conns[c] == s.conns[c])
      && (Stage(next) < Stage(pc) || (Stage(next) == Stage(pc) && 0 <= Left(next) < Left(pc)))
  {
    var pc := s.workers[w];
    assert PcOk(s.store, pc);
    BusyWorkerCanStep(s.store, pc);
    e := Work(w, ChoiceFor(s.store, pc));
    var out := WorkerStep(hash, s.store, pc, e.choice);
    ApplyIsSafe(hash, s, e);
    ApplyKeepsOrder(hash, s, e);
    WorkShape(hash, s, w, e.choice);
    TasksEnd(hash, s.store, pc, e.choice);
    StepFacts(s.store, pc, out);
    SendAnswers(s.conns[pc.task.client], pc.task, out);
    hide Safe, Ordered, Apply, WorkerStep, CanStep, StepOk, OnSend, Stage, Left, ChoiceFor, PcOk, Answered;
  }

  lemma SendAnswers(conn: Conn, task: Task, out: Outcome)
    requires out.send.Some? ==> out.pc.Free? && (out.send.value.IdleMessages? ==> task.cmd.IDLE?)
    requires out.send.None? && out.pc.Free? ==> task.cmd.IDLE? || Unhandled(task.cmd)
    ensures if out.pc.Free? then Answered(conn, OnSend(conn, task, out), task) else OnSend(conn, task, out) == conn
  {
  }

  /** Worker `w` alone can finish its task. */
  lemma {:induction false} FinishTask(hash: Hash, s: State, w: nat) returns (events: seq<Event>, t: State)
    requires Safe(s) && Ordered(s) && Busy(s, w)
    ensures Run(hash, s, events, t) && forall i :: 0 <= i < |events| ==> events[i].Work? && events[i].worker == w
    ensures Safe(t) && Ordered(t) && t.workers == s.workers[w := Free] && t.queue == s.queue && |t.conns| == |s.conns|
    ensures var task := s.workers[w].task; Answered(s.conns[task.client], t.conns[task.client], task)
    decreases Stage(s.workers[w]), Left(s.workers[w])
  {
    var e := OneStep(hash, s, w);
    var next := Apply(hash, s, e);
    hide Safe, Ordered, Apply, Enabled, Stage, Left, Answered;
    if next.workers[w].Free? {
      events, t := [e], next;
      assert Run(hash, next, [], t);
    } else {
      var more, end := FinishTask(hash, next, w);
      events, t := [e] + more, end;
      assert events[1..] == more;
    }
  }

  // ---------------------------------------------------------------- all tasks

  predicate WorkerEvents(events: seq<Event>) {
    forall i :: 0 <= i < |events| ==> events[i].Work? || events[i].Take?
  }

  function BusyCount(workers: seq<Pc>): nat {
    if workers == [] then 0 else BusyCount(workers[..|workers| - 1]) + One(!workers[|workers| - 1].Free?)
  }

  lemma {:induction false} SomeoneIsBusy(workers: seq<Pc>) returns (w: nat)
    requires BusyCount(workers) > 0
    ensures w < |workers| && !workers[w].Free?
  {
    w := |workers| - 1;
    if workers[w].Free? { w := SomeoneIsBusy(workers[..w]); }
  }

  lemma {:induction false} NobodyIsBusy(workers: seq<Pc>)
    requires BusyCount(workers) == 0
    ensures forall w :: 0 <= w < |workers| ==> workers[w].Free?
  {
    if workers != [] { NobodyIsBusy(workers[..|workers| - 1]); }
  }

  lemma {:induction false} OneLessBusy(workers: seq<Pc>, w: nat)
    requires w < |workers| && !workers[w].Free?
    ensures BusyCount(workers[w := Free]) == BusyCount(workers) - 1
  {
    var last := |workers| - 1;
    if w < last {
      OneLessBusy(workers[..last], w);
      assert workers[w := Free][..last] == workers[..last][w := Free];
    } else {
      assert workers[w := Free][..last] == workers[..last];
    }
  }

  lemma TakeTask(hash: Hash, s: State)
    requires Safe(s) && Ordered(s) && |s.workers| > 0 && s.workers[0].Free? && s.queue != []
    ensures Enabled(s, Take(0)) && Busy(Apply(hash, s, Take(0)), 0)
    ensures var t := Apply(hash, s, Take(0));
      Safe(t) && Ordered(t) && t.queue == s.queue[1..] && t.workers == s.workers[0 := t.workers[0]]
  {
    ApplyIsSafe(hash, s, Take(0));
    ApplyKeepsOrder(hash, s, Take(0));
    assert TaskOk(s.conns, s.queue[0]);
    hide Safe, Ordered, Waiting, AtWorkers;
  }

  /** From any safe and ordered state the workers alone can empty the queue and finish all tasks. */
  lemma {:induction false} WorkersCanFinish(hash: Hash, s: State) returns (events: seq<Event>, t: State)
    requires Safe(s) && Ordered(s) && |s.workers| > 0
    ensures Run(hash, s, events, t) && WorkerEvents(events)
    ensures Safe(t) && Ordered(t) && t.queue == [] && forall w :: 0 <= w < |t.workers| ==> t.workers[w].Free?
    decreases |s.queue|, BusyCount(s.workers)
  {
    hide Safe, Apply, Enabled, Held, Disciplined;
    if BusyCount(s.workers) > 0 {
      var w := SomeoneIsBusy(s.workers);
      assert TaskOk(s.conns, s.workers[w].task);
      hide Ordered;
      var work, mid := FinishTask(hash, s, w);
      OneLessBusy(s.workers, w);
      var rest, end := WorkersCanFinish(hash, mid);
      RunJoin(hash, s, work, mid, rest, end);
      events, t := work + rest, end;
    } else {
      hide Ordered;
      NobodyIsBusy(s.workers);
      if s.queue == [] {
        events, t := [], s;
      } else {
        TakeTask(hash, s);
        var rest, end := WorkersCanFinish(hash, Apply(hash, s, Take(0)));
        events, t := [Take(0)] + rest, end;
        assert events[1..] == rest;
      }
    }
  }

  lemma {:induction false} KeepsWorkers(hash: Hash, s: State, events: seq<Event>, t: State)
    requires Run(hash, s, events, t)
    ensures |t.workers| == |s.workers| && |s.conns| <= |t.conns|
    decreases |events|
  {
    if events != [] {
      SameWorkers(hash, s, events[0]);
      hide Enabled, Apply;
      KeepsWorkers(hash, Apply(hash, s, events[0]), events[1..], t);
    }
  }

  lemma SameWorkers(hash: Hash, s: State, e: Event)
    requires Enabled(s, e)
    ensures |Apply(hash, s, e).workers| == |s.workers| && |s.conns| <= |Apply(hash, s, e).conns|
  {
    hide WorkerStep, OnSend;
  }

  /** With no task under way and no request dropped, everything is answered. */
  lemma NothingUnderWay(s: State, c: nat)
    requires Ordered(s) && s.queue == [] && (forall w :: 0 <= w < |s.workers| ==> s.workers[w].Free?)
    requires c < |s.conns| && s.conns[c].idle.None?
    ensures Held(s, c) == 0 && Disciplined(s.conns[c], 0)
  {
    NoneWaiting(s.queue, c);
    NoneAtWorkers(s.workers, c);
  }

  // ---------------------------------------------------------------- answered if and only if there is a branch

  lemma HandledAfterReceive(hash: Hash, s: State, c: nat, cmd: Command, params: Params)
    requires Ordered(s) && Safe(s) && Enabled(s, Receive(c, Accepted(cmd, params))) && !Unhandled(cmd)
    ensures AllHandled(Apply(hash, s, Receive(c, Accepted(cmd, params))), c)
  {
    var t := Apply(hash, s, Receive(c, Accepted(cmd, params)));
    ReadingMeansNotHeld(s, c);
    hide Safe, Waiting, AtWorkers;
    forall i | 0 <= i < |t.queue| && t.queue[i].client == c ensures !Unhandled(t.queue[i].cmd) {
      if i < |s.queue| { NotHeld(s, c, i); }
    }
    forall w | 0 <= w < |t.workers| ensures !WorksFor(t.workers[w], c) { NotHeldAtWorker(s, c, w); }
  }

  lemma WorkersDropNothing(events: seq<Event>, c: nat)
    requires WorkerEvents(events)
    ensures forall i :: 0 <= i < |events| ==> HandledEvent(events[i], c)
  {
  }

  lemma {:induction false} WorkersKeepKind(hash: Hash, s: State, events: seq<Event>, t: State, c: nat)
    requires WorkerEvents(events) && Run(hash, s, events, t) && c < |s.conns|
    ensures c < |t.conns| && t.conns[c].idle.Some? == s.conns[c].idle.Some?
    ensures t.conns[c].received == s.conns[c].received
    decreases |events|
  {
    if events != [] {
      KindStays(hash, s, events[0], c);
      hide Enabled, Apply;
      WorkersKeepKind(hash, Apply(hash, s, events[0]), events[1..], t, c);
    }
  }

  lemma KindStays(hash: Hash, s: State, e: Event, c: nat)
    requires Enabled(s, e) && (e.Work? || e.Take?) && c < |s.conns|
    ensures var t := Apply(hash, s, e);
      c < |t.conns| && t.conns[c].idle.Some? == s.conns[c].idle.Some? && t.conns[c].received == s.conns[c].received
  {
    hide WorkerStep;
  }

  /** The workers answer a request for a command with a branch. */
  lemma HandledIsAnswered(hash: Hash, s: State, c: nat, cmd: Command, params: Params)
    returns (events: seq<Event>, u: State)
    requires Ordered(s) && Safe(s) && |s.workers| > 0 && Enabled(s, Receive(c, Accepted(cmd, params)))
    requires !Unhandled(cmd)
    ensures WorkerEvents(events) && Run(hash, Apply(hash, s, Receive(c, Accepted(cmd, params))), events, u)
    ensures c < |u.conns| && InRequestOrder(u.conns[c].answered) && |u.conns[c].answered| == s.conns[c].received + 1
  {
    var e := Receive(c, Accepted(cmd, params));
    var t := Apply(hash, s, e);
    HandledAfterReceive(hash, s, c, cmd, params);
    ApplyKeepsOrder(hash, s, e);
    ApplyIsSafe(hash, s, e);
    SameWorkers(hash, s, e);
    assert c < |t.conns| && t.conns[c].idle.None? && t.conns[c].received == s.conns[c].received + 1;
    hide Apply, Enabled, Ordered, Safe, AllHandled, HandledEvent;
    events, u := WorkersCanFinish(hash, t);
    WorkersDropNothing(events, c);
    RunKeepsHandled(hash, t, events, u, c);
    WorkersKeepKind(hash, t, events, u, c);
    NothingUnderWay(u, c);
    assert u.conns[c].dropped == 0 by { HandledMeansNotDropped(u, c); }
  }

  lemma HandledMeansNotDropped(s: State, c: nat)
    requires AllHandled(s, c) && c < |s.conns|
    ensures s.conns[c].dropped == 0
  {
  }

  /** In every reachable state: a request can ever be answered, on any continuation whatever, if and only if its
  command has a branch in `processQueue`. */
  lemma AnsweredIffHandled(hash: Hash, s: State, c: nat, cmd: Command, params: Params)
    requires Ordered(s) && Safe(s) && |s.workers| > 0 && Enabled(s, Receive(c, Accepted(cmd, params)))
    ensures var t, n := Apply(hash, s, Receive(c, Accepted(cmd, params))), s.conns[c].received;
      (exists events, u :: Run(hash, t, events, u) && c < |u.conns| && n in u.conns[c].answered) <==> !Unhandled(cmd)
  {
    var e := Receive(c, Accepted(cmd, params));
    var t, n := Apply(hash, s, e), s.conns[c].received;
    if Unhandled(cmd) {
      UnhandledIsLost(hash, s, c, cmd, params);
      ApplyKeepsOrder(hash, s, e);
      ApplyIsSafe(hash, s, e);
      hide Apply, Enabled, Ordered, Safe, Run, Hopeless;
      forall events, u | Run(hash, t, events, u) ensures !(c < |u.conns| && n in u.conns[c].answered) {
        LostForEver(hash, t, events, u, c, n);
      }
    } else {
      hide Apply, Ordered, Safe, Run;
      var events, u := HandledIsAnswered(hash, s, c, cmd, params);
      assert u.conns[c].answered[n] == n;
    }
  }

  /** And a request for another command does lead to a dropped request: from every reachable state in which it is
  read the workers reach one, and from there on no run changes the connection any more. */
  lemma UnhandledIsDropped(hash: Hash, s: State, c: nat, cmd: Command, params: Params)
    returns (events: seq<Event>, u: State)
    requires Ordered(s) && Safe(s) && |s.workers| > 0 && Enabled(s, Receive(c, Accepted(cmd, params))) && Unhandled(cmd)
    ensures WorkerEvents(events) && Run(hash, Apply(hash, s, Receive(c, Accepted(cmd, params))), events, u)
    ensures c < |u.conns| && u.conns[c].dropped > 0 && s.conns[c].received !in u.conns[c].answered
    ensures forall later, v :: Run(hash, u, later, v) ==> c < |v.conns| && v.conns[c] == u.conns[c]
  {
    var e, n := Receive(c, Accepted(cmd, params)), s.conns[c].received;
    var t := Apply(hash, s, e);
    UnhandledIsLost(hash, s, c, cmd, params);
    ApplyKeepsOrder(hash, s, e);
    ApplyIsSafe(hash, s, e);
    SameWorkers(hash, s, e);
    hide Apply, Enabled, Ordered, Safe, Run, Hopeless;
    events, u := WorkersCanFinish(hash, t);
    LostForEver(hash, t, events, u, c, n);
    NothingUnderWay(u, c);
    assert u.conns[c].dropped > 0 by { HopelessIsHeld(u, c); }
    forall later, v | Run(hash, u, later, v) ensures c < |v.conns| && v.conns[c] == u.conns[c] {
      DroppedStaysSilent(hash, u, later, v, c);
    }
  }

  lemma HopelessIsHeld(s: State, c: nat)
    ensures Hopeless(s, c) ==> Held(s, c) == 1
  {
  }
}
