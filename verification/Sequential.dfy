/** At most once: on runs where an idle connection polls again only after the write of its previous poll
completed, no stored message is sent to it twice. */
module Sequential {
  import opened Wrappers
  import opened Store
  import opened Server
  import opened WorkerSafety
  import opened Discipline
  import opened Watermark

  /** Polls of connection `c` that are queued, at a worker or being written. */
  function Outstanding(s: State, c: nat): nat
    requires c < |s.conns|
  {
    Held(s, c) + if s.conns[c].idle.Some? then |s.conns[c].idle.value.inFlight| else 0
  }

  /** Connection `c` polls only when no poll of it is outstanding; the others may do as they like. */
  ghost predicate InTurn(s: State, e: Event, c: nat)
    requires Enabled(s, e)
  {
    e.Tick? && e.client == c ==> Outstanding(s, c) == 0
  }

  ghost predicate SequentialRun(hash: Hash, s: State, events: seq<Event>, t: State, c: nat)
    decreases |events|
  {
    if events == [] then s == t
    else
      && Enabled(s, events[0]) && InTurn(s, events[0], c)
      && SequentialRun(hash, Apply(hash, s, events[0]), events[1..], t, c)
  }

  // ---------------------------------------------------------------- the invariant

  predicate UpTo(entries: seq<Entry>, ts: nat) {
    forall k :: 0 <= k < |entries| ==> entries[k].msg.ts <= ts
  }

  predicate AllUpTo(batches: seq<Batch>, ts: nat) {
    forall k :: 0 <= k < |batches| ==> UpTo(batches[k].entries, ts)
  }

  /** Every batch was selected against a watermark that covers all earlier ones. */
  predicate Chained(batches: seq<Batch>) {
    forall k, l :: 0 <= k < l < |batches| ==> UpTo(batches[k].entries, batches[l].since)
  }

  /** One poll at a time, against the current watermark; what was delivered is covered by the next one. */
  predicate TurnOk(idle: Idle, held: nat) {
    && held + |idle.inFlight| <= 1
    && (forall k :: 0 <= k < |idle.inFlight| ==> idle.inFlight[k].since == idle.params.ts)
    && Chained(idle.delivered)
    && AllUpTo(idle.delivered, if held + |idle.inFlight| == 1 then idle.params.ts else Max(idle.params.ts, idle.newest))
  }

  ghost predicate ConnInTurn(conn: Conn, held: nat) {
    conn.idle.Some? ==> TurnOk(conn.idle.value, held)
  }

  /** A task of connection `c`, if that is idle, polls against its watermark. */
  ghost predicate TaskInTurn(conns: seq<Conn>, task: Task, c: nat) {
    task.client == c < |conns| && conns[c].idle.Some? ==> task.request.ts == conns[c].idle.value.params.ts
  }

  ghost predicate TakingTurns(s: State, c: nat) {
    && (forall i :: 0 <= i < |s.queue| ==> TaskInTurn(s.conns, s.queue[i], c))
    && (forall w :: 0 <= w < |s.workers| && !s.workers[w].Free? ==> TaskInTurn(s.conns, s.workers[w].task, c))
    && (c < |s.conns| ==> ConnInTurn(s.conns[c], Held(s, c)))
  }

  // ---------------------------------------------------------------- one connection

  lemma TickTakesTurn(idle: Idle, now: nat)
    requires TurnOk(idle, 0) && |idle.inFlight| == 0
    ensures TurnOk(OnTick(idle, now), 1)
  {
  }

  lemma LargestCovers(entries: seq<Entry>)
    ensures UpTo(entries, MaxTimestamp(entries))
  {
    MaxTimestampIsLargest(entries);
  }

  lemma Covers(batches: seq<Batch>, ts: nat, now: nat)
    requires AllUpTo(batches, ts) && ts <= now
    ensures AllUpTo(batches, now)
  {
    forall k | 0 <= k < |batches| ensures UpTo(batches[k].entries, now) { assert UpTo(batches[k].entries, ts); }
  }

  lemma WroteInTurn(idle: Idle, k: nat, ok: bool, held: nat)
    requires TurnOk(idle, held) && k < |idle.inFlight|
    ensures TurnOk(OnIdleWrote(idle, k, ok), held)
  {
    hide UpTo, MaxTimestamp;
    assert held == 0 && k == 0;
    var b := idle.inFlight[0];
    if ok {
      LargestCovers(b.entries);
      var hi := Max(idle.params.ts, MaxTimestamp(b.entries));
      Covers(idle.delivered, idle.params.ts, hi);
      Covers([b], MaxTimestamp(b.entries), hi);
      var all := idle.delivered + [b];
      assert AllUpTo(all, hi) by { assert [b][0] == b; }
    } else {
      Covers(idle.delivered, idle.params.ts, Max(idle.params.ts, idle.newest));
    }
  }

  /** The end of a task frees the connection's turn or hands it to the write. */
  lemma SendInTurn(conn: Conn, task: Task, out: Outcome, held: nat)
    requires ConnInTurn(conn, held) && held >= 1
    requires conn.idle.Some? ==> task.request.ts == conn.idle.value.params.ts
    requires out.send.Some? ==> out.pc.Free?
    ensures ConnInTurn(OnSend(conn, task, out), held - One(out.pc.Free?))
  {
    hide UpTo, Chained, MaxTimestamp;
    if conn.idle.Some? {
      var idle := conn.idle.value;
      Covers(idle.delivered, idle.params.ts, Max(idle.params.ts, idle.newest));
    }
  }

  // ---------------------------------------------------------------- one event

  /** `t` differs from `s` in connection `d`, which keeps its watermark. */
  lemma ConnChangeKeepsTurns(s: State, t: State, d: nat, conn: Conn, c: nat)
    requires TakingTurns(s, c) && d < |s.conns| && t == s.(conns := s.conns[d := conn])
    requires d == c ==> ConnInTurn(conn, Held(s, c)) && conn.idle.Some? == s.conns[c].idle.Some?
    requires d == c && conn.idle.Some? ==> conn.idle.value.params.ts == s.conns[c].idle.value.params.ts
    ensures TakingTurns(t, c)
  {
    hide TurnOk, Waiting, AtWorkers;
    assert Held(t, c) == Held(s, c);
  }

  lemma NewTurn(s: State, t: State, d: nat, conn: Conn, c: nat)
    requires TakingTurns(s, c) && Held(s, d) == 0 && d < |s.conns| && t == s.(conns := s.conns[d := conn])
    requires ConnInTurn(conn, 0)
    ensures TakingTurns(t, c)
  {
    hide TurnOk, Waiting, AtWorkers;
    assert Held(t, c) == Held(s, c);
    forall i | 0 <= i < |t.queue| ensures TaskInTurn(t.conns, t.queue[i], c) { NotHeld(s, d, i); }
    forall w | 0 <= w < |t.workers| && !t.workers[w].Free? ensures TaskInTurn(t.conns, t.workers[w].task, c) {
      NotHeldAtWorker(s, d, w);
    }
  }

  lemma QueuedForOther(s: State, task: Task, c: nat)
    requires TakingTurns(s, c) && (task.client != c || (c < |s.conns| && s.conns[c].idle.None?))
    ensures TakingTurns(s.(queue := s.queue + [task]), c)
  {
    WaitingPush(s.queue, task, c);
    hide TurnOk, Waiting, AtWorkers;
  }

  lemma ReceiveKeepsTurns(hash: Hash, s: State, d: nat, request: Request, c: nat)
    requires TakingTurns(s, c) && Ordered(s) && Enabled(s, Receive(d, request))
    ensures TakingTurns(Apply(hash, s, Receive(d, request)), c)
  {
    hide Waiting, AtWorkers, Disciplined;
    ReadingMeansNotHeld(s, d);
    var conn := OnReceive(s.conns[d], request);
    NewTurn(s, s.(conns := s.conns[d := conn]), d, conn, c);
    hide TakingTurns, Ordered;
    if request.Accepted? {
      QueuedForOther(s.(conns := s.conns[d := conn]),
                     Task(request.cmd, request.params, d, s.conns[d].received, false), c);
    }
  }

  lemma OwnTickKeepsTurns(hash: Hash, s: State, c: nat, now: nat)
    requires TakingTurns(s, c) && Enabled(s, Tick(c, now)) && InTurn(s, Tick(c, now), c)
    ensures TakingTurns(Apply(hash, s, Tick(c, now)), c)
  {
    hide TurnOk, OnTick, AtWorkers, Waiting;
    var t := Apply(hash, s, Tick(c, now));
    assert ConnInTurn(s.conns[c], 0);
    TickTakesTurn(s.conns[c].idle.value, now);
    WaitingPush(s.queue, t.queue[|s.queue|], c);
    forall i | 0 <= i < |t.queue| ensures TaskInTurn(t.conns, t.queue[i], c) {
      if i < |s.queue| { NotHeld(s, c, i); }
    }
    forall w | 0 <= w < |t.workers| && !t.workers[w].Free? ensures TaskInTurn(t.conns, t.workers[w].task, c) {
      NotHeldAtWorker(s, c, w);
    }
  }

  lemma TickKeepsTurns(hash: Hash, s: State, d: nat, now: nat, c: nat)
    requires TakingTurns(s, c) && Enabled(s, Tick(d, now)) && InTurn(s, Tick(d, now), c)
    ensures TakingTurns(Apply(hash, s, Tick(d, now)), c)
  {
    if d == c {
      OwnTickKeepsTurns(hash, s, c, now);
    } else {
      hide TurnOk, OnTick, Waiting, AtWorkers;
      var conn := s.conns[d].(idle := Some(OnTick(s.conns[d].idle.value, now)));
      ConnChangeKeepsTurns(s, s.(conns := s.conns[d := conn]), d, conn, c);
      hide TakingTurns;
      QueuedForOther(s.(conns := s.conns[d := conn]), TickTask(s.conns[d].idle.value, d, s.conns[d].received, now), c);
    }
  }

  lemma OtherKeepsTurns(hash: Hash, s: State, e: Event, c: nat)
    requires TakingTurns(s, c) && Enabled(s, e) && (e.ReadError? || e.Wrote? || e.IdleWrote?)
    ensures TakingTurns(Apply(hash, s, e), c)
  {
    hide TurnOk, MaxTimestamp, Waiting, AtWorkers;
    var d := e.client;
    if e.IdleWrote? && d == c { WroteInTurn(s.conns[c].idle.value, e.k, e.ok, Held(s, c)); }
    ConnChangeKeepsTurns(s, Apply(hash, s, e), d, Apply(hash, s, e).conns[d], c);
  }

  lemma TakeKeepsTurns(hash: Hash, s: State, w: nat, c: nat)
    requires TakingTurns(s, c) && Enabled(s, Take(w))
    ensures TakingTurns(Apply(hash, s, Take(w)), c)
  {
    WaitingPop(s.queue, c);
    AtWorkersUpdate(s.workers, w, Taken(s.queue[0]), c);
    hide ConnInTurn, Waiting, AtWorkers;
  }

  lemma ConnectKeepsTurns(hash: Hash, s: State, c: nat)
    requires TakingTurns(s, c)
    ensures TakingTurns(Apply(hash, s, Connect), c)
  {
    hide Waiting, AtWorkers, TurnOk;
    assert Held(Apply(hash, s, Connect), c) == Held(s, c);
  }

  lemma WorkKeepsTurns(s: State, t: State, w: nat, out: Outcome, c: nat)
    requires TakingTurns(s, c) && Worked(s, t, w, out) && (out.send.Some? ==> out.pc.Free?)
    requires !out.pc.Free? ==> out.pc.task == s.workers[w].task
    ensures TakingTurns(t, c)
  {
    var pc := s.workers[w];
    var d := pc.task.client;
    AtWorkersUpdate(s.workers, w, out.pc, c);
    SendKeepsWatermark(s.conns[d], pc.task, out);
    if d == c {
      HeldIfAtWorker(s.workers, c, w);
      assert TaskInTurn(s.conns, pc.task, c);
      hide TurnOk, Waiting, AtWorkers;
      SendInTurn(s.conns[c], pc.task, out, Held(s, c));
    }
    hide OnSend, ConnInTurn, Waiting, AtWorkers;
  }

  lemma SendKeepsWatermark(conn: Conn, task: Task, out: Outcome)
    ensures var t := OnSend(conn, task, out);
      t.idle.Some? == conn.idle.Some? && (t.idle.Some? ==> t.idle.value.params == conn.idle.value.params)
  {
  }

  lemma ApplyKeepsTurns(hash: Hash, s: State, e: Event, c: nat)
    requires TakingTurns(s, c) && Ordered(s) && Safe(s) && Enabled(s, e) && InTurn(s, e, c)
    ensures TakingTurns(Apply(hash, s, e), c)
  {
    ApplyIsSafe(hash, s, e);
    hide TakingTurns, Ordered, Safe, Apply, WorkerStep, StepOk, InTurn;
    match e {
      case Receive(d, request) => ReceiveKeepsTurns(hash, s, d, request, c);
      case Work(w, choice) =>
        var out := WorkerStep(hash, s.store, s.workers[w], choice);
        WorkShape(hash, s, w, choice);
        StepFacts(s.store, s.workers[w], out);
        WorkKeepsTurns(s, Apply(hash, s, e), w, out, c);
      case Tick(d, now) => TickKeepsTurns(hash, s, d, now, c);
      case Take(w) => TakeKeepsTurns(hash, s, w, c);
      case Connect => ConnectKeepsTurns(hash, s, c);
      case _ => OtherKeepsTurns(hash, s, e, c);
    }
  }

  // ---------------------------------------------------------------- every sequential run

  lemma {:induction false} RunKeepsTurns(hash: Hash, s: State, events: seq<Event>, t: State, c: nat)
    requires TakingTurns(s, c) && Watermarked(s) && Ordered(s) && Safe(s) && SequentialRun(hash, s, events, t, c)
    ensures TakingTurns(t, c) && Watermarked(t)
    decreases |events|
  {
    hide TakingTurns, Watermarked, Ordered, Safe, Apply, Enabled, InTurn;
    if events != [] {
      ApplyKeepsTurns(hash, s, events[0], c);
      ApplyKeepsWatermarks(hash, s, events[0]);
      ApplyKeepsOrder(hash, s, events[0]);
      ApplyIsSafe(hash, s, events[0]);
      RunKeepsTurns(hash, Apply(hash, s, events[0]), events[1..], t, c);
    }
  }

  /** All batches sent on the connection: delivered ones, then those being written. */
  function SentBatches(idle: Idle): seq<Batch> {
    idle.delivered + idle.inFlight
  }

  /** A message in an older batch is not newer than what a later batch was selected against, so it is not in it. */
  lemma NotInBoth(s: Storage, a: Batch, b: Batch, i: nat, j: nat)
    requires BatchOk(s, a.entries, a.since) && BatchOk(s, b.entries, b.since) && UpTo(a.entries, b.since)
    requires i < |a.entries| && j < |b.entries|
    ensures a.entries[i].index != b.entries[j].index
  {
    assert Copied(s, a.entries[i]) && Copied(s, b.entries[j]);
  }

  lemma TurnsChain(idle: Idle, held: nat)
    requires TurnOk(idle, held)
    ensures Chained(SentBatches(idle))
  {
    hide UpTo;
  }

  /** On every run where an idle connection takes turns no stored message appears in two of its batches, nor twice
  in one, whatever the other connections do. */
  lemma NoMessageTwice(hash: Hash, workers: nat, events: seq<Event>, t: State, c: nat)
    requires SequentialRun(hash, Started(workers), events, t, c) && c < |t.conns| && t.conns[c].idle.Some?
    ensures var sent := SentBatches(t.conns[c].idle.value);
      && (forall k :: 0 <= k < |sent| ==> NoRepeats(sent[k].entries))
      && (forall k, l, i, j :: 0 <= k < l < |sent| && 0 <= i < |sent[k].entries| && 0 <= j < |sent[l].entries| ==>
            sent[k].entries[i].index != sent[l].entries[j].index)
  {
    hide SequentialRun;
    StartedIsOrdered(workers);
    assert TakingTurns(Started(workers), c) && Watermarked(Started(workers));
    RunKeepsTurns(hash, Started(workers), events, t, c);
    hide Started, Ordered, Safe, TurnOk, Held, PollFresh, PollTaskOk, TaskInTurn;
    assert ConnOk(t.store, t.conns[c]) && ConnInTurn(t.conns[c], Held(t, c));
    var idle := t.conns[c].idle.value;
    TurnsChain(idle, Held(t, c));
    var sent := SentBatches(idle);
    assert forall k :: 0 <= k < |sent| ==> BatchOk(t.store, sent[k].entries, sent[k].since) by {
      hide BatchOk, Shown, UpTo;
    }
    hide TakingTurns, Watermarked;
    forall k, l, i, j | 0 <= k < l < |sent| && 0 <= i < |sent[k].entries| && 0 <= j < |sent[l].entries|
      ensures sent[k].entries[i].index != sent[l].entries[j].index
    {
      NotInBoth(t.store, sent[k], sent[l], i, j);
    }
  }
}
