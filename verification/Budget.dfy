/** However the workers interleave, they can only make so many steps before every task is finished, and then every
request has been answered. */
module Budget {
  import opened Store
  import opened History
  import opened Server
  import opened WorkerSafety
  import opened Discipline
  import opened Progress

  // ---------------------------------------------------------------- what a step can add to the storage

  function Records(s: Storage): nat {
    |s.chatuser| + |s.messages|
  }

  /** Memberships and messages, plus one for each task that may still add one. No step of a worker increases it. */
  function Size(s: State): nat {
    Records(s.store) + |s.queue| + BusyCount(s.workers)
  }

  lemma TakenAdds(hash: Hash, s: Storage, task: Task)
    ensures var out := TakenStep(hash, s, task);
      Records(out.store) + One(!out.pc.Free?) <= Records(s) + 1
  {
    hide LookupUserByName, LookupUserById;
  }

  lemma CheckedAdds(hash: Hash, s: Storage, task: Task, user: User, now: nat)
    ensures var out := CheckedStep(hash, s, task, user, now);
      Records(out.store) + One(!out.pc.Free?) <= Records(s) + 1
  {
    hide LookupUserByName, LookupChatByName, UpdateFrom, DistinctLocations;
  }

  lemma LaterAdds(hash: Hash, s: Storage, pc: Pc, choice: Choice)
    requires CanStep(s, pc, choice) && !pc.Taken? && !pc.Checked?
    ensures var out := WorkerStep(hash, s, pc, choice);
      Records(out.store) + One(!out.pc.Free?) <= Records(s) + 1
  {
    hide LookupChatByName, LookupChatById, LookupUserById, ChatIdsOf, SelectMessages, Selected, PageEntries, IsSortOf;
  }

  /** A step that adds a record ends its task. */
  lemma StepAdds(hash: Hash, s: Storage, pc: Pc, choice: Choice)
    requires CanStep(s, pc, choice)
    ensures var out := WorkerStep(hash, s, pc, choice);
      Records(out.store) + One(!out.pc.Free?) <= Records(s) + 1
  {
    hide TakenStep, CheckedStep, Records;
    match pc {
      case Taken(task) => TakenAdds(hash, s, task);
      case Checked(task, user) => CheckedAdds(hash, s, task, user, choice.now);
      case _ => LaterAdds(hash, s, pc, choice);
    }
  }

  // ---------------------------------------------------------------- the steps left of a task

  /** At most so many more steps for a worker, while the storage holds at most `b` records. */
  function Cost(pc: Pc, b: nat): int {
    match pc
    case Free => 0
    case Taken(_) => 6 + 8 * b
    case Checked(_, _) => 5 + 8 * b
    case Peered(_, _, _) => 3 + 4 * b
    case HaveChat(_, _, _, _) => 1
    case Half(_, _, _, to) => 2 + 2 * |to| + 2 * b
    case Beaten(_, _) => 4 + 8 * b
    case Chats(_, ids, chats) => 3 + 8 * |ids| + 7 * |chats|
    case Poll(_, chats, batch) => 2 + 7 * |chats| + 2 * |batch|
    case Format(_, entries, done) => 1 + 2 * (|entries| - |done|)
    case FormatFrom(_, entries, done, _) => 2 * (|entries| - |done|)
  }

  lemma {:induction false} MatchesShort(ms: seq<Message>, p: Message -> bool, n: nat)
    requires n <= |ms|
    ensures |MatchesDown(ms, p, n)| <= n
  {
    if n > 0 { MatchesShort(ms, p, n - 1); }
  }

  lemma SelectShort(s: Storage, p: Message -> bool, max: nat)
    ensures |SelectMessages(s, p, max)| <= |s.messages| && |Selected(s.messages, p, max)| <= |s.messages|
    ensures max > 0 ==> |Selected(s.messages, p, max)| <= max
  {
    MatchesShort(s.messages, p, |s.messages|);
    hide MatchesDown;
  }

  lemma {:induction false} FilterShort<T>(s: seq<T>, p: T -> bool)
    ensures |Filter(s, p)| <= |s|
  {
    if s != [] { FilterShort(s[..|s| - 1], p); }
  }

  lemma CostOfTaken(hash: Hash, s: Storage, task: Task, b: nat)
    ensures 0 <= Cost(TakenStep(hash, s, task).pc, b) < Cost(Taken(task), b)
  {
    hide CreateUser, LookupUserByName, LookupUserById;
  }

  lemma CostOfChecked(hash: Hash, s: Storage, task: Task, user: User, now: nat, b: nat)
    ensures 0 <= Cost(CheckedStep(hash, s, task, user, now).pc, b) < Cost(Checked(task, user), b)
  {
    hide CreateChat, LookupUserByName, LookupChatByName, DistinctLocations;
  }

  lemma CostOfPeered(s: Storage, task: Task, user: User, peer: User, now: nat, b: nat)
    requires |s.messages| <= b
    ensures 0 <= Cost(PeeredStep(s, task, user, peer, now).pc, b) < Cost(Peered(task, user, peer), b)
  {
    SelectShort(s, Direction(user, peer), HistoryLimit(task.request.count));
    hide LookupChatByName, SelectMessages;
  }

  lemma CostOfHalf(s: Storage, pc: Pc, choice: Choice, b: nat)
    requires |s.messages| <= b && pc.Half? && CanStep(s, pc, choice)
    ensures 0 <= Cost(Format(pc.task, PageEntries(Cut(choice.order, pc.task.request.count)), []), b) < Cost(pc, b)
  {
    SelectShort(s, Direction(pc.peer, pc.user), HistoryLimit(pc.task.request.count));
    PermutationLength(choice.order, MessagesFrom(s, pc.user, pc.peer, pc.task.request.count) + pc.to);
    hide SelectMessages;
  }

  lemma CostOfPoll(s: Storage, task: Task, chats: seq<Chat>, batch: seq<Entry>, b: nat)
    ensures 0 <= Cost(PollStep(s, task, chats, batch).pc, b) < Cost(Poll(task, chats, batch), b)
  {
    hide Selected, Entries, GetMessages;
    if chats != [] {
      hide Cost;
      FoundAtMostThree(s, chats[0].id, task.request.ts);
      var idx := Selected(s.messages, InChatSince(chats[0].id, task.request.ts), DEFAULT_MAX_COUNT);
      var found := GetMessages(s, chats[0].id, task.request.ts, DEFAULT_MAX_COUNT).1;
      CostOfChat(task, chats, batch, Entries(idx, found), b);
    }
  }

  lemma CostOfChat(task: Task, chats: seq<Chat>, batch: seq<Entry>, more: seq<Entry>, b: nat)
    requires chats != [] && |more| <= 3
    ensures 0 <= Cost(Poll(task, chats[1..], batch + more), b) < Cost(Poll(task, chats, batch), b)
  {
  }

  lemma FoundAtMostThree(s: Storage, chatid: nat, ts: nat)
    ensures var idx := Selected(s.messages, InChatSince(chatid, ts), DEFAULT_MAX_COUNT);
      var found := GetMessages(s, chatid, ts, DEFAULT_MAX_COUNT).1;
      |idx| == |found| && |Entries(idx, found)| <= 3
  {
    SelectShort(s, InChatSince(chatid, ts), DEFAULT_MAX_COUNT);
    hide Selected;
  }

  lemma CostOfChats(hash: Hash, s: Storage, pc: Pc, choice: Choice, b: nat)
    requires (pc.Beaten? || pc.Chats?) && |s.chatuser| <= b
    ensures 0 <= Cost(WorkerStep(hash, s, pc, choice).pc, b) < Cost(pc, b)
  {
    if pc.Beaten? { FilterShort(s.chatuser, HasMember(pc.user.id)); }
    hide Filter, LookupChatById;
  }

  /** Every step costs something. */
  lemma StepCosts(hash: Hash, s: Storage, pc: Pc, choice: Choice, b: nat)
    requires CanStep(s, pc, choice) && PcOk(s, pc) && Records(s) <= b
    ensures 0 <= Cost(WorkerStep(hash, s, pc, choice).pc, b) < Cost(pc, b)
  {
    hide TakenStep, CheckedStep, PeeredStep, PollStep, PageEntries, ChatIdsOf, LookupChatById, LookupUserById;
    match pc {
      case Taken(task) => CostOfTaken(hash, s, task, b);
      case Checked(task, user) => CostOfChecked(hash, s, task, user, choice.now, b);
      case Peered(task, user, peer) => CostOfPeered(s, task, user, peer, choice.now, b);
      case Half(_, _, _, _) => CostOfHalf(s, pc, choice, b);
      case Beaten(_, _) => CostOfChats(hash, s, pc, choice, b);
      case Chats(_, _, _) => CostOfChats(hash, s, pc, choice, b);
      case Poll(task, chats, batch) => CostOfPoll(s, task, chats, batch, b);
      case _ =>
    }
  }

  lemma CostIsPositive(s: Storage, pc: Pc, b: nat)
    requires PcOk(s, pc)
    ensures Cost(pc, b) >= 0
  {
  }

  // ---------------------------------------------------------------- all tasks together

  function CostOfAll(workers: seq<Pc>, b: nat): int {
    if workers == [] then 0 else CostOfAll(workers[..|workers| - 1], b) + Cost(workers[|workers| - 1], b)
  }

  /** The steps all workers may still make, counting the one that takes a task from the queue. */
  function Total(s: State, b: nat): int {
    |s.queue| * (7 + 8 * b) + CostOfAll(s.workers, b)
  }

  lemma {:induction false} CostUpdate(workers: seq<Pc>, w: nat, pc: Pc, b: nat)
    requires w < |workers|
    ensures CostOfAll(workers[w := pc], b) == CostOfAll(workers, b) - Cost(workers[w], b) + Cost(pc, b)
  {
    hide Cost;
    var last := |workers| - 1;
    if w < last {
      CostUpdate(workers[..last], w, pc, b);
      assert workers[w := pc][..last] == workers[..last][w := pc];
    } else {
      assert workers[w := pc][..last] == workers[..last];
    }
  }

  lemma {:induction false} BusyUpdate(workers: seq<Pc>, w: nat, pc: Pc)
    requires w < |workers|
    ensures BusyCount(workers[w := pc]) == BusyCount(workers) - One(!workers[w].Free?) + One(!pc.Free?)
  {
    var last := |workers| - 1;
    if w < last {
      BusyUpdate(workers[..last], w, pc);
      assert workers[w := pc][..last] == workers[..last][w := pc];
    } else {
      assert workers[w := pc][..last] == workers[..last];
    }
  }

  lemma {:induction false} AllPositive(s: Storage, workers: seq<Pc>, b: nat)
    requires forall w :: 0 <= w < |workers| ==> PcOk(s, workers[w])
    ensures CostOfAll(workers, b) >= 0
  {
    hide PcOk, Cost;
    if workers != [] {
      AllPositive(s, workers[..|workers| - 1], b);
      CostIsPositive(s, workers[|workers| - 1], b);
    }
  }

  lemma WorkCosts(hash: Hash, s: State, w: nat, choice: Choice, b: nat)
    requires Safe(s) && Enabled(s, Work(w, choice)) && Size(s) <= b
    ensures var t := Apply(hash, s, Work(w, choice)); Total(t, b) < Total(s, b) && Size(t) <= Size(s)
  {
    EnabledWorker(s, w, choice);
    var pc := s.workers[w];
    assert PcOk(s.store, pc);
    var out := WorkerStep(hash, s.store, pc, choice);
    WorkShape(hash, s, w, choice);
    hide Safe, Enabled, Apply, WorkerStep, CanStep, PcOk, Cost, OnSend, Records;
    StepCosts(hash, s.store, pc, choice, b);
    StepAdds(hash, s.store, pc, choice);
    CostUpdate(s.workers, w, out.pc, b);
    BusyUpdate(s.workers, w, out.pc);
  }

  lemma TakeCosts(hash: Hash, s: State, w: nat, b: nat)
    requires Enabled(s, Take(w))
    ensures var t := Apply(hash, s, Take(w)); Total(t, b) == Total(s, b) - 1 && Size(t) == Size(s)
  {
    CostUpdate(s.workers, w, Taken(s.queue[0]), b);
    BusyUpdate(s.workers, w, Taken(s.queue[0]));
    hide CostOfAll, BusyCount, Records;
    assert |s.queue[1..]| * (7 + 8 * b) == |s.queue| * (7 + 8 * b) - (7 + 8 * b) by { OneFewer(|s.queue|, 7 + 8 * b); }
  }

  lemma OneFewer(n: nat, k: nat)
    ensures (n - 1) * k == n * k - k
  {
  }

  lemma {:induction false} WorkIsBounded(hash: Hash, s: State, events: seq<Event>, t: State, b: nat)
    requires Safe(s) && Run(hash, s, events, t) && WorkerEvents(events) && Size(s) <= b
    ensures |events| + Total(t, b) <= Total(s, b) && Total(t, b) >= 0
    decreases |events|
  {
    hide Enabled, Apply, Total, Size;
    if events == [] {
      TotalIsPositive(s, b);
    } else {
      match events[0] {
        case Work(w, choice) => WorkCosts(hash, s, w, choice, b);
        case Take(w) => TakeCosts(hash, s, w, b);
      }
      ApplyIsSafe(hash, s, events[0]);
      WorkIsBounded(hash, Apply(hash, s, events[0]), events[1..], t, b);
    }
  }

  lemma TotalIsPositive(s: State, b: nat)
    requires Safe(s)
    ensures Total(s, b) >= 0
  {
    hide PcOk;
    AllPositive(s.store, s.workers, b);
  }

  /** No worker can do anything. */
  ghost predicate WorkersRest(s: State) {
    forall e: Event :: e.Work? || e.Take? ==> !Enabled(s, e)
  }

  lemma RestMeansNothingUnderWay(s: State)
    requires Safe(s) && Ordered(s) && |s.workers| > 0 && WorkersRest(s)
    ensures s.queue == [] && forall w :: 0 <= w < |s.workers| ==> s.workers[w].Free?
  {
    hide Safe, Ordered, Enabled;
    forall w | 0 <= w < |s.workers| ensures s.workers[w].Free? {
      if !s.workers[w].Free? { BusyMeansNoRest(s, w); }
    }
    QueueMeansNoRest(s);
  }

  lemma BusyMeansNoRest(s: State, w: nat)
    requires Safe(s) && Ordered(s) && w < |s.workers| && !s.workers[w].Free?
    ensures !WorkersRest(s)
  {
    var e := Work(w, ChoiceFor(s.store, s.workers[w]));
    BusyWorkerCanStep(s.store, s.workers[w]);
    assert TaskOk(s.conns, s.workers[w].task);
    hide PcOk, CanStep, Disciplined;
    assert Enabled(s, e);
  }

  lemma QueueMeansNoRest(s: State)
    ensures |s.workers| > 0 && s.workers[0].Free? && s.queue != [] ==> !WorkersRest(s)
  {
    assert |s.workers| > 0 && s.workers[0].Free? && s.queue != [] ==> Enabled(s, Take(0));
  }

  /** Connection `c` sent no request for a command without a branch. */
  predicate OnlyHandled(events: seq<Event>, c: nat) {
    forall i :: 0 <= i < |events| ==> HandledEvent(events[i], c)
  }

  ghost predicate AllAnswered(conn: Conn) {
    conn.idle.None? ==> |conn.answered| == conn.received && InRequestOrder(conn.answered)
  }

  /** After any run, let the workers go on in any way they like while nothing else happens: they make no more than
  `Total` steps, and when none of them can make another, every request of every connection that is not idle and never
  sent a command without a branch has exactly one response, in request order. */
  lemma EveryRequestIsAnswered(hash: Hash, workers: nat, events: seq<Event>, s: State, more: seq<Event>, t: State)
    requires workers > 0 && Run(hash, Started(workers), events, s) && Run(hash, s, more, t) && WorkerEvents(more)
    ensures |more| <= Total(s, Size(s))
    ensures WorkersRest(t) ==> forall c :: 0 <= c < |t.conns| && OnlyHandled(events, c) ==> AllAnswered(t.conns[c])
  {
    hide Apply, Enabled, HandledEvent, Ordered, Safe, InRequestOrder, Total, Size;
    StartedIsOrdered(workers);
    EveryRunIsOrdered(hash, Started(workers), events, s);
    WorkIsBounded(hash, s, more, t, Size(s));
    if WorkersRest(t) {
      hide WorkersRest;
      EveryRunIsOrdered(hash, s, more, t);
      KeepsWorkers(hash, Started(workers), events, s);
      KeepsWorkers(hash, s, more, t);
      RestMeansNothingUnderWay(t);
      forall c | 0 <= c < |t.conns| && OnlyHandled(events, c) ensures AllAnswered(t.conns[c]) {
        if t.conns[c].idle.None? {
          RunJoin(hash, Started(workers), events, s, more, t);
          AllEventsHandled(events, more, c);
          RequestsAreAnsweredOnce(hash, workers, events + more, t, c);
          NothingUnderWay(t, c);
        }
      }
    }
  }

  lemma AllEventsHandled(events: seq<Event>, more: seq<Event>, c: nat)
    requires WorkerEvents(more) && OnlyHandled(events, c)
    ensures forall i :: 0 <= i < |events + more| ==> HandledEvent((events + more)[i], c)
  {
  }
}
