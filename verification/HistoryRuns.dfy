/** The history page on runs of the step system: the two queries of a request are separate store calls, and other
workers may save messages between them. */
module HistoryRuns {
  import opened Wrappers
  import opened Store
  import opened StoreInvariant
  import opened History
  import opened Server
  import opened WorkerSafety
  import opened Discipline

  /** Worker `w` makes no step in `events`. */
  predicate Rests(events: seq<Event>, w: nat) {
    forall i :: 0 <= i < |events| ==> !(events[i].Work? && events[i].worker == w)
  }

  lemma RestingStep(hash: Hash, s: State, e: Event, w: nat)
    requires Enabled(s, e) && w < |s.workers| && !s.workers[w].Free? && !(e.Work? && e.worker == w)
    ensures var t := Apply(hash, s, e); w < |t.workers| && t.workers[w] == s.workers[w]
  {
    hide WorkerStep, OnSend;
  }

  /** A busy worker that makes no step keeps its variables. */
  lemma {:induction false} RestingWorker(hash: Hash, s: State, events: seq<Event>, t: State, w: nat)
    requires Run(hash, s, events, t) && Rests(events, w) && w < |s.workers| && !s.workers[w].Free?
    ensures w < |t.workers| && t.workers[w] == s.workers[w]
    decreases |events|
  {
    if events != [] {
      RestingStep(hash, s, events[0], w);
      hide Enabled, Apply;
      RestingWorker(hash, Apply(hash, s, events[0]), events[1..], t, w);
    }
  }

  /** A history request between its two queries: the first is made in state `s`, the second in state `later`, and
  `middle` is what happens in between. */
  ghost predicate TwoQueries(hash: Hash, s: State, w: nat, first: Choice, middle: seq<Event>, later: State,
                             second: Choice) {
    && Safe(s) && Enabled(s, Work(w, first)) && s.workers[w].Peered? && s.workers[w].task.cmd.USER_HISTORY?
    && Run(hash, Apply(hash, s, Work(w, first)), middle, later) && Rests(middle, w) && Enabled(later, Work(w, second))
  }

  lemma FirstQuery(hash: Hash, s: State, w: nat, choice: Choice)
    requires Enabled(s, Work(w, choice)) && s.workers[w].Peered? && s.workers[w].task.cmd.USER_HISTORY?
    ensures var pc, t := s.workers[w], Apply(hash, s, Work(w, choice));
      && t.store == s.store && w < |t.workers|
      && t.workers[w] == Half(pc.task, pc.user, pc.peer, MessagesTo(s.store, pc.user, pc.peer, pc.task.request.count))
  {
    hide SelectMessages, OnSend;
  }

  lemma SecondQuery(hash: Hash, s: State, w: nat, choice: Choice)
    requires Enabled(s, Work(w, choice)) && s.workers[w].Half?
    ensures var pc, t := s.workers[w], Apply(hash, s, Work(w, choice));
      && IsSortOf(choice.order, MessagesFrom(s.store, pc.user, pc.peer, pc.task.request.count) + pc.to)
      && t.workers[w] == Format(pc.task, PageEntries(Cut(choice.order, pc.task.request.count)), [])
  {
    hide SelectMessages, OnSend, PageEntries, Cut, IsSortOf;
  }

  /** What is sorted is what the first query found in `s` and the second in `later`. */
  lemma PageIsSorted(hash: Hash, s: State, w: nat, first: Choice, middle: seq<Event>, later: State, second: Choice)
    requires TwoQueries(hash, s, w, first, middle, later, second)
    ensures var pc, t := s.workers[w], Apply(hash, later, Work(w, second));
      var count := pc.task.request.count;
      && w < |t.workers| && t.workers[w] == Format(pc.task, PageEntries(Cut(second.order, count)), [])
      && IsSortOf(second.order, Kept(s.store, later.store, pc.user, pc.peer, count)) && Grows(s.store, later.store)
  {
    var asked := Apply(hash, s, Work(w, first));
    hide Apply, Enabled, Safe, StepOk, Grows, IsSortOf, Cut, PageEntries, SelectMessages, Run, Rests;
    FirstQuery(hash, s, w, first);
    ApplyIsSafe(hash, s, Work(w, first));
    EveryRunIsSafe(hash, asked, middle, later);
    RestingWorker(hash, asked, middle, later, w);
    EnabledWorker(later, w, second);
    SecondQuery(hash, later, w, second);
  }

  lemma QueryingWorker(hash: Hash, s: State, w: nat, first: Choice, middle: seq<Event>, later: State, second: Choice)
    requires TwoQueries(hash, s, w, first, middle, later, second)
    ensures w < |s.workers| && s.workers[w].Peered?
    ensures Enabled(later, Work(w, second))
  {
    hide Safe, Run;
  }

  /** On every run: the page a worker goes on to format is a part of the conversation made of the messages of the one
  direction stored when it first asked and those of the other stored when it asked again; and it shows the newest
  of them if and only if no message beyond the limits is missed. */
  lemma PageOnARun(hash: Hash, s: State, w: nat, first: Choice, middle: seq<Event>, later: State, second: Choice)
    returns (page: seq<Message>)
    requires TwoQueries(hash, s, w, first, middle, later, second)
    ensures var pc, t := s.workers[w], Apply(hash, later, Work(w, second));
      var user, peer, count := pc.user, pc.peer, pc.task.request.count;
      && w < |t.workers| && t.workers[w] == Format(pc.task, PageEntries(page), [])
      && multiset(page) <= multiset(Conversation(s.store, later.store, user, peer))
      && (forall m :: m in page ==>
            || (m.userFrom == user.id && m.chatTo == peer.selfChatId && m in s.store.messages)
            || (m.userFrom == peer.id && m.chatTo == user.selfChatId && m in later.store.messages))
      && (NewestOf(page, Conversation(s.store, later.store, user, peer), count) <==>
          NoneMissed(Kept(s.store, later.store, user, peer, count), Dropped(s.store, later.store, user, peer, count),
                     count))
  {
    hide *;
    QueryingWorker(hash, s, w, first, middle, later, second);
    PageIsSorted(hash, s, w, first, middle, later, second);
    var pc := s.workers[w];
    HistoryExactIff(s.store, later.store, pc.user, pc.peer, pc.task.request.count, second.order);
    page := Cut(second.order, pc.task.request.count);
    OnlyTheTwo(s.store, later.store, pc.user, pc.peer, page);
  }

  lemma OnlyTheTwo(s: Storage, later: Storage, user: User, peer: User, page: seq<Message>)
    requires multiset(page) <= multiset(Conversation(s, later, user, peer))
    ensures forall m :: m in page ==>
      || (m.userFrom == user.id && m.chatTo == peer.selfChatId && m in s.messages)
      || (m.userFrom == peer.id && m.chatTo == user.selfChatId && m in later.messages)
  {
    hide Conversation;
    forall m | m in page
      ensures (m.userFrom == user.id && m.chatTo == peer.selfChatId && m in s.messages)
        || (m.userFrom == peer.id && m.chatTo == user.selfChatId && m in later.messages)
    {
      assert m in multiset(page);
      ConversationCounts(s, later, user, peer, m);
    }
  }

  lemma EarlierInOrder(s: Storage, later: Storage)
    requires Grows(s, later) && SavedInOrder(later)
    ensures SavedInOrder(s)
  {
    assert forall i :: 0 <= i < |s.messages| ==> SameMessage(s.messages[i], later.messages[i]);
  }

  /** So on every run, as long as messages were saved in timestamp order and the limit did not wrap below `count`, the
  page shows the newest messages of the conversation. */
  lemma PageInOrder(hash: Hash, s: State, w: nat, first: Choice, middle: seq<Event>, later: State, second: Choice)
    returns (page: seq<Message>)
    requires TwoQueries(hash, s, w, first, middle, later, second) && SavedInOrder(later.store)
    requires var count := s.workers[w].task.request.count; HistoryLimit(count) == 0 || count <= HistoryLimit(count)
    ensures var pc, t := s.workers[w], Apply(hash, later, Work(w, second));
      && w < |t.workers| && t.workers[w] == Format(pc.task, PageEntries(page), [])
      && NewestOf(page, Conversation(s.store, later.store, pc.user, pc.peer), pc.task.request.count)
  {
    hide *;
    QueryingWorker(hash, s, w, first, middle, later, second);
    PageIsSorted(hash, s, w, first, middle, later, second);
    page := PageOnARun(hash, s, w, first, middle, later, second);
    EarlierInOrder(s.store, later.store);
    var pc := s.workers[w];
    InOrderMissesNone(s.store, later.store, pc.user, pc.peer, pc.task.request.count);
  }

  /** A worker at the formatting of `entries` for `task`. */
  predicate Formats(pc: Pc, task: Task, entries: seq<Entry>) {
    (pc.Format? || pc.FormatFrom?) && pc.task == task && pc.entries == entries
  }

  /** From there each of its steps either keeps to these entries or ends the task with one message for each of them,
  in order, with the names of the users and chats it refers to. */
  lemma PageIsSent(hash: Hash, s: State, w: nat, choice: Choice, task: Task, entries: seq<Entry>)
    requires Safe(s) && Enabled(s, Work(w, choice)) && Formats(s.workers[w], task, entries) && task.cmd.USER_HISTORY?
    ensures var out := WorkerStep(hash, s.store, s.workers[w], choice);
      || (Formats(out.pc, task, entries) && out.send == None)
      || (out.pc.Free? && out.send.Some? && out.send.value.OkMessages?
          && |out.send.value.msgs| == |entries| && RenderedSoFar(out.store, entries, out.send.value.msgs))
  {
    StepSafe(hash, s.store, s.workers[w], choice);
    hide Inv, PcOk, Grows, LookupChatById, LookupUserById, RenderedSoFar, CanStep;
  }
}
