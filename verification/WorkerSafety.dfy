/** Store invariants over every interleaving of the workers' atomic store calls: what a worker looked up
stays true while others run, so every call gets arguments that keep the store good. */
module WorkerSafety {
  import opened Store
  import opened StoreInvariant
  import opened History
  import opened Server

  // ---------------------------------------------------------------- what a worker knows

  /** A copy of a user record that may be stale in its heartbit only. */
  predicate KnownPerson(s: Storage, u: User) {
    HasUser(s, u.id) && HasChat(s, u.selfChatId) && SameUser(s.users[u.id - 1], u)
  }

  predicate KnownChat(s: Storage, c: Chat) {
    HasChat(s, c.id) && s.chats[c.id - 1] == c
  }

  /** `a` shows `m` with the names of the user and the chat it refers to. */
  predicate Rendered(s: Storage, m: Message, a: ApiMessage) {
    Refers(s, m) && a == ApiMessage(m.ts, s.users[m.userFrom - 1].name, s.chats[m.chatTo - 1].name, m.text)
  }

  predicate EntriesRefer(s: Storage, entries: seq<Entry>) {
    forall i :: 0 <= i < |entries| ==> Refers(s, entries[i].msg)
  }

  predicate RenderedSoFar(s: Storage, entries: seq<Entry>, done: seq<ApiMessage>) {
    |done| <= |entries| && forall i :: 0 <= i < |done| ==> Rendered(s, entries[i].msg, done[i])
  }

  predicate AllRefer(s: Storage, ms: seq<Message>) {
    forall i :: 0 <= i < |ms| ==> Refers(s, ms[i])
  }

  predicate AllChatsKnown(s: Storage, chats: seq<Chat>) {
    forall i :: 0 <= i < |chats| ==> KnownChat(s, chats[i])
  }

  /** Commands without a branch in `processQueue`. */
  predicate Unhandled(cmd: Command) {
    cmd.CHAT_HISTORY? || cmd.CHAT_STATUS? || cmd.MESSAGE_RECENT?
  }

  /** Commands that begin with `lookup_check_pass`. */
  predicate NeedsPassword(cmd: Command) {
    !cmd.USER_CREATE? && !cmd.USER_LOGIN? && !Unhandled(cmd)
  }

  /** The request carries the id and the password of a user. */
  predicate Authorised(hash: Hash, s: Storage, task: Task) {
    HasUser(s, task.request.uid) && s.users[task.request.uid - 1].password == hash(task.request.password)
  }

  /** Which commands can be at which point. */
  predicate InBranch(pc: Pc) {
    match pc
    case Free => true
    case Taken(_) => true
    case Checked(task, _) => !task.cmd.USER_CREATE? && !task.cmd.USER_LOGIN? && !Unhandled(task.cmd)
    case Peered(task, _, _) => task.cmd.USER_HISTORY? || task.cmd.MESSAGE_SEND? || task.cmd.CHAT_ADDUSER?
    case HaveChat(task, _, _, _) => task.cmd.CHAT_ADDUSER? || task.cmd.MESSAGE_SEND_CHAT?
    case Half(task, _, _, _) => task.cmd.USER_HISTORY?
    case Format(task, _, _) => task.cmd.USER_HISTORY? || task.cmd.IDLE?
    case FormatFrom(task, _, _, _) => task.cmd.USER_HISTORY? || task.cmd.IDLE?
    case Beaten(task, _) => task.cmd.IDLE?
    case Chats(task, _, _) => task.cmd.IDLE?
    case Poll(task, _, _) => task.cmd.IDLE?
  }

  /** The records in a worker's variables exist. */
  predicate Knows(s: Storage, pc: Pc) {
    match pc
    case Free => true
    case Taken(_) => true
    case Checked(task, user) => KnownPerson(s, user) && user.id == task.request.uid
    case Peered(_, user, peer) => KnownPerson(s, user) && KnownPerson(s, peer)
    case HaveChat(_, user, peer, chat) => KnownPerson(s, user) && KnownPerson(s, peer) && KnownChat(s, chat)
    case Half(_, user, peer, to) => KnownPerson(s, user) && KnownPerson(s, peer) && AllRefer(s, to)
    case Format(_, entries, done) => EntriesRefer(s, entries) && RenderedSoFar(s, entries, done)
    case FormatFrom(_, entries, done, chat) =>
      && EntriesRefer(s, entries) && RenderedSoFar(s, entries, done)
      && |done| < |entries| && KnownChat(s, chat) && chat.id == entries[|done|].msg.chatTo
    case Beaten(_, user) => KnownPerson(s, user)
    case Chats(_, ids, chats) => (forall i :: 0 <= i < |ids| ==> HasChat(s, ids[i])) && AllChatsKnown(s, chats)
    case Poll(_, chats, batch) => AllChatsKnown(s, chats) && EntriesRefer(s, batch)
  }

  predicate PcOk(s: Storage, pc: Pc) {
    InBranch(pc) && Knows(s, pc)
  }

  /** What a worker knows does not go stale while the store grows. */
  lemma KnowledgeStays(s: Storage, t: Storage, pc: Pc)
    requires PcOk(s, pc) && Grows(s, t)
    ensures PcOk(t, pc)
  {
    assert forall m :: Refers(s, m) ==> Refers(t, m);
    assert forall c :: KnownChat(s, c) ==> KnownChat(t, c);
    assert forall u :: KnownPerson(s, u) ==> KnownPerson(t, u);
    assert forall m, a :: Rendered(s, m, a) ==> Rendered(t, m, a);
    hide Grows, Refers, KnownChat, KnownPerson, Rendered;
  }

  // ---------------------------------------------------------------- one step

  /** Replies never carry empty records, batches come from polls only, and "more than one user" is never sent. */
  predicate SendOk(s: Storage, pc: Pc, send: Send)
    requires !pc.Free?
  {
    match send
    case OkUser(user) => KnownPerson(s, user)
    case OkChat(chat) => KnownChat(s, chat)
    case OkStatus => true
    case OkItems(_) => true
    case OkMessages(msgs) => pc.Format? && |msgs| == |pc.entries| && RenderedSoFar(s, pc.entries, msgs)
    case IdleMessages(entries, batch) => pc.task.cmd.IDLE? && |batch| == |entries| && RenderedSoFar(s, entries, batch)
    case ErrorReply(code, _) => code != 500
  }

  ghost predicate StepOk(s: Storage, pc: Pc, out: Outcome)
    requires !pc.Free?
  {
    && Inv(out.store) && Grows(s, out.store) && PcOk(out.store, out.pc)
    && (out.send.Some? ==> out.pc.Free? && SendOk(out.store, pc, out.send.value))
    && (out.send.None? && out.pc.Free? ==> pc.task.cmd.IDLE? || Unhandled(pc.task.cmd))
    && (!out.pc.Free? ==> out.pc.task == pc.task)
  }

  lemma GrowsReflexive(s: Storage)
    ensures Grows(s, s)
  {
  }

  lemma CheckPassSafe(hash: Hash, s: Storage, task: Task)
    requires Inv(s) && InBranch(Checked(task, NO_USER))
    ensures StepOk(s, Taken(task), CheckPass(hash, s, task))
  {
    hide UserNamesUnique, ChatNamesPair, MembershipsRefer, MessagesRefer;
    GrowsReflexive(s);
    LookupById(s, task.request.uid);
    if HasUser(s, task.request.uid) {
      assert HasSelfChat(s, s.users[task.request.uid - 1]);
    }
  }

  /** A user found by name has an id other than 0, and no name finds two. */
  lemma ByNameSafe(hash: Hash, s: Storage, task: Task, name: string, checkPass: bool)
    requires Inv(s)
    ensures match ByName(hash, s, task, name, checkPass)
      case (Some(user), _) => KnownPerson(s, user) && user.id != 0
      case (None, error) => error.Some? && error.value.ErrorReply? && error.value.code != 500
  {
    hide Inv, LookupUserByName;
    LookupByName(s, name);
    var r := LookupUserByName(s, name);
    if |r| == 1 { assert r[0] in r; }
  }

  lemma CreateUserSafe(s: Storage, name: string, pass: string, ip: string, city: string)
    requires Inv(s)
    ensures var (t, user) := CreateUser(s, name, pass, "localhost:3306", ip, city);
      Inv(t) && Grows(s, t) && (user.id != 0 ==> KnownPerson(t, user))
  {
    CreateUserKeeps(s, name, pass, "localhost:3306", ip, city);
    CreateUserGrows(s, name, pass, "localhost:3306", ip, city);
    hide SelfChats, ChatNamesPair, UserNamesUnique, MembershipsRefer, MessagesRefer;
  }

  lemma TakenSafe(hash: Hash, s: Storage, task: Task)
    requires Inv(s)
    ensures StepOk(s, Taken(task), TakenStep(hash, s, task))
  {
    hide Inv, CreateUser, ByName, CheckPass, Grows;
    GrowsReflexive(s);
    match task.cmd {
      case USER_CREATE =>
        CreateUserSafe(s, task.request.user, hash(task.request.password), task.request.ipAddress, task.request.city);
      case USER_LOGIN =>
        ByNameSafe(hash, s, task, task.request.user, true);
      case CHAT_HISTORY =>
      case CHAT_STATUS =>
      case MESSAGE_RECENT =>
      case _ =>
        CheckPassSafe(hash, s, task);
    }
  }

  lemma FindPeerSafe(hash: Hash, s: Storage, task: Task, user: User, name: string)
    requires Inv(s) && KnownPerson(s, user) && InBranch(Peered(task, user, user))
    ensures StepOk(s, Checked(task, user), FindPeer(hash, s, task, user, name))
  {
    hide Inv, ByName, Grows;
    GrowsReflexive(s);
    ByNameSafe(hash, s, task, name, false);
  }

  lemma FindRecipientSafe(s: Storage, task: Task, user: User)
    requires Inv(s) && KnownPerson(s, user) && task.cmd.MESSAGE_SEND?
    ensures StepOk(s, Checked(task, user), FindRecipient(s, task, user))
  {
    hide Inv, LookupUserByName, Grows;
    GrowsReflexive(s);
    LookupByName(s, task.request.toUser);
    var r := LookupUserByName(s, task.request.toUser);
    if |r| == 1 { assert r[0] in r; }
  }

  lemma FindChatSafe(s: Storage, task: Task, user: User, peer: User, pc: Pc)
    requires Inv(s) && KnownPerson(s, user) && KnownPerson(s, peer) && InBranch(HaveChat(task, user, peer, NO_CHAT))
    requires !pc.Free? && pc.task == task
    ensures StepOk(s, pc, FindChat(s, task, user, peer))
  {
    hide LookupChatByName, Grows, UserNamesUnique, SelfChats, ChatNamesPair, MembershipsRefer, MessagesRefer;
    GrowsReflexive(s);
    ChatsFoundExist(s, task.request.chatName);
    var r := LookupChatByName(s, task.request.chatName);
    if |r| == 1 { assert r[0] in r; }
  }

  lemma CreateChatSafe(s: Storage, name: string, uid: nat)
    requires Inv(s) && HasUser(s, uid)
    ensures var (t, chat) := CreateChat(s, name, uid); Inv(t) && Grows(s, t) && (chat.id != 0 ==> KnownChat(t, chat))
  {
    CreateChatKeeps(s, name, uid);
    hide SelfChats, ChatNamesPair, UserNamesUnique, MembershipsRefer, MessagesRefer, Grows;
  }

  lemma UserStaysKnown(s: Storage, t: Storage, u: User)
    requires KnownPerson(s, u) && Grows(s, t)
    ensures KnownPerson(t, u)
  {
  }

  lemma CheckedSafe(hash: Hash, s: Storage, task: Task, user: User, now: nat)
    requires Inv(s) && PcOk(s, Checked(task, user))
    ensures StepOk(s, Checked(task, user), CheckedStep(hash, s, task, user, now))
  {
    hide Inv, CreateChat, ByName, FindPeer, FindRecipient, FindChat, Grows, Store.UpdateUserHeartBit;
    GrowsReflexive(s);
    match task.cmd {
      case IDLE =>
        UpdateHeartBitKeeps(s, user.id, now);
        UserStaysKnown(s, Store.UpdateUserHeartBit(s, user.id, now), user);
      case USER_STATUS => ByNameSafe(hash, s, task, task.request.user, false);
      case USER_HISTORY => FindPeerSafe(hash, s, task, user, task.request.user);
      case MESSAGE_SEND => FindRecipientSafe(s, task, user);
      case CHAT_CREATE => CreateChatSafe(s, task.request.chatName, task.request.uid);
      case CHAT_ADDUSER => FindPeerSafe(hash, s, task, user, task.request.chatAdduser);
      case MESSAGE_SEND_CHAT => FindChatSafe(s, task, user, user, Checked(task, user));
      case _ =>
    }
  }

  lemma SelectedRefer(s: Storage, p: Message -> bool, max: nat)
    requires MessagesRefer(s)
    ensures AllRefer(s, SelectMessages(s, p, max))
  {
  }

  lemma SaveSafe(s: Storage, pc: Pc, from: nat, to: nat, text: string, now: nat)
    requires Inv(s) && !pc.Free? && HasUser(s, from) && HasChat(s, to)
    ensures StepOk(s, pc, Sent(SaveMessage(s, NewMessage(from, to, text, now)), OkStatus))
  {
    SaveMessageKeeps(s, NewMessage(from, to, text, now));
    hide Inv, SaveMessage, Grows;
  }

  lemma PeeredSafe(s: Storage, task: Task, user: User, peer: User, now: nat)
    requires Inv(s) && PcOk(s, Peered(task, user, peer))
    ensures StepOk(s, Peered(task, user, peer), PeeredStep(s, task, user, peer, now))
  {
    if task.cmd.USER_HISTORY? {
      GrowsReflexive(s);
      SelectedRefer(s, Direction(user, peer), HistoryLimit(task.request.count));
      hide Inv, SelectMessages, Grows;
    } else {
      hide StepOk, Inv, FindChat;
      if task.cmd.CHAT_ADDUSER? {
        FindChatSafe(s, task, user, peer, Peered(task, user, peer));
      } else {
        SaveSafe(s, Peered(task, user, peer), user.id, peer.selfChatId, task.request.message, now);
      }
    }
  }

  lemma HaveChatSafe(s: Storage, task: Task, user: User, peer: User, chat: Chat, now: nat)
    requires Inv(s) && PcOk(s, HaveChat(task, user, peer, chat))
    ensures StepOk(s, HaveChat(task, user, peer, chat), HaveChatStep(s, task, user, peer, chat, now))
  {
    if task.cmd.CHAT_ADDUSER? {
      AddUserToChatKeeps(s, chat.id, peer.id);
      hide Inv, AddUserToChat, Grows;
    } else {
      hide StepOk, Inv;
      SaveSafe(s, HaveChat(task, user, peer, chat), user.id, chat.id, task.request.message, now);
    }
  }

  lemma PageRefers(s: Storage, order: seq<Message>, merged: seq<Message>, count: nat)
    requires IsSortOf(order, merged) && AllRefer(s, merged)
    ensures EntriesRefer(s, PageEntries(Cut(order, count)))
  {
    var page := Cut(order, count);
    forall i | 0 <= i < |page| ensures Refers(s, page[i]) {
      assert page[i] in multiset(order);
      assert page[i] in merged;
    }
  }

  lemma HalfSafe(s: Storage, pc: Pc, choice: Choice)
    requires Inv(s) && PcOk(s, pc) && pc.Half? && CanStep(s, pc, choice)
    ensures StepOk(s, pc, Goes(s, Format(pc.task, PageEntries(Cut(choice.order, pc.task.request.count)), [])))
  {
    hide SelectMessages, PageEntries, Cut, IsSortOf;
    GrowsReflexive(s);
    var from := MessagesFrom(s, pc.user, pc.peer, pc.task.request.count);
    SelectedRefer(s, Direction(pc.peer, pc.user), HistoryLimit(pc.task.request.count));
    assert AllRefer(s, from + pc.to);
    PageRefers(s, choice.order, from + pc.to, pc.task.request.count);
  }

  lemma FormatSafe(s: Storage, task: Task, entries: seq<Entry>, done: seq<ApiMessage>)
    requires Inv(s) && PcOk(s, Format(task, entries, done))
    ensures StepOk(s, Format(task, entries, done), FormatStep(s, task, entries, done))
  {
    hide SelfChats, ChatNamesPair, UserNamesUnique, MembershipsRefer, MessagesRefer, Grows, LookupChatById;
    GrowsReflexive(s);
    if |done| < |entries| {
      assert Refers(s, entries[|done|].msg);
      LookupById(s, entries[|done|].msg.chatTo);
    }
  }

  lemma FormatFromSafe(s: Storage, task: Task, entries: seq<Entry>, done: seq<ApiMessage>, chat: Chat)
    requires Inv(s) && PcOk(s, FormatFrom(task, entries, done, chat))
    ensures StepOk(s, FormatFrom(task, entries, done, chat), FormatFromStep(s, task, entries, done, chat))
  {
    hide SelfChats, ChatNamesPair, UserNamesUnique, MembershipsRefer, MessagesRefer, Grows, LookupUserById;
    GrowsReflexive(s);
    assert Refers(s, entries[|done|].msg);
    LookupById(s, entries[|done|].msg.userFrom);
  }

  lemma PollFoundRefer(s: Storage, chatid: nat, ts: nat, max: nat)
    requires MessagesRefer(s)
    ensures var idx := Selected(s.messages, InChatSince(chatid, ts), max);
      EntriesRefer(s, Entries(idx, GetMessages(s, chatid, ts, max).1))
  {
  }

  lemma EntriesStayReferring(s: Storage, t: Storage, entries: seq<Entry>)
    requires EntriesRefer(s, entries) && Grows(s, t)
    ensures EntriesRefer(t, entries)
  {
  }

  lemma PollSafe(s: Storage, task: Task, chats: seq<Chat>, batch: seq<Entry>)
    requires Inv(s) && PcOk(s, Poll(task, chats, batch))
    ensures StepOk(s, Poll(task, chats, batch), PollStep(s, task, chats, batch))
  {
    hide Entries, Selected, Grows, IdsInOrder, SelfChats, ChatNamesPair, UserNamesUnique, MembershipsRefer;
    GrowsReflexive(s);
    if chats != [] {
      var (t, found) := GetMessages(s, chats[0].id, task.request.ts, DEFAULT_MAX_COUNT);
      var idx := Selected(s.messages, InChatSince(chats[0].id, task.request.ts), DEFAULT_MAX_COUNT);
      GetMessagesKeeps(s, chats[0].id, task.request.ts, DEFAULT_MAX_COUNT);
      PollFoundRefer(s, chats[0].id, task.request.ts, DEFAULT_MAX_COUNT);
      EntriesStayReferring(s, t, batch + Entries(idx, found));
      assert t.chats == s.chats;
    }
  }

  lemma ChatsSafe(s: Storage, pc: Pc, choice: Choice, hash: Hash)
    requires Inv(s) && PcOk(s, pc) && (pc.Chats? || pc.Beaten?)
    ensures StepOk(s, pc, WorkerStep(hash, s, pc, choice))
  {
    hide SelfChats, ChatNamesPair, UserNamesUnique, MessagesRefer, Grows, LookupChatById, ChatIdsOf;
    GrowsReflexive(s);
    if pc.Beaten? {
      MembershipsFoundExist(s, pc.user.id);
    } else if pc.ids != [] {
      LookupById(s, pc.ids[0]);
    }
  }

  /** Any step of any worker keeps the store good and the worker's own knowledge true. */
  lemma StepSafe(hash: Hash, s: Storage, pc: Pc, choice: Choice)
    requires Inv(s) && PcOk(s, pc) && CanStep(s, pc, choice)
    ensures StepOk(s, pc, WorkerStep(hash, s, pc, choice))
  {
    hide Inv, StepOk, PcOk, TakenStep, CheckedStep, PeeredStep, HaveChatStep, FormatStep, FormatFromStep, PollStep;
    match pc {
      case Taken(task) => TakenSafe(hash, s, task);
      case Checked(task, user) => CheckedSafe(hash, s, task, user, choice.now);
      case Peered(task, user, peer) => PeeredSafe(s, task, user, peer, choice.now);
      case HaveChat(task, user, peer, chat) => HaveChatSafe(s, task, user, peer, chat, choice.now);
      case Half(_, _, _, _) => HalfSafe(s, pc, choice);
      case Format(task, entries, done) => FormatSafe(s, task, entries, done);
      case FormatFrom(task, entries, done, chat) => FormatFromSafe(s, task, entries, done, chat);
      case Beaten(_, _) => ChatsSafe(s, pc, choice, hash);
      case Chats(_, _, _) => ChatsSafe(s, pc, choice, hash);
      case Poll(task, chats, batch) => PollSafe(s, task, chats, batch);
    }
  }

  // ---------------------------------------------------------------- every run

  /** The store is good and every worker's knowledge true. */
  ghost predicate Safe(s: State) {
    Inv(s.store) && forall w :: 0 <= w < |s.workers| ==> PcOk(s.store, s.workers[w])
  }

  lemma StartedIsSafe(workers: nat)
    ensures Safe(Started(workers))
  {
    EmptyStorageIsGood();
  }

  lemma ApplyIsSafe(hash: Hash, s: State, e: Event)
    requires Safe(s) && Enabled(s, e)
    ensures Safe(Apply(hash, s, e)) && Grows(s.store, Apply(hash, s, e).store)
    ensures e.Work? ==> StepOk(s.store, s.workers[e.worker], WorkerStep(hash, s.store, s.workers[e.worker], e.choice))
  {
    hide Inv, Grows, Knows, InBranch, WorkerStep, SendOk;
    GrowsReflexive(s.store);
    var t := Apply(hash, s, e);
    match e {
      case Work(w, choice) =>
        StepSafe(hash, s.store, s.workers[w], choice);
        forall v | 0 <= v < |t.workers| ensures PcOk(t.store, t.workers[v]) {
          if v != w { KnowledgeStays(s.store, t.store, s.workers[v]); }
        }
      case Take(w) => assert PcOk(s.store, Taken(s.queue[0])) by { TakenIsOk(s.store, s.queue[0]); }
      case _ => assert t.store == s.store && t.workers == s.workers;
    }
  }

  lemma TakenIsOk(s: Storage, task: Task)
    ensures PcOk(s, Taken(task))
  {
  }

  /** On every run, in every interleaving of connections, queue and workers. */
  lemma {:induction false} EveryRunIsSafe(hash: Hash, s: State, events: seq<Event>, t: State)
    requires Safe(s) && Run(hash, s, events, t)
    ensures Safe(t) && Grows(s.store, t.store)
    decreases |events|
  {
    hide Safe, Grows, Apply, Enabled;
    if events == [] {
      GrowsReflexive(s.store);
    } else {
      ApplyIsSafe(hash, s, events[0]);
      var next := Apply(hash, s, events[0]);
      EveryRunIsSafe(hash, next, events[1..], t);
      GrowsTransitive(s.store, next.store, t.store);
    }
  }
}
