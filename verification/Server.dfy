/** The server as a step system: connections (server/src/apiclient.cpp), the task queue, and the database
workers (`processQueue` in server/src/database_worker.cpp), whose steps are the atomic store calls. */
module Server {
  import opened Wrappers
  import opened Numbers
  import opened Store
  import opened History

  datatype Command =
    | MESSAGE_SEND | MESSAGE_SEND_CHAT | USER_CREATE | USER_LOGIN | USER_HISTORY | USER_STATUS | GET_LOCATIONS
    | CHAT_WITH_LOCATION | CHAT_CREATE | CHAT_HISTORY | CHAT_STATUS | CHAT_ADDUSER | MESSAGE_RECENT | IDLE

  datatype Params = Params(uid: nat, ts: nat, count: nat, message: string, toUser: string, user: string,
                           password: string, ipAddress: string, city: string, chatName: string, chatAdduser: string)

  /** `client` is the connection the task came from, `number` which of its requests it is. */
  datatype Task = Task(cmd: Command, request: Params, client: nat, number: nat, ping: bool)

  /** A message a poll found, with its position in the storage. */
  datatype Entry = Entry(index: nat, msg: Message)

  datatype ApiMessage = ApiMessage(ts: nat, from: string, to: string, msg: string)

  /** What a worker asks the connection to send. */
  datatype Send =
    | OkUser(user: User)
    | OkChat(chat: Chat)
    | OkStatus
    | OkItems(items: set<string>)
    | OkMessages(msgs: seq<ApiMessage>)
    | IdleMessages(entries: seq<Entry>, batch: seq<ApiMessage>)
    | ErrorReply(code: int, desc: string)

  // ---------------------------------------------------------------- one worker

  /** Where a worker is between two store calls, with its local variables. */
  datatype Pc =
    | Free
    | Taken(task: Task)
    | Checked(task: Task, user: User)
    | Peered(task: Task, user: User, peer: User)
    | HaveChat(task: Task, user: User, peer: User, chat: Chat)
    | Half(task: Task, user: User, peer: User, to: seq<Message>)
    | Format(task: Task, entries: seq<Entry>, done: seq<ApiMessage>)
    | FormatFrom(task: Task, entries: seq<Entry>, done: seq<ApiMessage>, chat: Chat)
    | Beaten(task: Task, user: User)
    | Chats(task: Task, ids: seq<nat>, chats: seq<Chat>)
    | Poll(task: Task, chats: seq<Chat>, batch: seq<Entry>)

  /** The password digest, which the model does not look into. */
  type Hash = string -> string

  /** What a step takes from outside: the clock, and the order `std::sort` happens to produce. */
  datatype Choice = Choice(now: nat, order: seq<Message>)

  datatype Outcome = Outcome(store: Storage, pc: Pc, send: Option<Send>)

  function Sent(s: Storage, send: Send): Outcome {
    Outcome(s, Free, Some(send))
  }

  function Goes(s: Storage, pc: Pc): Outcome {
    Outcome(s, pc, None)
  }

  /** `lookup_check_pass`. */
  function CheckPass(hash: Hash, s: Storage, task: Task): Outcome {
    var user := LookupUserById(s, task.request.uid);
    if user.id == 0 then Sent(s, ErrorReply(409, "user does not exist"))
    else if hash(task.request.password) != user.password then Sent(s, ErrorReply(403, "wrong password"))
    else Goes(s, Checked(task, user))
  }

  /** `lookup_check_pass_by_name`: a user, or the error that was sent instead. */
  function ByName(hash: Hash, s: Storage, task: Task, name: string, checkPass: bool): (Option<User>, Option<Send>) {
    var users := LookupUserByName(s, name);
    if |users| == 0 then (None, Some(ErrorReply(404, "user does not exist")))
    else if |users| > 1 then (None, Some(ErrorReply(500, "more than one user with that name")))
    else if checkPass && hash(task.request.password) != users[0].password then
      (None, Some(ErrorReply(403, "wrong password")))
    else (Some(users[0]), None)
  }

  function TakenStep(hash: Hash, s: Storage, task: Task): Outcome {
    match task.cmd
    case USER_CREATE =>
      var (t, user) := CreateUser(s, task.request.user, hash(task.request.password), "localhost:3306",
                                  task.request.ipAddress, task.request.city);
      if user.id == 0 then Sent(t, ErrorReply(409, "user already exists")) else Sent(t, OkUser(user))
    case USER_LOGIN =>
      (match ByName(hash, s, task, task.request.user, true)
       case (Some(user), _) => if user.id == 0 then Goes(s, Free) else Sent(s, OkUser(user))
       case (None, error) => Outcome(s, Free, error))
    case CHAT_HISTORY => Goes(s, Free)
    case CHAT_STATUS => Goes(s, Free)
    case MESSAGE_RECENT => Goes(s, Free)
    case _ => CheckPass(hash, s, task)
  }

  function FindPeer(hash: Hash, s: Storage, task: Task, user: User, name: string): Outcome {
    match ByName(hash, s, task, name, false)
    case (Some(peer), _) => if peer.id == 0 then Goes(s, Free) else Goes(s, Peered(task, user, peer))
    case (None, error) => Outcome(s, Free, error)
  }

  /** Recipients are looked up without `lookup_check_pass_by_name`, with an error text of their own. */
  function FindRecipient(s: Storage, task: Task, user: User): Outcome {
    var users := LookupUserByName(s, task.request.toUser);
    if |users| == 0 then Sent(s, ErrorReply(404, "user to does not exist"))
    else if |users| > 1 then Sent(s, ErrorReply(500, "more than one user with that name"))
    else Goes(s, Peered(task, user, users[0]))
  }

  function FindChat(s: Storage, task: Task, user: User, peer: User): Outcome {
    var chats := LookupChatByName(s, task.request.chatName);
    if |chats| != 1 then Sent(s, ErrorReply(404, "chat does not exist"))
    else Goes(s, HaveChat(task, user, peer, chats[0]))
  }

  function CheckedStep(hash: Hash, s: Storage, task: Task, user: User, now: nat): Outcome {
    match task.cmd
    case IDLE => Goes(UpdateUserHeartBit(s, user.id, now), Beaten(task, user))
    case USER_STATUS =>
      (match ByName(hash, s, task, task.request.user, false)
       case (Some(peer), _) => if peer.id == 0 then Goes(s, Free) else Sent(s, OkUser(peer))
       case (None, error) => Outcome(s, Free, error))
    case USER_HISTORY => FindPeer(hash, s, task, user, task.request.user)
    case MESSAGE_SEND => FindRecipient(s, task, user)
    case CHAT_CREATE =>
      var (t, chat) := CreateChat(s, task.request.chatName, task.request.uid);
      if chat.id == 0 then Sent(t, ErrorReply(409, "chat already exists")) else Sent(t, OkChat(chat))
    case CHAT_ADDUSER => FindPeer(hash, s, task, user, task.request.chatAdduser)
    case MESSAGE_SEND_CHAT => FindChat(s, task, user, user)
    case GET_LOCATIONS =>
      if DistinctLocations(s) == {} then Sent(s, ErrorReply(404, "no locations"))
      else Sent(s, OkItems(DistinctLocations(s)))
    case CHAT_WITH_LOCATION => Sent(s, OkItems({task.request.city}))
    case _ => Goes(s, Free)
  }

  function NewMessage(from: nat, to: nat, text: string, now: nat): Message {
    Message(from, to, text, now, UNREAD)
  }

  function PeeredStep(s: Storage, task: Task, user: User, peer: User, now: nat): Outcome {
    match task.cmd
    case USER_HISTORY => Goes(s, Half(task, user, peer, MessagesTo(s, user, peer, task.request.count)))
    case MESSAGE_SEND => Sent(SaveMessage(s, NewMessage(user.id, peer.selfChatId, task.request.message, now)), OkStatus)
    case CHAT_ADDUSER => FindChat(s, task, user, peer)
    case _ => Goes(s, Free)
  }

  function HaveChatStep(s: Storage, task: Task, user: User, peer: User, chat: Chat, now: nat): Outcome {
    match task.cmd
    case CHAT_ADDUSER => Sent(AddUserToChat(s, chat.id, peer.id), OkStatus)
    case MESSAGE_SEND_CHAT => Sent(SaveMessage(s, NewMessage(user.id, chat.id, task.request.message, now)), OkStatus)
    case _ => Goes(s, Free)
  }

  function Entries(idx: seq<nat>, ms: seq<Message>): seq<Entry>
    requires |idx| == |ms|
  {
    seq(|idx|, k requires 0 <= k < |idx| => Entry(idx[k], ms[k]))
  }

  /** The history page as entries; their positions are not used. */
  function PageEntries(page: seq<Message>): seq<Entry> {
    seq(|page|, k requires 0 <= k < |page| => Entry(0, page[k]))
  }

  function FormatStep(s: Storage, task: Task, entries: seq<Entry>, done: seq<ApiMessage>): Outcome {
    if |done| < |entries| then Goes(s, FormatFrom(task, entries, done, LookupChatById(s, entries[|done|].msg.chatTo)))
    else if task.cmd.IDLE? then Sent(s, IdleMessages(entries, done))
    else Sent(s, OkMessages(done))
  }

  function FormatFromStep(s: Storage, task: Task, entries: seq<Entry>, done: seq<ApiMessage>, chat: Chat): Outcome
    requires |done| < |entries|
  {
    var m := entries[|done|].msg;
    Goes(s, Format(task, entries, done + [ApiMessage(m.ts, LookupUserById(s, m.userFrom).name, chat.name, m.text)]))
  }

  function PollStep(s: Storage, task: Task, chats: seq<Chat>, batch: seq<Entry>): Outcome {
    if chats != [] then
      var (t, found) := GetMessages(s, chats[0].id, task.request.ts, DEFAULT_MAX_COUNT);
      var idx := Selected(s.messages, InChatSince(chats[0].id, task.request.ts), DEFAULT_MAX_COUNT);
      Goes(t, Poll(task, chats[1..], batch + Entries(idx, found)))
    else if batch != [] then Goes(s, Format(task, batch, []))
    else if task.ping then Sent(s, IdleMessages([], []))
    else Goes(s, Free)
  }

  /** The sort of the history merge may produce any sorted order. */
  ghost predicate CanStep(s: Storage, pc: Pc, choice: Choice) {
    && !pc.Free?
    && (pc.FormatFrom? ==> |pc.done| < |pc.entries|)
    && (pc.Half? ==> IsSortOf(choice.order, MessagesFrom(s, pc.user, pc.peer, pc.task.request.count) + pc.to))
  }

  /** One atomic step of a busy worker. */
  function WorkerStep(hash: Hash, s: Storage, pc: Pc, choice: Choice): Outcome
    requires CanStep(s, pc, choice)
  {
    match pc
    case Taken(task) => TakenStep(hash, s, task)
    case Checked(task, user) => CheckedStep(hash, s, task, user, choice.now)
    case Peered(task, user, peer) => PeeredStep(s, task, user, peer, choice.now)
    case HaveChat(task, user, peer, chat) => HaveChatStep(s, task, user, peer, chat, choice.now)
    case Half(task, _, _, _) => Goes(s, Format(task, PageEntries(Cut(choice.order, task.request.count)), []))
    case Format(task, entries, done) => FormatStep(s, task, entries, done)
    case FormatFrom(task, entries, done, chat) => FormatFromStep(s, task, entries, done, chat)
    case Beaten(task, user) => Goes(s, Chats(task, ChatIdsOf(s, user.id), []))
    case Chats(task, ids, chats) =>
      if ids == [] then Goes(s, Poll(task, chats, []))
      else Goes(s, Chats(task, ids[1..], chats + [LookupChatById(s, ids[0])]))
    case Poll(task, chats, batch) => PollStep(s, task, chats, batch)
  }

  // ---------------------------------------------------------------- connections

  /** Messages on their way to an idle client, and the watermark they were selected against. */
  datatype Batch = Batch(since: nat, entries: seq<Entry>)

  /** An idle connection: `params.ts` is the watermark the next poll will use, `newest` is
  `m_NewestMsgTimestamp`. `start` is the heartbit it began with, `delivered` the batches whose write completed. */
  datatype Idle = Idle(params: Params, newest: nat, lastPing: nat, timer: bool, start: nat, inFlight: seq<Batch>,
                       delivered: seq<Batch>)

  /** `reading`: a request read is armed; `writes`: responses being written; `answered`: the numbers of
  the requests responded to, in order; `dropped`: requests whose task ended without a response. */
  datatype Conn = Conn(reading: bool, writes: nat, received: nat, answered: seq<nat>, dropped: nat, idle: Option<Idle>)

  const NEW_CONN := Conn(true, 0, 0, [], 0, None)

  function Max(a: nat, b: nat): nat {
    if a >= b then a else b
  }

  /** `max_timestamp`: 0 for an empty batch. */
  function MaxTimestamp(entries: seq<Entry>): nat {
    if entries == [] then 0 else Max(MaxTimestamp(entries[..|entries| - 1]), entries[|entries| - 1].msg.ts)
  }

  /** `time(NULL) - m_LastClientPing > 5`, in unsigned arithmetic. */
  predicate PingDue(now: nat, lastPing: nat) {
    (now - lastPing) % U64 > 5
  }

  /** `timerWaitTaskResultHandler`. */
  function OnTick(idle: Idle, now: nat): Idle {
    idle.(params := idle.params.(ts := Max(idle.params.ts, idle.newest)),
          lastPing := if PingDue(now, idle.lastPing) then now else idle.lastPing)
  }

  function TickTask(idle: Idle, client: nat, number: nat, now: nat): Task {
    Task(IDLE, OnTick(idle, now).params, client, number, PingDue(now, idle.lastPing))
  }

  /** The write of batch `k` completed, or failed. */
  function OnIdleWrote(idle: Idle, k: nat, ok: bool): Idle
    requires k < |idle.inFlight|
  {
    var rest := idle.inFlight[..k] + idle.inFlight[k + 1..];
    if ok then
      idle.(newest := MaxTimestamp(idle.inFlight[k].entries), inFlight := rest,
            delivered := idle.delivered + [idle.inFlight[k]])
    else idle.(timer := false, inFlight := rest)
  }

  /** What the request handler makes of a request that was read. */
  datatype Request = Refused(code: int) | Accepted(cmd: Command, params: Params) | StartIdle(params: Params)

  datatype State = State(store: Storage, queue: seq<Task>, workers: seq<Pc>, conns: seq<Conn>)

  datatype Event =
    | Connect
    | Receive(client: nat, request: Request)
    | ReadError(client: nat)
    | Take(worker: nat)
    | Work(worker: nat, choice: Choice)
    | Wrote(client: nat)
    | Tick(client: nat, now: nat)
    | IdleWrote(client: nat, k: nat, ok: bool)

  /** A connection that has gone idle sends no further requests; several workers and writes may be busy at once. */
  ghost predicate Enabled(s: State, e: Event) {
    match e
    case Connect => true
    case Receive(c, request) =>
      && c < |s.conns| && s.conns[c].reading && s.conns[c].idle.None?
      && (request.Accepted? ==> !request.cmd.IDLE?)
    case ReadError(c) => c < |s.conns| && s.conns[c].reading
    case Take(w) => w < |s.workers| && s.workers[w].Free? && s.queue != []
    case Work(w, choice) =>
      w < |s.workers| && CanStep(s.store, s.workers[w], choice) && s.workers[w].task.client < |s.conns|
    case Wrote(c) => c < |s.conns| && s.conns[c].writes > 0
    case Tick(c, _) => c < |s.conns| && s.conns[c].idle.Some? && s.conns[c].idle.value.timer
    case IdleWrote(c, k, _) => c < |s.conns| && s.conns[c].idle.Some? && k < |s.conns[c].idle.value.inFlight|
  }

  function OnReceive(conn: Conn, request: Request): Conn {
    var c := conn.(reading := false, received := conn.received + 1);
    match request
    case Refused(_) => c.(writes := c.writes + 1, answered := c.answered + [conn.received])
    case Accepted(_, _) => c
    case StartIdle(params) =>
      c.(answered := c.answered + [conn.received], idle := Some(Idle(params, 0, 0, true, params.ts, [], [])))
  }

  /** The effect of the end of a task on its connection. */
  function OnSend(conn: Conn, task: Task, out: Outcome): Conn {
    match out.send
    case None => if out.pc.Free? && !task.cmd.IDLE? then conn.(dropped := conn.dropped + 1) else conn
    case Some(IdleMessages(entries, _)) =>
      if conn.idle.Some? then
        conn.(idle := Some(conn.idle.value.(inFlight := conn.idle.value.inFlight + [Batch(task.request.ts, entries)])))
      else conn
    case Some(_) => conn.(writes := conn.writes + 1, answered := conn.answered + [task.number])
  }

  function Apply(hash: Hash, s: State, e: Event): State
    requires Enabled(s, e)
  {
    match e
    case Connect => s.(conns := s.conns + [NEW_CONN])
    case Receive(c, request) =>
      var t := s.(conns := s.conns[c := OnReceive(s.conns[c], request)]);
      if request.Accepted? then
        t.(queue := s.queue + [Task(request.cmd, request.params, c, s.conns[c].received, false)])
      else t
    case ReadError(c) => s.(conns := s.conns[c := s.conns[c].(reading := false)])
    case Take(w) => s.(queue := s.queue[1..], workers := s.workers[w := Taken(s.queue[0])])
    case Work(w, choice) =>
      var pc := s.workers[w];
      var out := WorkerStep(hash, s.store, pc, choice);
      var c := pc.task.client;
      State(out.store, s.queue, s.workers[w := out.pc], s.conns[c := OnSend(s.conns[c], pc.task, out)])
    case Wrote(c) => s.(conns := s.conns[c := s.conns[c].(writes := s.conns[c].writes - 1, reading := true)])
    case Tick(c, now) =>
      var idle := s.conns[c].idle.value;
      s.(queue := s.queue + [TickTask(idle, c, s.conns[c].received, now)],
         conns := s.conns[c := s.conns[c].(idle := Some(OnTick(idle, now)))])
    case IdleWrote(c, k, ok) =>
      s.(conns := s.conns[c := s.conns[c].(idle := Some(OnIdleWrote(s.conns[c].idle.value, k, ok)))])
  }

  /** From `s` the events lead to `t`. */
  ghost predicate Run(hash: Hash, s: State, events: seq<Event>, t: State)
    decreases |events|
  {
    if events == [] then s == t else Enabled(s, events[0]) && Run(hash, Apply(hash, s, events[0]), events[1..], t)
  }

  lemma {:induction false} RunJoin(hash: Hash, s: State, a: seq<Event>, t: State, b: seq<Event>, u: State)
    requires Run(hash, s, a, t) && Run(hash, t, b, u)
    ensures Run(hash, s, a + b, u)
    decreases |a|
  {
    hide Enabled, Apply;
    if a == [] {
      assert a + b == b;
    } else {
      RunJoin(hash, Apply(hash, s, a[0]), a[1..], t, b, u);
      assert (a + b)[1..] == a[1..] + b;
    }
  }

  function Started(workers: nat): State {
    State(EMPTY_STORAGE, [], seq(workers, _ => Free), [])
  }
}
