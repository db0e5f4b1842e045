/** `processQueue` of server/src/database_worker.cpp on the in-memory store. Each iteration is a path of the step
machine of module Server; what other workers may do in between is the machine's business. */
module DatabaseWorker {
  import opened Wrappers
  import opened Store
  import opened History
  import opened Server
  import opened StoreInvariant
  import opened WorkerSafety
  import opened Effects
  import opened InMemory
  import LockQueue

  // ---------------------------------------------------------------- paths of the step machine

  /** Silent steps from (`s`, `pc`) to (`t`, `at`), one for each choice. */
  ghost predicate Path(hash: Hash, now: nat, s: Storage, pc: Pc, choices: seq<Choice>, t: Storage, at: Pc)
    decreases |choices|
  {
    if choices == [] then s == t && pc == at
    else
      && choices[0].now == now && CanStep(s, pc, choices[0])
      && var out := WorkerStep(hash, s, pc, choices[0]);
        out.send.None? && !out.pc.Free? && Path(hash, now, out.store, out.pc, choices[1..], t, at)
  }

  ghost predicate Reaches(hash: Hash, now: nat, s: Storage, pc: Pc, t: Storage, at: Pc) {
    exists choices :: Path(hash, now, s, pc, choices, t, at)
  }

  /** The task can end with outcome `out`. */
  ghost predicate Finishes(hash: Hash, now: nat, s: Storage, pc: Pc, out: Outcome) {
    exists t, at, choice: Choice ::
      && Reaches(hash, now, s, pc, t, at) && choice.now == now && CanStep(t, at, choice)
      && WorkerStep(hash, t, at, choice) == out && out.pc.Free?
  }

  /** The same response; the positions of polled messages are not part of it. */
  predicate Shows(send: Option<Send>, reply: Option<Send>) {
    if send.Some? && send.value.IdleMessages? then
      reply.Some? && reply.value.IdleMessages? && reply.value.batch == send.value.batch
    else reply == send
  }

  /** The worker may turn storage `s` into `t` with this response, for `task`. */
  ghost predicate Done(hash: Hash, now: nat, s: Storage, task: Task, t: Storage, reply: Option<Send>) {
    exists out :: Finishes(hash, now, s, Taken(task), out) && out.store == t && Shows(out.send, reply)
  }

  lemma PathStarts(hash: Hash, now: nat, s: Storage, pc: Pc)
    ensures Reaches(hash, now, s, pc, s, pc)
  {
    assert Path(hash, now, s, pc, [], s, pc);
  }

  lemma {:induction false} PathExtends(hash: Hash, now: nat, s: Storage, pc: Pc, choices: seq<Choice>, t: Storage,
                                       at: Pc, choice: Choice)
    requires Path(hash, now, s, pc, choices, t, at) && choice.now == now && CanStep(t, at, choice)
    requires var out := WorkerStep(hash, t, at, choice); out.send.None? && !out.pc.Free?
    ensures var out := WorkerStep(hash, t, at, choice); Path(hash, now, s, pc, choices + [choice], out.store, out.pc)
    decreases |choices|
  {
    hide CanStep, WorkerStep;
    var out := WorkerStep(hash, t, at, choice);
    if choices == [] {
      assert ([] + [choice])[1..] == [];
      assert Path(hash, now, out.store, out.pc, [], out.store, out.pc);
    } else {
      var first := WorkerStep(hash, s, pc, choices[0]);
      PathExtends(hash, now, first.store, first.pc, choices[1..], t, at, choice);
      assert (choices + [choice])[1..] == choices[1..] + [choice];
    }
  }

  /** One more step. */
  lemma Step(hash: Hash, now: nat, s: Storage, pc: Pc, t: Storage, at: Pc, choice: Choice)
    requires Reaches(hash, now, s, pc, t, at) && choice.now == now && CanStep(t, at, choice)
    ensures var out := WorkerStep(hash, t, at, choice);
      && (out.pc.Free? ==> Finishes(hash, now, s, pc, out))
      && (!out.pc.Free? && out.send.None? ==> Reaches(hash, now, s, pc, out.store, out.pc))
  {
    hide CanStep, WorkerStep, Path;
    var out := WorkerStep(hash, t, at, choice);
    if !out.pc.Free? && out.send.None? {
      var choices :| Path(hash, now, s, pc, choices, t, at);
      PathExtends(hash, now, s, pc, choices, t, at, choice);
    }
  }

  /** The step ends the task, or silently leads to `next`. */
  lemma StepTo(hash: Hash, now: nat, s: Storage, task: Task, t: Storage, at: Pc, choice: Choice, out: Outcome)
    requires Reaches(hash, now, s, Taken(task), t, at) && choice.now == now && CanStep(t, at, choice)
    requires out == WorkerStep(hash, t, at, choice)
    ensures out.pc.Free? ==> Done(hash, now, s, task, out.store, out.send)
    ensures !out.pc.Free? && out.send.None? ==> Reaches(hash, now, s, Taken(task), out.store, out.pc)
  {
    hide CanStep, WorkerStep, Reaches, Finishes;
    Step(hash, now, s, Taken(task), t, at, choice);
    assert out.pc.Free? ==> Shows(out.send, out.send);
  }

  // ---------------------------------------------------------------- what an uninterrupted task does

  lemma {:induction false} PathIsGrounded(hash: Hash, now: nat, s: Storage, pc: Pc, choices: seq<Choice>, t: Storage,
                                          at: Pc)
    requires Path(hash, now, s, pc, choices, t, at) && !pc.Free? && !pc.task.cmd.IDLE?
    requires Inv(s) && PcOk(s, pc) && Grounded(hash, s, pc)
    ensures t == s && PcOk(s, at) && Grounded(hash, s, at) && !at.Free? && at.task == pc.task
    decreases |choices|
  {
    if choices != [] {
      StepSafe(hash, s, pc, choices[0]);
      WorkerGrounded(hash, s, pc, choices[0]);
      QuietIsNothing(s, pc, now, WorkerStep(hash, s, pc, choices[0]).store);
      hide Inv, Knows, Grounded, WorkerStep, CanStep, Justified, SendOk, Grows, Quiet;
      var out := WorkerStep(hash, s, pc, choices[0]);
      PathIsGrounded(hash, now, out.store, out.pc, choices[1..], t, at);
    }
  }

  lemma QuietIsNothing(s: Storage, pc: Pc, now: nat, t: Storage)
    requires !pc.Free? && !pc.task.cmd.IDLE? && InBranch(pc)
    ensures Quiet(s, pc, now, t) ==> t == s
  {
  }

  lemma NewsAreForPolls(hash: Hash, s: Storage, task: Task, now: nat, t: Storage, send: Send)
    ensures Justified(hash, s, task, now, t, send) && send.IdleMessages? ==> task.cmd.IDLE?
  {
    hide Authorised, ShowsNews;
  }

  lemma LastStepIsJustified(hash: Hash, s: Storage, at: Pc, choice: Choice)
    requires Inv(s) && PcOk(s, at) && Grounded(hash, s, at) && CanStep(s, at, choice) && !at.task.cmd.IDLE?
    ensures var out, task := WorkerStep(hash, s, at, choice), at.task;
      && (out.send.Some? ==> !out.send.value.IdleMessages?)
      && (out.send.Some? ==> Justified(hash, s, task, choice.now, out.store, out.send.value))
      && (out.send.None? && out.pc.Free? ==> Unhandled(task.cmd) && out.store == s)
  {
    assert !at.Free?;
    hide Inv, Knows, Grounded, WorkerStep, Grows, Quiet, Justified, SendOk, CanStep;
    var out := WorkerStep(hash, s, at, choice);
    StepSafe(hash, s, at, choice);
    WorkerGrounded(hash, s, at, choice);
    QuietIsNothing(s, at, choice.now, out.store);
    if out.send.Some? { NewsAreForPolls(hash, s, at.task, choice.now, out.store, out.send.value); }
  }

  /** Without interruption the response is right for the storage the task began with and the time it was given. */
  lemma DoneIsJustified(hash: Hash, now: nat, s: Storage, task: Task, t: Storage, reply: Option<Send>)
    requires Inv(s) && Done(hash, now, s, task, t, reply) && !task.cmd.IDLE?
    ensures reply.Some? ==> Justified(hash, s, task, now, t, reply.value)
    ensures reply.None? ==> Unhandled(task.cmd) && t == s
  {
    hide Inv, PcOk, Grounded, WorkerStep, CanStep, Path, Justified;
    var out :| Finishes(hash, now, s, Taken(task), out) && out.store == t && Shows(out.send, reply);
    var u, at, choice: Choice :| Reaches(hash, now, s, Taken(task), u, at) && choice.now == now
      && CanStep(u, at, choice) && WorkerStep(hash, u, at, choice) == out && out.pc.Free?;
    var choices :| Path(hash, now, s, Taken(task), choices, u, at);
    TakenIsOk(s, task);
    TakenIsGrounded(hash, s, task);
    PathIsGrounded(hash, now, s, Taken(task), choices, u, at);
    LastStepIsJustified(hash, s, at, choice);
  }

  // ---------------------------------------------------------------- helpers of processQueue

  /** `lookup_check_pass`: the user, or the error it sent and an empty record. */
  method LookupCheckPass(hash: Hash, task: Task, conn: InMemoryConnection) returns (user: User, error: Option<Send>)
    ensures error.Some? ==>
      user == NO_USER && CheckPass(hash, conn.Contents(), task) == Sent(conn.Contents(), error.value)
    ensures error.None? ==>
      user.id != 0 && CheckPass(hash, conn.Contents(), task) == Goes(conn.Contents(), Checked(task, user))
    ensures Inv(conn.Contents()) ==> (error.None? <==> Authorised(hash, conn.Contents(), task))
  {
    if Inv(conn.Contents()) { CheckPassDecides(hash, conn.Contents(), task); }
    user := conn.LookupUserById(task.request.uid);
    error := None;
    if user.id == 0 {
      return NO_USER, Some(ErrorReply(409, "user does not exist"));
    }
    if hash(task.request.password) != user.password {
      return NO_USER, Some(ErrorReply(403, "wrong password"));
    }
  }

  /** `lookup_check_pass_by_name`. */
  method LookupCheckPassByName(hash: Hash, name: string, task: Task, conn: InMemoryConnection, checkPass: bool)
    returns (user: User, error: Option<Send>)
    ensures error.Some? ==> user == NO_USER && ByName(hash, conn.Contents(), task, name, checkPass) == (None, error)
    ensures error.None? ==> ByName(hash, conn.Contents(), task, name, checkPass) == (Some(user), None)
  {
    var users := conn.LookupUserByName(name);
    if |users| != 1 {
      if |users| == 0 {
        return NO_USER, Some(ErrorReply(404, "user does not exist"));
      }
      return NO_USER, Some(ErrorReply(500, "more than one user with that name"));
    }
    user, error := users[0], None;
    if checkPass {
      if hash(task.request.password) != user.password {
        return NO_USER, Some(ErrorReply(403, "wrong password"));
      }
    }
  }

  function Shown(s: Storage, m: Message): ApiMessage {
    ApiMessage(m.ts, LookupUserById(s, m.userFrom).name, LookupChatById(s, m.chatTo).name, m.text)
  }

  function AllShown(s: Storage, ms: seq<Message>): (r: seq<ApiMessage>)
    ensures |r| == |ms|
  {
    seq(|ms|, i requires 0 <= i < |ms| => Shown(s, ms[i]))
  }

  /** `to_api_format`: one lookup of the chat and one of the sender for each message, in order. */
  method ToApiFormat(msgs: seq<Message>, conn: InMemoryConnection) returns (ret: seq<ApiMessage>)
    ensures ret == AllShown(conn.Contents(), msgs)
  {
    ret := [];
    for i := 0 to |msgs|
      invariant ret == AllShown(conn.Contents(), msgs[..i])
    {
      var chat := conn.LookupChatById(msgs[i].chatTo);
      var user := conn.LookupUserById(msgs[i].userFrom);
      ret := ret + [ApiMessage(msgs[i].ts, user.name, chat.name, msgs[i].text)];
      assert msgs[..i + 1] == msgs[..i] + [msgs[i]];
    }
    assert msgs[..|msgs|] == msgs;
  }

  function Msgs(entries: seq<Entry>): (r: seq<Message>)
    ensures |r| == |entries|
  {
    seq(|entries|, i requires 0 <= i < |entries| => entries[i].msg)
  }

  /** The lookups of `to_api_format` are steps of the machine, the last of which sends. */
  lemma {:induction false} FormatIsAPath(hash: Hash, now: nat, s: Storage, task: Task, t: Storage,
                                         entries: seq<Entry>, k: nat)
    requires k <= |entries|
    requires Reaches(hash, now, s, Taken(task), t, Format(task, entries, AllShown(t, Msgs(entries))[..k]))
    ensures var api := AllShown(t, Msgs(entries));
      Done(hash, now, s, task, t, Some(if task.cmd.IDLE? then IdleMessages([], api) else OkMessages(api)))
    decreases |entries| - k
  {
    var api := AllShown(t, Msgs(entries));
    hide Reaches, Finishes, LookupChatById, LookupUserById;
    Step(hash, now, s, Taken(task), t, Format(task, entries, api[..k]), Choice(now, []));
    if k < |entries| {
      var next := FormatFrom(task, entries, api[..k], LookupChatById(t, entries[k].msg.chatTo));
      Step(hash, now, s, Taken(task), t, next, Choice(now, []));
      assert api[..k + 1] == api[..k] + [api[k]];
      FormatIsAPath(hash, now, s, task, t, entries, k + 1);
    } else {
      assert api[..k] == api;
      var out := FormatStep(t, task, entries, api);
      assert Finishes(hash, now, s, Taken(task), out);
    }
  }

  /** After `lookup_check_pass`: the task is over, or at `Checked`. */
  lemma AfterCheck(hash: Hash, now: nat, s: Storage, task: Task, user: User, error: Option<Send>)
    requires NeedsPassword(task.cmd)
    requires CheckPass(hash, s, task) == if error.Some? then Sent(s, error.value) else Goes(s, Checked(task, user))
    ensures error.Some? ==> Done(hash, now, s, task, s, error)
    ensures error.None? ==> Reaches(hash, now, s, Taken(task), s, Checked(task, user))
  {
    hide CheckPass, Reaches, Done;
    PathStarts(hash, now, s, Taken(task));
    StepTo(hash, now, s, task, s, Taken(task), Choice(now, []), CheckPass(hash, s, task));
  }

  /** A step from `Checked` with outcome `out`. */
  lemma AfterChecked(hash: Hash, now: nat, s: Storage, task: Task, t: Storage, user: User, out: Outcome)
    requires Reaches(hash, now, s, Taken(task), t, Checked(task, user)) && out == CheckedStep(hash, t, task, user, now)
    ensures out.pc.Free? ==> Done(hash, now, s, task, out.store, out.send)
    ensures !out.pc.Free? && out.send.None? ==> Reaches(hash, now, s, Taken(task), out.store, out.pc)
  {
    hide CheckedStep, Reaches, Done;
    StepTo(hash, now, s, task, t, Checked(task, user), Choice(now, []), out);
  }

  lemma AfterPeered(hash: Hash, now: nat, s: Storage, task: Task, t: Storage, user: User, peer: User, out: Outcome)
    requires Reaches(hash, now, s, Taken(task), t, Peered(task, user, peer))
    requires out == PeeredStep(t, task, user, peer, now)
    ensures out.pc.Free? ==> Done(hash, now, s, task, out.store, out.send)
    ensures !out.pc.Free? && out.send.None? ==> Reaches(hash, now, s, Taken(task), out.store, out.pc)
  {
    hide PeeredStep, Reaches, Done;
    StepTo(hash, now, s, task, t, Peered(task, user, peer), Choice(now, []), out);
  }

  lemma AfterHaveChat(hash: Hash, now: nat, s: Storage, task: Task, t: Storage, user: User, peer: User, chat: Chat,
                      out: Outcome)
    requires Reaches(hash, now, s, Taken(task), t, HaveChat(task, user, peer, chat))
    requires out == HaveChatStep(t, task, user, peer, chat, now)
    ensures out.pc.Free? ==> Done(hash, now, s, task, out.store, out.send)
  {
    hide HaveChatStep, Reaches, Done;
    StepTo(hash, now, s, task, t, HaveChat(task, user, peer, chat), Choice(now, []), out);
  }

  /** The commands without a password check, which take one step. */
  lemma InOneStep(hash: Hash, now: nat, s: Storage, task: Task, out: Outcome)
    requires out == TakenStep(hash, s, task) && out.pc.Free?
    ensures Done(hash, now, s, task, out.store, out.send)
  {
    hide TakenStep, Reaches, Done;
    PathStarts(hash, now, s, Taken(task));
    StepTo(hash, now, s, task, s, Taken(task), Choice(now, []), out);
  }

  // ---------------------------------------------------------------- the loop body

  class DatabaseWorker {
    const hash: Hash
    const conn: InMemoryConnection

    constructor (hash: Hash, conn: InMemoryConnection)
      ensures this.hash == hash && this.conn == conn
    {
      this.hash, this.conn := hash, conn;
    }

    ghost predicate Completes(s: Storage, task: Task, now: nat, reply: Option<Send>)
      reads this, conn
    {
      Done(hash, now, s, task, conn.Contents(), reply)
    }

    method UserStatus(task: Task, ghost now: nat) returns (reply: Option<Send>)
      requires task.cmd.USER_STATUS?
      ensures Completes(conn.Contents(), task, now, reply)
    {
      hide Done, Reaches, CheckPass, ByName;
      ghost var s := conn.Contents();
      var user, error := LookupCheckPass(hash, task, conn);
      AfterCheck(hash, now, s, task, user, error);
      if user.id == 0 {
        return error;
      }
      var userTo, error' := LookupCheckPassByName(hash, task.request.user, task, conn, false);
      AfterChecked(hash, now, s, task, s, user, CheckedStep(hash, s, task, user, now));
      if userTo.id == 0 {
        return error';
      }
      return Some(OkUser(userTo));
    }

    method CreateUser(task: Task, ghost now: nat) returns (reply: Option<Send>)
      requires task.cmd.USER_CREATE?
      modifies conn
      ensures Completes(old(conn.Contents()), task, now, reply)
    {
      hide Done, Store.CreateUser;
      InOneStep(hash, now, conn.Contents(), task, TakenStep(hash, conn.Contents(), task));
      var user := conn.CreateUser(task.request.user, hash(task.request.password), "localhost:3306",
                                  task.request.ipAddress, task.request.city);
      if user.id == 0 {
        return Some(ErrorReply(409, "user already exists"));
      }
      return Some(OkUser(user));
    }

    method Login(task: Task, ghost now: nat) returns (reply: Option<Send>)
      requires task.cmd.USER_LOGIN?
      ensures Completes(conn.Contents(), task, now, reply)
    {
      hide Done, ByName;
      InOneStep(hash, now, conn.Contents(), task, TakenStep(hash, conn.Contents(), task));
      var user, error := LookupCheckPassByName(hash, task.request.user, task, conn, true);
      if user.id == 0 {
        return error;
      }
      return Some(OkUser(user));
    }

    method CreateChat(task: Task, ghost now: nat) returns (reply: Option<Send>)
      requires task.cmd.CHAT_CREATE?
      modifies conn
      ensures Completes(old(conn.Contents()), task, now, reply)
    {
      hide Done, Reaches, CheckPass, Store.CreateChat;
      ghost var s := conn.Contents();
      var user, error := LookupCheckPass(hash, task, conn);
      AfterCheck(hash, now, s, task, user, error);
      if user.id == 0 {
        return error;
      }
      AfterChecked(hash, now, s, task, s, user, CheckedStep(hash, s, task, user, now));
      var chat := conn.CreateChat(task.request.chatName, task.request.uid);
      if chat.id == 0 {
        return Some(ErrorReply(409, "chat already exists"));
      }
      return Some(OkChat(chat));
    }

    method SendMessage(task: Task, now: nat) returns (reply: Option<Send>)
      requires task.cmd.MESSAGE_SEND?
      modifies conn
      ensures Completes(old(conn.Contents()), task, now, reply)
    {
      hide Done, Reaches, CheckPass, Store.LookupUserByName, Store.SaveMessage;
      ghost var s := conn.Contents();
      var user, error := LookupCheckPass(hash, task, conn);
      AfterCheck(hash, now, s, task, user, error);
      if user.id == 0 {
        return error;
      }
      var usersTo := conn.LookupUserByName(task.request.toUser);
      AfterChecked(hash, now, s, task, s, user, CheckedStep(hash, s, task, user, now));
      if |usersTo| != 1 {
        if |usersTo| == 0 {
          return Some(ErrorReply(404, "user to does not exist"));
        }
        return Some(ErrorReply(500, "more than one user with that name"));
      }
      AfterPeered(hash, now, s, task, s, user, usersTo[0], PeeredStep(s, task, user, usersTo[0], now));
      conn.SaveMessage(NewMessage(user.id, usersTo[0].selfChatId, task.request.message, now));
      return Some(OkStatus);
    }

    method AddUserToChat(task: Task, ghost now: nat) returns (reply: Option<Send>)
      requires task.cmd.CHAT_ADDUSER?
      modifies conn
      ensures Completes(old(conn.Contents()), task, now, reply)
    {
      hide Done, Reaches, CheckPass, ByName, Store.LookupChatByName, Store.AddUserToChat;
      ghost var s := conn.Contents();
      var user, error := LookupCheckPass(hash, task, conn);
      AfterCheck(hash, now, s, task, user, error);
      if user.id == 0 {
        return error;
      }
      var toAdd, error' := LookupCheckPassByName(hash, task.request.chatAdduser, task, conn, false);
      AfterChecked(hash, now, s, task, s, user, CheckedStep(hash, s, task, user, now));
      if toAdd.id == 0 {
        return error';
      }
      var chats := conn.LookupChatByName(task.request.chatName);
      AfterPeered(hash, now, s, task, s, user, toAdd, PeeredStep(s, task, user, toAdd, now));
      if |chats| != 1 {
        return Some(ErrorReply(404, "chat does not exist"));
      }
      AfterHaveChat(hash, now, s, task, s, user, toAdd, chats[0], HaveChatStep(s, task, user, toAdd, chats[0], now));
      conn.AddUserToChat(chats[0], toAdd);
      return Some(OkStatus);
    }

    method SendToChat(task: Task, now: nat) returns (reply: Option<Send>)
      requires task.cmd.MESSAGE_SEND_CHAT?
      modifies conn
      ensures Completes(old(conn.Contents()), task, now, reply)
    {
      hide Done, Reaches, CheckPass, Store.LookupChatByName, Store.SaveMessage;
      ghost var s := conn.Contents();
      var user, error := LookupCheckPass(hash, task, conn);
      AfterCheck(hash, now, s, task, user, error);
      if user.id == 0 {
        return error;
      }
      var chats := conn.LookupChatByName(task.request.chatName);
      AfterChecked(hash, now, s, task, s, user, CheckedStep(hash, s, task, user, now));
      if |chats| != 1 {
        return Some(ErrorReply(404, "chat does not exist"));
      }
      AfterHaveChat(hash, now, s, task, s, user, user, chats[0], HaveChatStep(s, task, user, user, chats[0], now));
      conn.SaveMessage(NewMessage(user.id, chats[0].id, task.request.message, now));
      return Some(OkStatus);
    }

    method Locations(task: Task, ghost now: nat) returns (reply: Option<Send>)
      requires task.cmd.GET_LOCATIONS? || task.cmd.CHAT_WITH_LOCATION?
      ensures Completes(conn.Contents(), task, now, reply)
    {
      hide Done, Reaches, CheckPass, DistinctLocations;
      ghost var s := conn.Contents();
      var user, error := LookupCheckPass(hash, task, conn);
      AfterCheck(hash, now, s, task, user, error);
      if user.id == 0 {
        return error;
      }
      AfterChecked(hash, now, s, task, s, user, CheckedStep(hash, s, task, user, now));
      if task.cmd.GET_LOCATIONS? {
        var locations := conn.GetAllDistinctLocations();
        if locations == {} {
          return Some(ErrorReply(404, "no locations"));
        }
        return Some(OkItems(locations));
      }
      var users := conn.GetAllUsersFromLocation(task.request.city);
      if users == {} {
        return Some(ErrorReply(404, "no users from " + task.request.city));
      }
      return Some(OkItems(users));
    }

    method UserHistory(task: Task, ghost now: nat) returns (reply: Option<Send>)
      requires task.cmd.USER_HISTORY?
      ensures Completes(conn.Contents(), task, now, reply)
    {
      hide Done, Reaches, CheckPass, ByName, Store.SelectMessages, Cut, PageEntries, IsSortOf;
      ghost var s := conn.Contents();
      var userFrom, error := LookupCheckPass(hash, task, conn);
      AfterCheck(hash, now, s, task, userFrom, error);
      if userFrom.id == 0 {
        return error;
      }
      var userTo, error' := LookupCheckPassByName(hash, task.request.user, task, conn, false);
      AfterChecked(hash, now, s, task, s, userFrom, CheckedStep(hash, s, task, userFrom, now));
      if userTo.id == 0 {
        return error';
      }
      var maxCount := HistoryLimit(task.request.count);
      var to := conn.SelectMessages(Direction(userFrom, userTo), maxCount);
      AfterPeered(hash, now, s, task, s, userFrom, userTo, PeeredStep(s, task, userFrom, userTo, now));
      var from := conn.SelectMessages(Direction(userTo, userFrom), maxCount);
      var mix := MixFromAndToMessages(from, to, task.request.count);
      AfterMix(hash, now, s, task, userFrom, userTo, to, mix);
      var api := ToApiFormat(mix, conn);
      return Some(OkMessages(api));
    }

    /** `lookupChatsForUserId`: the ids under the lock, then one lookup for each. */
    method LookupChatsForUserId(task: Task, ghost now: nat, ghost s: Storage, user: User) returns (chats: seq<Chat>)
      requires Reaches(hash, now, s, Taken(task), conn.Contents(), Beaten(task, user))
      ensures Reaches(hash, now, s, Taken(task), conn.Contents(), Poll(task, chats, []))
    {
      hide Reaches, Done, ChatIdsOf, Store.LookupChatById;
      ghost var t := conn.Contents();
      var ids := conn.LookupChatIdsForUserId(user.id);
      StepTo(hash, now, s, task, t, Beaten(task, user), Choice(now, []), Goes(t, Chats(task, ids, [])));
      chats := [];
      assert ids[0..] == ids;
      for i := 0 to |ids|
        invariant Reaches(hash, now, s, Taken(task), t, Chats(task, ids[i..], chats))
      {
        var chat := conn.LookupChatById(ids[i]);
        StepTo(hash, now, s, task, t, Chats(task, ids[i..], chats), Choice(now, []),
               Goes(t, Chats(task, ids[i..][1..], chats + [chat])));
        assert ids[i..][1..] == ids[i + 1..];
        chats := chats + [chat];
      }
      StepTo(hash, now, s, task, t, Chats(task, [], chats), Choice(now, []), Goes(t, Poll(task, chats, [])));
    }

    method Idle(task: Task, now: nat) returns (reply: Option<Send>)
      requires task.cmd.IDLE?
      modifies conn
      ensures Completes(old(conn.Contents()), task, now, reply)
    {
      hide Done, Reaches, CheckPass, Store.UpdateUserHeartBit, Store.GetMessages, Selected, Entries;
      ghost var s := conn.Contents();
      var user, error := LookupCheckPass(hash, task, conn);
      AfterCheck(hash, now, s, task, user, error);
      if user.id == 0 {
        return error;
      }
      AfterChecked(hash, now, s, task, s, user, CheckedStep(hash, s, task, user, now));
      conn.UpdateUserHeartBit(user.id, now);
      var chats := LookupChatsForUserId(task, now, s, user);
      var msgsBatch: seq<seq<Message>> := [];
      ghost var batch: seq<Entry> := [];
      assert chats[0..] == chats;
      for i := 0 to |chats|
        invariant Reaches(hash, now, s, Taken(task), conn.Contents(), Poll(task, chats[i..], batch))
        invariant Flat(msgsBatch) == Msgs(batch) && (msgsBatch == [] <==> batch == [])
      {
        ghost var t := conn.Contents();
        var msgs := conn.GetMessages(chats[i].id, task.request.ts, DEFAULT_MAX_COUNT);
        ghost var more := PollOne(hash, now, s, task, t, chats[i..], batch);
        assert chats[i..][1..] == chats[i + 1..];
        if msgs != [] {
          FlatSnoc(msgsBatch, msgs);
          msgsBatch := msgsBatch + [msgs];
        }
        batch := batch + more;
      }
      AfterPoll(hash, now, s, task, conn.Contents(), batch);
      if msgsBatch != [] {
        var api := ToApiFormatBatch(msgsBatch, conn);
        return Some(IdleMessages([], api));
      }
      if task.ping {
        return Some(IdleMessages([], []));
      }
      return None;
    }

    /** One iteration of `processQueue`. The commands without a branch end without a response. */
    method ProcessTask(task: Task, now: nat) returns (reply: Option<Send>)
      modifies conn
      ensures Completes(old(conn.Contents()), task, now, reply)
      ensures Inv(old(conn.Contents())) && !task.cmd.IDLE? && reply.Some? ==>
        Justified(hash, old(conn.Contents()), task, now, conn.Contents(), reply.value)
    {
      hide Done, TakenStep, Inv, Justified;
      ghost var s := conn.Contents();
      match task.cmd {
        case IDLE => reply := Idle(task, now);
        case USER_STATUS => reply := UserStatus(task, now);
        case USER_HISTORY => reply := UserHistory(task, now);
        case MESSAGE_SEND => reply := SendMessage(task, now);
        case USER_CREATE => reply := CreateUser(task, now);
        case USER_LOGIN => reply := Login(task, now);
        case CHAT_CREATE => reply := CreateChat(task, now);
        case CHAT_ADDUSER => reply := AddUserToChat(task, now);
        case MESSAGE_SEND_CHAT => reply := SendToChat(task, now);
        case GET_LOCATIONS => reply := Locations(task, now);
        case CHAT_WITH_LOCATION => reply := Locations(task, now);
        case _ =>
          reply := None;
          NoBranch(hash, now, conn.Contents(), task);
      }
      if Inv(s) && !task.cmd.IDLE? { DoneIsJustified(hash, now, s, task, conn.Contents(), reply); }
    }

    /** Takes a task if there is one. */
    method ProcessNext(queue: LockQueue.Queue<Task>, empty: Task, now: nat, ghost worker: nat)
      returns (took: bool, task: Task, reply: Option<Send>)
      requires conn as object != queue
      modifies conn, queue
      ensures took <==> old(queue.items) != []
      ensures took ==> old(queue.items) == [task] + queue.items && Completes(old(conn.Contents()), task, now, reply)
      ensures !took ==> queue.items == [] && conn.Contents() == old(conn.Contents())
      ensures queue.View() == LockQueue.Locked(old(queue.View()), LockQueue.TakeOne(worker))
    {
      hide Done;
      took, task := queue.GetTask(empty, worker);
      reply := None;
      if took {
        reply := ProcessTask(task, now);
      }
    }
  }

  lemma NoBranch(hash: Hash, now: nat, s: Storage, task: Task)
    requires task.cmd.CHAT_HISTORY? || task.cmd.CHAT_STATUS? || task.cmd.MESSAGE_RECENT?
    ensures Done(hash, now, s, task, s, None)
  {
    InOneStep(hash, now, s, task, Goes(s, Free));
  }

  // ---------------------------------------------------------------- the poll

  function Flat<T>(parts: seq<seq<T>>): seq<T> {
    if parts == [] then [] else Flat(parts[..|parts| - 1]) + parts[|parts| - 1]
  }

  lemma FlatSnoc<T>(parts: seq<seq<T>>, part: seq<T>)
    ensures Flat(parts + [part]) == Flat(parts) + part
  {
    assert (parts + [part])[..|parts|] == parts;
  }

  /** The overload of `to_api_format` for the batches of several chats. */
  method ToApiFormatBatch(msgsBatch: seq<seq<Message>>, conn: InMemoryConnection) returns (ret: seq<ApiMessage>)
    ensures ret == AllShown(conn.Contents(), Flat(msgsBatch))
  {
    hide Shown;
    ret := [];
    for i := 0 to |msgsBatch|
      invariant ret == AllShown(conn.Contents(), Flat(msgsBatch[..i]))
    {
      var more := ToApiFormat(msgsBatch[i], conn);
      ret := ret + more;
      FlatSnoc(msgsBatch[..i], msgsBatch[i]);
      assert msgsBatch[..i + 1] == msgsBatch[..i] + [msgsBatch[i]];
    }
    assert msgsBatch[..|msgsBatch|] == msgsBatch;
  }

  /** One `getMessages` of the poll. */
  lemma PollOne(hash: Hash, now: nat, s: Storage, task: Task, t: Storage, chats: seq<Chat>, batch: seq<Entry>)
    returns (more: seq<Entry>)
    requires chats != [] && Reaches(hash, now, s, Taken(task), t, Poll(task, chats, batch))
    ensures var (u, found) := Store.GetMessages(t, chats[0].id, task.request.ts, DEFAULT_MAX_COUNT);
      && Reaches(hash, now, s, Taken(task), u, Poll(task, chats[1..], batch + more))
      && Msgs(batch + more) == Msgs(batch) + found && |more| == |found|
  {
    hide Reaches, Done, Selected, MarkRead, MatchesDown, Pick;
    var ts := task.request.ts;
    var idx := Selected(t.messages, InChatSince(chats[0].id, ts), DEFAULT_MAX_COUNT);
    more := Entries(idx, Store.GetMessages(t, chats[0].id, ts, DEFAULT_MAX_COUNT).1);
    StepTo(hash, now, s, task, t, Poll(task, chats, batch), Choice(now, []), PollStep(t, task, chats, batch));
  }

  /** The end of the poll. */
  lemma AfterPoll(hash: Hash, now: nat, s: Storage, task: Task, t: Storage, batch: seq<Entry>)
    requires task.cmd.IDLE? && Reaches(hash, now, s, Taken(task), t, Poll(task, [], batch))
    ensures batch != [] ==> Done(hash, now, s, task, t, Some(IdleMessages([], AllShown(t, Msgs(batch)))))
    ensures batch == [] ==> Done(hash, now, s, task, t, if task.ping then Some(IdleMessages([], [])) else None)
  {
    hide Reaches, Done, AllShown;
    StepTo(hash, now, s, task, t, Poll(task, [], batch), Choice(now, []), PollStep(t, task, [], batch));
    if batch != [] {
      assert AllShown(t, Msgs(batch))[..0] == [];
      FormatIsAPath(hash, now, s, task, t, batch, 0);
    }
  }


  /** Whatever order the sort produced, the machine can produce it too. */
  lemma AfterMix(hash: Hash, now: nat, s: Storage, task: Task, user: User, peer: User, to: seq<Message>,
                 mix: seq<Message>)
    requires task.cmd.USER_HISTORY? && Reaches(hash, now, s, Taken(task), s, Half(task, user, peer, to))
    requires IsPageOf(mix, MessagesFrom(s, user, peer, task.request.count) + to, task.request.count)
    ensures Done(hash, now, s, task, s, Some(OkMessages(AllShown(s, mix))))
  {
    hide Done, Reaches, Store.SelectMessages, IsSortOf, Cut;
    var merged := MessagesFrom(s, user, peer, task.request.count) + to;
    var order :| IsSortOf(order, merged) && mix == Cut(order, task.request.count);
    var entries := PageEntries(mix);
    StepTo(hash, now, s, task, s, Half(task, user, peer, to), Choice(now, order), Goes(s, Format(task, entries, [])));
    assert Msgs(entries) == mix;
    hide PageEntries;
    assert AllShown(s, Msgs(entries))[..0] == [];
    FormatIsAPath(hash, now, s, task, s, entries, 0);
  }
}
