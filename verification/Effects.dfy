/** What each request does. The response to it is true of the storage at the step that sends it, and that step
changes the storage as the request asks and in no other way. Everything is said in terms of the fields of the
request and of the records. */
module Effects {
  import opened Wrappers
  import opened Store
  import opened StoreInvariant
  import opened History
  import opened Server
  import opened WorkerSafety

  // ---------------------------------------------------------------- names and messages

  predicate IsNamed(s: Storage, id: nat, name: string) {
    HasUser(s, id) && s.users[id - 1].name == name
  }

  ghost predicate NoUserNamed(s: Storage, name: string) {
    forall i :: 0 <= i < |s.users| ==> s.users[i].name != name
  }

  predicate ChatIsNamed(s: Storage, id: nat, name: string) {
    HasChat(s, id) && s.chats[id - 1].name == name
  }

  ghost predicate NoChatNamed(s: Storage, name: string) {
    forall i :: 0 <= i < |s.chats| ==> s.chats[i].name != name
  }

  /** A name that two chats share is refused. */
  ghost predicate OnlyChatNamed(s: Storage, id: nat, name: string) {
    ChatIsNamed(s, id, name) && forall j :: ChatIsNamed(s, j, name) ==> j == id
  }

  ghost predicate Stored(s: Storage, m: Message) {
    exists i :: 0 <= i < |s.messages| && SameMessage(s.messages[i], m)
  }

  /** From one of the two users, in the self chat of the other one. */
  predicate BetweenTwo(s: Storage, a: nat, b: nat, m: Message) {
    && HasUser(s, a) && HasUser(s, b)
    && ((m.userFrom == a && m.chatTo == s.users[b - 1].selfChatId)
        || (m.userFrom == b && m.chatTo == s.users[a - 1].selfChatId))
  }

  /** A stored message between user `uid` and the user called `name`. */
  ghost predicate InConversation(s: Storage, uid: nat, name: string, m: Message) {
    Stored(s, m) && exists p :: IsNamed(s, p, name) && BetweenTwo(s, uid, p, m)
  }

  /** A stored message, newer than `since`, of a chat that user `uid` is in. */
  ghost predicate ForMember(s: Storage, uid: nat, since: nat, m: Message) {
    Stored(s, m) && Chatuser(m.chatTo, uid) in s.chatuser && m.ts > since
  }

  // ---------------------------------------------------------------- what a response says

  /** The messages of a response, newest first, with what they were made of. */
  ghost predicate ShowsConversation(s: Storage, task: Task, msgs: seq<ApiMessage>, page: seq<Message>) {
    && |page| == |msgs| <= task.request.count
    && (forall k :: 0 <= k < |page| ==> Rendered(s, page[k], msgs[k]))
    && (forall k :: 0 <= k < |page| ==> InConversation(s, task.request.uid, task.request.user, page[k]))
    && (forall k, l :: 0 <= k < l < |page| ==> page[k].ts >= page[l].ts)
  }

  ghost predicate ShowsNews(s: Storage, task: Task, entries: seq<Entry>, msgs: seq<ApiMessage>) {
    && |msgs| == |entries| && (entries == [] ==> task.ping)
    && (forall k :: 0 <= k < |entries| ==> Rendered(s, entries[k].msg, msgs[k]))
    && (forall k :: 0 <= k < |entries| ==> ForMember(s, task.request.uid, task.request.ts, entries[k].msg))
  }

  /** The new user, its self chat and its membership there are all that `t` has on top of `s`. */
  ghost predicate Registers(hash: Hash, s: Storage, request: Params, t: Storage, user: User) {
    && NoUserNamed(s, request.user)
    && user.id == |s.users| + 1 && user.selfChatId == |s.chats| + 1
    && user.name == request.user && user.password == hash(request.password)
    && user.ip == request.ipAddress && user.city == request.city && user.heartbit == 0
    && t.users == s.users + [user] && t.chats == s.chats + [Chat(user.selfChatId, request.user)]
    && t.chatuser == s.chatuser + [Chatuser(user.selfChatId, user.id)] && t.messages == s.messages
  }

  ghost predicate Posts(s: Storage, t: Storage, from: nat, chat: nat, text: string, now: nat) {
    t == s.(messages := t.messages) && t.messages == s.messages + [Message(from, chat, text, now, UNREAD)]
  }

  ghost predicate OpensChat(s: Storage, request: Params, t: Storage, chat: Chat) {
    && NoChatNamed(s, request.chatName)
    && chat == Chat(|s.chats| + 1, request.chatName)
    && t.users == s.users && t.messages == s.messages
    && t.chats == s.chats + [chat] && t.chatuser == s.chatuser + [Chatuser(chat.id, request.uid)]
  }

  /** The user is in the chat afterwards, and that is all that may have changed. */
  ghost predicate Joins(s: Storage, t: Storage, chat: nat, uid: nat) {
    && t == s.(chatuser := t.chatuser) && Chatuser(chat, uid) in t.chatuser
    && t.chatuser == s.chatuser + (if Chatuser(chat, uid) in s.chatuser then [] else [Chatuser(chat, uid)])
  }

  /** The acknowledgement of a message or of a new member. */
  ghost predicate Acknowledges(hash: Hash, s: Storage, task: Task, now: nat, t: Storage) {
    var r := task.request;
    && Authorised(hash, s, task)
    && match task.cmd
      case MESSAGE_SEND =>
        exists p :: IsNamed(s, p, r.toUser) && Posts(s, t, r.uid, s.users[p - 1].selfChatId, r.message, now)
      case MESSAGE_SEND_CHAT =>
        exists c :: ChatIsNamed(s, c, r.chatName) && Posts(s, t, r.uid, c, r.message, now)
      case CHAT_ADDUSER =>
        exists c, p :: ChatIsNamed(s, c, r.chatName) && IsNamed(s, p, r.chatAdduser) && Joins(s, t, c, p)
      case _ => false
  }

  /** The response with a user record. */
  ghost predicate Introduces(hash: Hash, s: Storage, task: Task, t: Storage, user: User) {
    match task.cmd
    case USER_CREATE => Registers(hash, s, task.request, t, user)
    case USER_LOGIN =>
      && t == s && IsNamed(s, user.id, task.request.user) && s.users[user.id - 1] == user
      && user.password == hash(task.request.password)
    case USER_STATUS =>
      && t == s && Authorised(hash, s, task)
      && IsNamed(s, user.id, task.request.user) && s.users[user.id - 1] == user
    case _ => false
  }

  /** The name that a command looks up with `lookup_check_pass_by_name`. */
  function LookedUp(cmd: Command, request: Params): Option<string> {
    match cmd
    case USER_LOGIN => Some(request.user)
    case USER_STATUS => Some(request.user)
    case USER_HISTORY => Some(request.user)
    case CHAT_ADDUSER => Some(request.chatAdduser)
    case _ => None
  }

  /** An error response has its reason. */
  ghost predicate Refuses(hash: Hash, s: Storage, task: Task, code: int, desc: string) {
    var r, known := task.request, Authorised(hash, s, task);
    if desc == "user already exists" then code == 409 && task.cmd.USER_CREATE? && !NoUserNamed(s, r.user)
    else if desc == "chat already exists" then
      code == 409 && task.cmd.CHAT_CREATE? && known && !NoChatNamed(s, r.chatName)
    else if desc == "wrong password" then
      && code == 403
      && (if task.cmd.USER_LOGIN? then
            exists p :: IsNamed(s, p, r.user) && s.users[p - 1].password != hash(r.password)
          else
            NeedsPassword(task.cmd) && HasUser(s, r.uid) && s.users[r.uid - 1].password != hash(r.password))
    else if desc == "user to does not exist" then
      code == 404 && task.cmd.MESSAGE_SEND? && known && NoUserNamed(s, r.toUser)
    else if desc == "chat does not exist" then
      && code == 404 && (task.cmd.MESSAGE_SEND_CHAT? || task.cmd.CHAT_ADDUSER?) && known
      && !exists c :: OnlyChatNamed(s, c, r.chatName)
    else if desc == "user does not exist" && code == 409 then NeedsPassword(task.cmd) && !HasUser(s, r.uid)
    else
      && desc == "user does not exist" && code == 404 && (task.cmd.USER_LOGIN? || known)
      && LookedUp(task.cmd, r).Some? && NoUserNamed(s, LookedUp(task.cmd, r).value)
  }

  /** `send` is a right response to `task` on storage `s` at time `now`, and `t` the right storage afterwards. */
  ghost predicate Justified(hash: Hash, s: Storage, task: Task, now: nat, t: Storage, send: Send) {
    match send
    case OkUser(user) => Introduces(hash, s, task, t, user)
    case OkChat(chat) => task.cmd.CHAT_CREATE? && Authorised(hash, s, task) && OpensChat(s, task.request, t, chat)
    case OkStatus => Acknowledges(hash, s, task, now, t)
    case OkItems(items) =>
      && t == s && Authorised(hash, s, task)
      && (if task.cmd.GET_LOCATIONS? then
            forall city :: city in items <==> exists i :: 0 <= i < |s.users| && s.users[i].city == city
          else task.cmd.CHAT_WITH_LOCATION? && items == {task.request.city})
    case OkMessages(msgs) =>
      && t == s && task.cmd.USER_HISTORY? && Authorised(hash, s, task)
      && exists page :: ShowsConversation(s, task, msgs, page)
    case IdleMessages(entries, msgs) =>
      t == s && task.cmd.IDLE? && Authorised(hash, s, task) && ShowsNews(s, task, entries, msgs)
    case ErrorReply(code, desc) => t == s && Refuses(hash, s, task, code, desc)
  }

  /** A step without a response changes nothing, except that a poll sets the heartbit of its user, first thing after
  the password check, and then marks messages as read. */
  ghost predicate Quiet(s: Storage, pc: Pc, now: nat, t: Storage)
    requires !pc.Free?
  {
    if pc.Checked? && pc.task.cmd.IDLE? then
      && HasUser(s, pc.task.request.uid)
      && t == s.(users := s.users[pc.task.request.uid - 1 := s.users[pc.task.request.uid - 1].(heartbit := now)])
    else if pc.Poll? then
      && t == s.(messages := t.messages) && |t.messages| == |s.messages|
      && forall i :: 0 <= i < |s.messages| ==>
        t.messages[i] == s.messages[i] || t.messages[i] == s.messages[i].(flags := READ)
    else t == s
  }

  // ---------------------------------------------------------------- what a worker's variables say

  ghost predicate AllInConversation(s: Storage, task: Task, page: seq<Message>) {
    && |page| <= task.request.count
    && (forall k :: 0 <= k < |page| ==> InConversation(s, task.request.uid, task.request.user, page[k]))
    && (forall k, l :: 0 <= k < l < |page| ==> page[k].ts >= page[l].ts)
  }

  function Messages(entries: seq<Entry>): (r: seq<Message>)
    ensures |r| == |entries|
  {
    seq(|entries|, k requires 0 <= k < |entries| => entries[k].msg)
  }

  ghost predicate AllForMember(s: Storage, task: Task, entries: seq<Entry>) {
    forall k :: 0 <= k < |entries| ==> ForMember(s, task.request.uid, task.request.ts, entries[k].msg)
  }

  predicate AllMine(s: Storage, uid: nat, ids: seq<nat>) {
    forall k :: 0 <= k < |ids| ==> Chatuser(ids[k], uid) in s.chatuser
  }

  function IdsOf(chats: seq<Chat>): seq<nat> {
    seq(|chats|, k requires 0 <= k < |chats| => chats[k].id)
  }

  ghost predicate EntriesGrounded(s: Storage, task: Task, entries: seq<Entry>) {
    if task.cmd.IDLE? then AllForMember(s, task, entries) && entries != []
    else AllInConversation(s, task, Messages(entries))
  }

  /** The records a worker holds are those the request names, and the password was right. */
  ghost predicate Grounded(hash: Hash, s: Storage, pc: Pc) {
    (pc.Free? || pc.Taken? || Authorised(hash, s, pc.task)) &&
    match pc
    case Free => true
    case Taken(_) => true
    case Checked(task, user) => user.id == task.request.uid
    case Peered(task, user, peer) =>
      && user.id == task.request.uid
      && (task.cmd.MESSAGE_SEND? ==> IsNamed(s, peer.id, task.request.toUser))
      && (task.cmd.USER_HISTORY? ==> IsNamed(s, peer.id, task.request.user))
      && (task.cmd.CHAT_ADDUSER? ==> IsNamed(s, peer.id, task.request.chatAdduser))
    case HaveChat(task, user, peer, chat) =>
      && user.id == task.request.uid && ChatIsNamed(s, chat.id, task.request.chatName)
      && (task.cmd.CHAT_ADDUSER? ==> IsNamed(s, peer.id, task.request.chatAdduser))
    case Half(task, user, peer, to) =>
      && user.id == task.request.uid && IsNamed(s, peer.id, task.request.user)
      && forall k :: 0 <= k < |to| ==> InConversation(s, task.request.uid, task.request.user, to[k])
    case Format(task, entries, _) => EntriesGrounded(s, task, entries)
    case FormatFrom(task, entries, _, _) => EntriesGrounded(s, task, entries)
    case Beaten(task, user) => user.id == task.request.uid
    case Chats(task, ids, chats) =>
      AllMine(s, task.request.uid, ids) && AllMine(s, task.request.uid, IdsOf(chats))
    case Poll(task, chats, batch) =>
      AllMine(s, task.request.uid, IdsOf(chats)) && AllForMember(s, task, batch)
  }

  // ---------------------------------------------------------------- lookups by name

  lemma UsersNamed(s: Storage, name: string)
    requires Inv(s)
    ensures var r := LookupUserByName(s, name);
      && |r| <= 1 && (r == [] <==> NoUserNamed(s, name))
      && (r != [] ==> IsNamed(s, r[0].id, name) && s.users[r[0].id - 1] == r[0])
  {
    var r := LookupUserByName(s, name);
    LookupByName(s, name);
    hide Inv, LookupUserByName;
    if r != [] {
      assert r[0] in r && KnownUser(s, r[0]);
      assert s.users[r[0].id - 1] in r;
    } else {
      forall i | 0 <= i < |s.users| ensures s.users[i].name != name { assert s.users[i] !in r; }
    }
  }

  predicate IdsGoUp(chats: seq<Chat>) {
    forall i, j :: 0 <= i < j < |chats| ==> chats[i].id < chats[j].id
  }

  lemma {:induction false} FoundGoUp(chats: seq<Chat>, p: Chat -> bool)
    requires IdsGoUp(chats)
    ensures IdsGoUp(Filter(chats, p))
  {
    if chats != [] {
      var init, last := chats[..|chats| - 1], chats[|chats| - 1];
      FoundGoUp(init, p);
      FilterElements(init, p);
      forall i | 0 <= i < |Filter(init, p)| ensures Filter(init, p)[i].id < last.id {
        assert Filter(init, p)[i] in init;
      }
    }
  }

  lemma ChatsNamed(s: Storage, name: string)
    requires Inv(s)
    ensures var r := LookupChatByName(s, name);
      && (|r| == 1 ==> OnlyChatNamed(s, r[0].id, name) && s.chats[r[0].id - 1] == r[0])
      && (|r| != 1 ==> !exists c :: OnlyChatNamed(s, c, name))
  {
    var r := LookupChatByName(s, name);
    ChatsFoundAre(s, name);
    hide Inv, LookupChatByName, ChatIsNamed;
    forall i | 0 <= i < |r| ensures ChatIsNamed(s, r[i].id, name) { assert r[i] in r; }
    if |r| > 1 {
      assert ChatIsNamed(s, r[0].id, name) && ChatIsNamed(s, r[1].id, name) && r[0].id < r[1].id;
    }
  }

  lemma ChatsFoundAre(s: Storage, name: string)
    requires Inv(s)
    ensures var r := LookupChatByName(s, name);
      && IdsGoUp(r)
      && (forall c :: c in r ==> ChatIsNamed(s, c.id, name) && s.chats[c.id - 1] == c)
      && (forall c :: ChatIsNamed(s, c, name) ==> s.chats[c - 1] in r && s.chats[c - 1].id == c)
  {
    assert IdsInOrder(s);
    hide Inv;
    FoundGoUp(s.chats, ChatNamed(name));
    FilterElements(s.chats, ChatNamed(name));
    hide Filter, IdsGoUp;
  }

  lemma NoDuplicateName(s: Storage, name: string)
    ensures NoUserNamed(s, name) <==> !exists i :: 0 <= i < |s.users| && s.users[i].name == name
    ensures NoChatNamed(s, name) <==> !exists i :: 0 <= i < |s.chats| && s.chats[i].name == name
  {
  }

  // ---------------------------------------------------------------- the password

  /** `lookup_check_pass` passes exactly the requests with the id and the password of a user. */
  lemma CheckPassDecides(hash: Hash, s: Storage, task: Task)
    requires Inv(s)
    ensures CheckPass(hash, s, task) ==
      if !HasUser(s, task.request.uid) then Sent(s, ErrorReply(409, "user does not exist"))
      else if !Authorised(hash, s, task) then Sent(s, ErrorReply(403, "wrong password"))
      else Goes(s, Checked(task, s.users[task.request.uid - 1]))
    ensures HasUser(s, task.request.uid) ==> s.users[task.request.uid - 1].id == task.request.uid
  {
    assert IdsInOrder(s);
    hide Inv;
    LookupById(s, task.request.uid);
  }

  lemma ByNameDecides(hash: Hash, s: Storage, task: Task, name: string, checkPass: bool)
    requires Inv(s)
    ensures match ByName(hash, s, task, name, checkPass)
      case (Some(user), _) =>
        && IsNamed(s, user.id, name) && s.users[user.id - 1] == user
        && (checkPass ==> user.password == hash(task.request.password))
      case (None, error) =>
        || (error == Some(ErrorReply(404, "user does not exist")) && NoUserNamed(s, name))
        || (error == Some(ErrorReply(403, "wrong password")) && checkPass
            && exists p :: IsNamed(s, p, name) && s.users[p - 1].password != hash(task.request.password))
  {
    UsersNamed(s, name);
    hide Inv, LookupUserByName;
  }

  // ---------------------------------------------------------------- one step

  /** What every step of a worker keeps and says. */
  ghost predicate StepGrounded(hash: Hash, s: Storage, pc: Pc, now: nat, out: Outcome)
    requires !pc.Free?
  {
    && Grounded(hash, out.store, out.pc)
    && (out.send.Some? ==> Justified(hash, s, pc.task, now, out.store, out.send.value))
    && (out.send.None? ==> Quiet(s, pc, now, out.store))
    && (out.pc.HaveChat? ==> OnlyChatNamed(s, out.pc.chat.id, pc.task.request.chatName))
  }

  lemma CreateUserRegisters(hash: Hash, s: Storage, r: Params)
    requires Inv(s)
    ensures var (t, user) := CreateUser(s, r.user, hash(r.password), "localhost:3306", r.ipAddress, r.city);
      if user.id == 0 then t == s && !NoUserNamed(s, r.user) else Registers(hash, s, r, t, user)
  {
    NoDuplicateName(s, r.user);
    assert IdsInOrder(s);
    hide Inv, NoUserNamed;
  }

  lemma CreateGrounded(hash: Hash, s: Storage, task: Task, now: nat)
    requires Inv(s) && task.cmd.USER_CREATE?
    ensures StepGrounded(hash, s, Taken(task), now, TakenStep(hash, s, task))
  {
    hide Inv, CreateUser, Registers, NoUserNamed;
    CreateUserRegisters(hash, s, task.request);
  }

  lemma LoginGrounded(hash: Hash, s: Storage, task: Task, now: nat)
    requires Inv(s) && task.cmd.USER_LOGIN?
    ensures StepGrounded(hash, s, Taken(task), now, TakenStep(hash, s, task))
  {
    hide Inv, ByName, NoUserNamed;
    ByNameDecides(hash, s, task, task.request.user, true);
  }

  lemma CheckPassGrounded(hash: Hash, s: Storage, task: Task, now: nat)
    requires Inv(s) && NeedsPassword(task.cmd)
    ensures StepGrounded(hash, s, Taken(task), now, CheckPass(hash, s, task))
  {
    hide Inv, CheckPass;
    CheckPassDecides(hash, s, task);
  }

  lemma TakenGrounded(hash: Hash, s: Storage, task: Task, now: nat)
    requires Inv(s)
    ensures StepGrounded(hash, s, Taken(task), now, TakenStep(hash, s, task))
  {
    hide Inv, CheckPass, ByName, CreateUser;
    if task.cmd.USER_CREATE? {
      CreateGrounded(hash, s, task, now);
    } else if task.cmd.USER_LOGIN? {
      LoginGrounded(hash, s, task, now);
    } else if !Unhandled(task.cmd) {
      CheckPassGrounded(hash, s, task, now);
    }
  }

  lemma FindPeerGrounded(hash: Hash, s: Storage, task: Task, user: User, now: nat)
    requires Inv(s) && Grounded(hash, s, Checked(task, user)) && (task.cmd.USER_HISTORY? || task.cmd.CHAT_ADDUSER?)
    ensures StepGrounded(hash, s, Checked(task, user), now,
                         FindPeer(hash, s, task, user, LookedUp(task.cmd, task.request).value))
  {
    hide Inv, ByName, NoUserNamed;
    ByNameDecides(hash, s, task, LookedUp(task.cmd, task.request).value, false);
  }

  lemma FindRecipientGrounded(hash: Hash, s: Storage, task: Task, user: User, now: nat)
    requires Inv(s) && Grounded(hash, s, Checked(task, user)) && task.cmd.MESSAGE_SEND?
    ensures StepGrounded(hash, s, Checked(task, user), now, FindRecipient(s, task, user))
  {
    hide Inv, LookupUserByName, NoUserNamed;
    UsersNamed(s, task.request.toUser);
  }

  lemma FindChatGrounded(hash: Hash, s: Storage, task: Task, user: User, peer: User, pc: Pc, now: nat)
    requires Inv(s) && !pc.Free? && pc.task == task && !pc.Poll? && (pc.Checked? ==> !task.cmd.IDLE?)
    requires Authorised(hash, s, task) && user.id == task.request.uid
    requires task.cmd.MESSAGE_SEND_CHAT? || (task.cmd.CHAT_ADDUSER? && IsNamed(s, peer.id, task.request.chatAdduser))
    ensures StepGrounded(hash, s, pc, now, FindChat(s, task, user, peer))
  {
    hide Inv, LookupChatByName;
    ChatsNamed(s, task.request.chatName);
  }

  lemma CreateChatOpens(s: Storage, r: Params)
    requires Inv(s) && r.uid > 0
    ensures var (t, chat) := CreateChat(s, r.chatName, r.uid);
      if chat.id == 0 then t == s && !NoChatNamed(s, r.chatName) else OpensChat(s, r, t, chat)
  {
    NoDuplicateName(s, r.chatName);
    assert IdsInOrder(s);
    hide Inv, NoChatNamed;
  }

  lemma LocationsAre(s: Storage)
    ensures forall city :: city in DistinctLocations(s) <==> exists i :: 0 <= i < |s.users| && s.users[i].city == city
    ensures s.users != [] ==> DistinctLocations(s) != {}
  {
    if s.users != [] { assert s.users[0].city in DistinctLocations(s); }
  }

  lemma {:induction false} BeatIsUpdate(users: seq<User>, id: nat, now: nat, i: nat)
    requires i < id <= |users| && forall k :: 0 <= k < |users| ==> users[k].id == k + 1
    ensures UpdateFrom(users, id, now, i) == users[id - 1 := users[id - 1].(heartbit := now)]
    decreases |users| - i
  {
    if i + 1 != id { BeatIsUpdate(users, id, now, i + 1); }
  }

  /** `updateUserHeartBit` sets the heartbit of that user and changes nothing else. */
  lemma HeartbitIsSet(s: Storage, uid: nat, now: nat)
    requires IdsInOrder(s) && HasUser(s, uid)
    ensures UpdateUserHeartBit(s, uid, now) == s.(users := s.users[uid - 1 := s.users[uid - 1].(heartbit := now)])
  {
    BeatIsUpdate(s.users, uid, now, 0);
  }

  lemma StatusGrounded(hash: Hash, s: Storage, task: Task, user: User, now: nat)
    requires Inv(s) && Grounded(hash, s, Checked(task, user)) && task.cmd.USER_STATUS?
    ensures StepGrounded(hash, s, Checked(task, user), now, CheckedStep(hash, s, task, user, now))
  {
    hide Inv, ByName, NoUserNamed;
    ByNameDecides(hash, s, task, task.request.user, false);
  }

  lemma CreateChatGrounded(hash: Hash, s: Storage, task: Task, user: User, now: nat)
    requires Inv(s) && Grounded(hash, s, Checked(task, user)) && task.cmd.CHAT_CREATE?
    ensures StepGrounded(hash, s, Checked(task, user), now, CheckedStep(hash, s, task, user, now))
  {
    hide Inv, CreateChat, OpensChat, NoChatNamed;
    CreateChatOpens(s, task.request);
  }

  lemma BeatGrounded(hash: Hash, s: Storage, task: Task, user: User, now: nat)
    requires Inv(s) && Grounded(hash, s, Checked(task, user)) && task.cmd.IDLE?
    ensures StepGrounded(hash, s, Checked(task, user), now, CheckedStep(hash, s, task, user, now))
  {
    assert IdsInOrder(s);
    hide Inv, IdsInOrder, UpdateUserHeartBit;
    HeartbitIsSet(s, user.id, now);
  }

  lemma LocationsGrounded(hash: Hash, s: Storage, task: Task, user: User, now: nat)
    requires Grounded(hash, s, Checked(task, user)) && (task.cmd.GET_LOCATIONS? || task.cmd.CHAT_WITH_LOCATION?)
    ensures StepGrounded(hash, s, Checked(task, user), now, CheckedStep(hash, s, task, user, now))
  {
    hide DistinctLocations;
    LocationsAre(s);
  }

  lemma CheckedGrounded(hash: Hash, s: Storage, task: Task, user: User, now: nat)
    requires Inv(s) && InBranch(Checked(task, user)) && Grounded(hash, s, Checked(task, user))
    ensures StepGrounded(hash, s, Checked(task, user), now, CheckedStep(hash, s, task, user, now))
  {
    assert Authorised(hash, s, task) && user.id == task.request.uid;
    hide Inv, Grounded, StepGrounded, FindPeer, FindRecipient, FindChat, CreateChat, UpdateUserHeartBit;
    hide DistinctLocations, ByName;
    match task.cmd {
      case IDLE => BeatGrounded(hash, s, task, user, now);
      case USER_STATUS => StatusGrounded(hash, s, task, user, now);
      case USER_HISTORY => FindPeerGrounded(hash, s, task, user, now);
      case MESSAGE_SEND => FindRecipientGrounded(hash, s, task, user, now);
      case CHAT_CREATE => CreateChatGrounded(hash, s, task, user, now);
      case CHAT_ADDUSER => FindPeerGrounded(hash, s, task, user, now);
      case MESSAGE_SEND_CHAT => FindChatGrounded(hash, s, task, user, user, Checked(task, user), now);
      case _ => LocationsGrounded(hash, s, task, user, now);
    }
  }

  /** The recipient's record may be stale in its heartbit only, so its self chat is the stored one. */
  lemma SendGrounded(hash: Hash, s: Storage, task: Task, user: User, peer: User, now: nat)
    requires KnownPerson(s, peer) && Grounded(hash, s, Peered(task, user, peer)) && task.cmd.MESSAGE_SEND?
    ensures StepGrounded(hash, s, Peered(task, user, peer), now, PeeredStep(s, task, user, peer, now))
  {
  }

  lemma DirectionIsBetween(s: Storage, a: User, b: User, task: Task, count: nat)
    requires KnownPerson(s, a) && KnownPerson(s, b)
    requires (a.id == task.request.uid && IsNamed(s, b.id, task.request.user))
      || (b.id == task.request.uid && IsNamed(s, a.id, task.request.user))
    ensures var r := SelectMessages(s, Direction(a, b), count);
      forall k :: 0 <= k < |r| ==> InConversation(s, task.request.uid, task.request.user, r[k])
  {
    var idx := Selected(s.messages, Direction(a, b), count);
    SelectedMatch(s.messages, Direction(a, b), count);
    hide Selected;
    forall k | 0 <= k < |idx| ensures InConversation(s, task.request.uid, task.request.user, s.messages[idx[k]]) {
      var m := s.messages[idx[k]];
      assert Direction(a, b)(m) && SameMessage(m, m);
      if a.id == task.request.uid && IsNamed(s, b.id, task.request.user) {
        assert BetweenTwo(s, task.request.uid, b.id, m);
      } else {
        assert BetweenTwo(s, task.request.uid, a.id, m);
      }
    }
  }

  lemma SelectedMatch(ms: seq<Message>, p: Message -> bool, max: nat)
    ensures forall k :: 0 <= k < |Selected(ms, p, max)| ==> p(ms[Selected(ms, p, max)[k]])
  {
    MatchesAreMatches(ms, p, |ms|);
    hide MatchesDown;
    forall k | 0 <= k < |Selected(ms, p, max)| ensures p(ms[Selected(ms, p, max)[k]]) {
      assert Selected(ms, p, max)[k] in MatchesDown(ms, p, |ms|);
    }
  }

  lemma PeeredGrounded(hash: Hash, s: Storage, task: Task, user: User, peer: User, now: nat)
    requires Inv(s) && PcOk(s, Peered(task, user, peer)) && Grounded(hash, s, Peered(task, user, peer))
    ensures StepGrounded(hash, s, Peered(task, user, peer), now, PeeredStep(s, task, user, peer, now))
  {
    hide Inv, FindChat, StepGrounded;
    match task.cmd {
      case MESSAGE_SEND => SendGrounded(hash, s, task, user, peer, now);
      case CHAT_ADDUSER => FindChatGrounded(hash, s, task, user, peer, Peered(task, user, peer), now);
      case _ => HistoryGrounded(hash, s, task, user, peer, now);
    }
  }

  lemma HistoryGrounded(hash: Hash, s: Storage, task: Task, user: User, peer: User, now: nat)
    requires PcOk(s, Peered(task, user, peer)) && Grounded(hash, s, Peered(task, user, peer)) && task.cmd.USER_HISTORY?
    ensures StepGrounded(hash, s, Peered(task, user, peer), now, PeeredStep(s, task, user, peer, now))
  {
    DirectionIsBetween(s, user, peer, task, HistoryLimit(task.request.count));
    hide SelectMessages, InConversation;
  }

  lemma JoinGrounded(hash: Hash, s: Storage, task: Task, user: User, peer: User, chat: Chat, now: nat)
    requires PcOk(s, HaveChat(task, user, peer, chat)) && Grounded(hash, s, HaveChat(task, user, peer, chat))
    ensures StepGrounded(hash, s, HaveChat(task, user, peer, chat), now,
                         HaveChatStep(s, task, user, peer, chat, now))
  {
    var t := AddUserToChat(s, chat.id, peer.id);
    assert Joins(s, t, chat.id, peer.id);
  }

  lemma PageInConversation(s: Storage, task: Task, order: seq<Message>, merged: seq<Message>)
    requires IsSortOf(order, merged)
    requires forall m :: m in merged ==> InConversation(s, task.request.uid, task.request.user, m)
    ensures AllInConversation(s, task, Messages(PageEntries(Cut(order, task.request.count))))
  {
    var page := Cut(order, task.request.count);
    hide InConversation;
    forall k | 0 <= k < |page| ensures InConversation(s, task.request.uid, task.request.user, page[k]) {
      assert page[k] in multiset(order);
      assert page[k] in merged;
    }
    assert Messages(PageEntries(page)) == page;
  }

  lemma HalfGrounded(hash: Hash, s: Storage, pc: Pc, choice: Choice)
    requires PcOk(s, pc) && Grounded(hash, s, pc) && pc.Half? && CanStep(s, pc, choice)
    ensures StepGrounded(hash, s, pc, choice.now, WorkerStep(hash, s, pc, choice))
  {
    var from := MessagesFrom(s, pc.user, pc.peer, pc.task.request.count);
    DirectionIsBetween(s, pc.peer, pc.user, pc.task, HistoryLimit(pc.task.request.count));
    hide SelectMessages, InConversation, PageEntries, Cut, IsSortOf;
    PageInConversation(s, pc.task, choice.order, from + pc.to);
  }

  lemma FormatGrounded(hash: Hash, s: Storage, task: Task, entries: seq<Entry>, done: seq<ApiMessage>, now: nat)
    requires PcOk(s, Format(task, entries, done)) && Grounded(hash, s, Format(task, entries, done))
    ensures StepGrounded(hash, s, Format(task, entries, done), now, FormatStep(s, task, entries, done))
  {
    hide InConversation, ForMember, Rendered, LookupChatById;
    if |done| == |entries| && task.cmd.USER_HISTORY? {
      assert ShowsConversation(s, task, done, Messages(entries));
    }
  }

  lemma FormatFromGrounded(hash: Hash, s: Storage, pc: Pc, choice: Choice)
    requires Grounded(hash, s, pc) && pc.FormatFrom? && CanStep(s, pc, choice)
    ensures StepGrounded(hash, s, pc, choice.now, WorkerStep(hash, s, pc, choice))
  {
    hide EntriesGrounded, LookupUserById;
  }

  /** The chats collected are those the user is in. */
  lemma ChatsAreMine(s: Storage, uid: nat)
    ensures AllMine(s, uid, ChatIdsOf(s, uid))
  {
    var found := Filter(s.chatuser, HasMember(uid));
    FilterElements(s.chatuser, HasMember(uid));
    hide Filter;
    forall k | 0 <= k < |found| ensures Chatuser(found[k].chatid, uid) in s.chatuser { assert found[k] in found; }
  }

  lemma MineMoves(s: Storage, uid: nat, ids: seq<nat>, chats: seq<Chat>, chat: Chat)
    requires ids != [] && AllMine(s, uid, ids) && AllMine(s, uid, IdsOf(chats)) && chat.id == ids[0]
    ensures AllMine(s, uid, ids[1..]) && AllMine(s, uid, IdsOf(chats + [chat]))
  {
    assert IdsOf(chats + [chat]) == IdsOf(chats) + [ids[0]];
  }

  lemma ChatsGrounded(hash: Hash, s: Storage, pc: Pc, choice: Choice)
    requires Inv(s) && PcOk(s, pc) && Grounded(hash, s, pc) && (pc.Beaten? || pc.Chats?)
    ensures StepGrounded(hash, s, pc, choice.now, WorkerStep(hash, s, pc, choice))
  {
    assert IdsInOrder(s);
    hide Inv, ChatIdsOf, LookupChatById;
    if pc.Beaten? {
      ChatsAreMine(s, pc.user.id);
    } else if pc.ids != [] {
      LookupById(s, pc.ids[0]);
      var chat := LookupChatById(s, pc.ids[0]);
      MineMoves(s, pc.task.request.uid, pc.ids, pc.chats, chat);
    }
  }

  lemma FoundForMember(s: Storage, task: Task, chatid: nat)
    requires Chatuser(chatid, task.request.uid) in s.chatuser
    ensures var idx := Selected(s.messages, InChatSince(chatid, task.request.ts), DEFAULT_MAX_COUNT);
      AllForMember(s, task, Entries(idx, GetMessages(s, chatid, task.request.ts, DEFAULT_MAX_COUNT).1))
  {
    var p := InChatSince(chatid, task.request.ts);
    var idx := Selected(s.messages, p, DEFAULT_MAX_COUNT);
    SelectedMatch(s.messages, p, DEFAULT_MAX_COUNT);
    hide Selected;
    forall k | 0 <= k < |idx| ensures ForMember(s, task.request.uid, task.request.ts, s.messages[idx[k]]) {
      assert p(s.messages[idx[k]]) && SameMessage(s.messages[idx[k]], s.messages[idx[k]]);
    }
  }

  lemma ForMemberStays(s: Storage, t: Storage, uid: nat, since: nat, m: Message)
    requires ForMember(s, uid, since, m) && Grows(s, t)
    ensures ForMember(t, uid, since, m)
  {
    StoredStays(s, t, m);
  }

  lemma StoredStays(s: Storage, t: Storage, m: Message)
    requires Stored(s, m) && Grows(s, t)
    ensures Stored(t, m)
  {
    var i :| 0 <= i < |s.messages| && SameMessage(s.messages[i], m);
    assert SameMessage(t.messages[i], m);
  }

  lemma AllForMemberStays(s: Storage, t: Storage, task: Task, entries: seq<Entry>)
    requires AllForMember(s, task, entries) && Grows(s, t)
    ensures AllForMember(t, task, entries)
  {
    hide ForMember, Grows;
    forall k | 0 <= k < |entries| ensures ForMember(t, task.request.uid, task.request.ts, entries[k].msg) {
      ForMemberStays(s, t, task.request.uid, task.request.ts, entries[k].msg);
    }
  }

  lemma PollMore(s: Storage, task: Task, chats: seq<Chat>, batch: seq<Entry>)
    requires Inv(s) && chats != [] && AllMine(s, task.request.uid, IdsOf(chats)) && AllForMember(s, task, batch)
    ensures var (t, found) := GetMessages(s, chats[0].id, task.request.ts, DEFAULT_MAX_COUNT);
      var idx := Selected(s.messages, InChatSince(chats[0].id, task.request.ts), DEFAULT_MAX_COUNT);
      AllMine(t, task.request.uid, IdsOf(chats[1..])) && AllForMember(t, task, batch + Entries(idx, found))
  {
    assert Chatuser(IdsOf(chats)[0], task.request.uid) in s.chatuser;
    assert IdsOf(chats[1..]) == IdsOf(chats)[1..];
    FoundForMember(s, task, chats[0].id);
    GetMessagesKeeps(s, chats[0].id, task.request.ts, DEFAULT_MAX_COUNT);
    hide Inv, Selected, ForMember, Grows;
    var t := GetMessages(s, chats[0].id, task.request.ts, DEFAULT_MAX_COUNT).0;
    var idx := Selected(s.messages, InChatSince(chats[0].id, task.request.ts), DEFAULT_MAX_COUNT);
    var more := Entries(idx, GetMessages(s, chats[0].id, task.request.ts, DEFAULT_MAX_COUNT).1);
    AllForMemberStays(s, t, task, batch);
    AllForMemberStays(s, t, task, more);
  }

  lemma PollGrounded(hash: Hash, s: Storage, task: Task, chats: seq<Chat>, batch: seq<Entry>, now: nat)
    requires Inv(s) && InBranch(Poll(task, chats, batch)) && Grounded(hash, s, Poll(task, chats, batch))
    ensures StepGrounded(hash, s, Poll(task, chats, batch), now, PollStep(s, task, chats, batch))
  {
    if chats != [] { PollMore(s, task, chats, batch); }
    hide Inv, Selected, Entries, AllForMember, AllMine;
    if chats == [] && batch != [] { assert EntriesGrounded(s, task, batch); }
  }

  lemma WorkerGrounded(hash: Hash, s: Storage, pc: Pc, choice: Choice)
    requires Inv(s) && PcOk(s, pc) && Grounded(hash, s, pc) && CanStep(s, pc, choice)
    ensures StepGrounded(hash, s, pc, choice.now, WorkerStep(hash, s, pc, choice))
  {
    assert InBranch(pc);
    hide Inv, PcOk, Grounded, StepGrounded, TakenStep, CheckedStep, PeeredStep, FormatStep, FormatFromStep;
    hide PollStep, InBranch;
    match pc {
      case Taken(task) => TakenGrounded(hash, s, task, choice.now);
      case Checked(task, user) => CheckedGrounded(hash, s, task, user, choice.now);
      case Peered(task, user, peer) => PeeredGrounded(hash, s, task, user, peer, choice.now);
      case HaveChat(task, user, peer, chat) => JoinGrounded(hash, s, task, user, peer, chat, choice.now);
      case Half(_, _, _, _) => HalfGrounded(hash, s, pc, choice);
      case Format(task, entries, done) => FormatGrounded(hash, s, task, entries, done, choice.now);
      case FormatFrom(_, _, _, _) => FormatFromGrounded(hash, s, pc, choice);
      case Beaten(_, _) => ChatsGrounded(hash, s, pc, choice);
      case Chats(_, _, _) => ChatsGrounded(hash, s, pc, choice);
      case Poll(task, chats, batch) => PollGrounded(hash, s, task, chats, batch, choice.now);
    }
  }

  // ---------------------------------------------------------------- every run

  lemma AuthorisedStays(hash: Hash, s: Storage, t: Storage, task: Task)
    requires Grows(s, t) && HasUser(s, task.request.uid)
    ensures Authorised(hash, s, task) <==> Authorised(hash, t, task)
  {
    assert SameUser(s.users[task.request.uid - 1], t.users[task.request.uid - 1]);
  }

  lemma NamesStay(s: Storage, t: Storage)
    requires Grows(s, t)
    ensures forall id, name :: IsNamed(s, id, name) ==> IsNamed(t, id, name)
    ensures forall id, name :: ChatIsNamed(s, id, name) ==> ChatIsNamed(t, id, name)
    ensures forall uid, ids :: AllMine(s, uid, ids) ==> AllMine(t, uid, ids)
  {
    forall id, name | IsNamed(s, id, name) ensures IsNamed(t, id, name) {
      assert SameUser(s.users[id - 1], t.users[id - 1]);
    }
  }

  lemma InConversationStays(s: Storage, t: Storage, uid: nat, name: string, m: Message)
    requires InConversation(s, uid, name, m) && Grows(s, t)
    ensures InConversation(t, uid, name, m)
  {
    StoredStays(s, t, m);
    var p :| IsNamed(s, p, name) && BetweenTwo(s, uid, p, m);
    assert SameUser(s.users[p - 1], t.users[p - 1]) && SameUser(s.users[uid - 1], t.users[uid - 1]);
    assert IsNamed(t, p, name) && BetweenTwo(t, uid, p, m);
  }

  lemma EntriesStay(s: Storage, t: Storage, task: Task, entries: seq<Entry>)
    requires EntriesGrounded(s, task, entries) && Grows(s, t)
    ensures EntriesGrounded(t, task, entries)
  {
    hide InConversation, Grows, ForMember;
    if task.cmd.IDLE? {
      AllForMemberStays(s, t, task, entries);
    } else {
      var page := Messages(entries);
      forall k | 0 <= k < |page| ensures InConversation(t, task.request.uid, task.request.user, page[k]) {
        InConversationStays(s, t, task.request.uid, task.request.user, page[k]);
      }
    }
  }

  /** What a worker's variables say stays true while others work. */
  lemma GroundedStays(hash: Hash, s: Storage, t: Storage, pc: Pc)
    requires Grounded(hash, s, pc) && Grows(s, t)
    ensures Grounded(hash, t, pc)
  {
    if !pc.Free? && !pc.Taken? { AuthorisedStays(hash, s, t, pc.task); }
    NamesStay(s, t);
    hide Grows, IsNamed, ChatIsNamed, Authorised, EntriesGrounded, InConversation, AllForMember, AllMine;
    match pc {
      case Half(task, _, _, to) =>
        forall k | 0 <= k < |to| ensures InConversation(t, task.request.uid, task.request.user, to[k]) {
          InConversationStays(s, t, task.request.uid, task.request.user, to[k]);
        }
      case Format(task, entries, _) => EntriesStay(s, t, task, entries);
      case FormatFrom(task, entries, _, _) => EntriesStay(s, t, task, entries);
      case Poll(task, _, batch) => AllForMemberStays(s, t, task, batch);
      case _ =>
    }
  }

  lemma TakenIsGrounded(hash: Hash, s: Storage, task: Task)
    ensures Grounded(hash, s, Taken(task)) && Grounded(hash, s, Free)
  {
  }

  ghost predicate AllGrounded(hash: Hash, s: State) {
    forall w :: 0 <= w < |s.workers| ==> Grounded(hash, s.store, s.workers[w])
  }

  lemma ApplyIsGrounded(hash: Hash, s: State, e: Event)
    requires Safe(s) && AllGrounded(hash, s) && Enabled(s, e)
    ensures AllGrounded(hash, Apply(hash, s, e))
  {
    ApplyIsSafe(hash, s, e);
    var t := Apply(hash, s, e);
    hide Inv, PcOk, Grows, WorkerStep, SendOk, Grounded, Justified, Quiet;
    match e {
      case Work(w, choice) =>
        WorkerGrounded(hash, s.store, s.workers[w], choice);
        forall v | 0 <= v < |t.workers| ensures Grounded(hash, t.store, t.workers[v]) {
          if v != w { GroundedStays(hash, s.store, t.store, s.workers[v]); }
        }
      case Take(w) => TakenIsGrounded(hash, s.store, s.queue[0]);
      case _ => assert t.store == s.store && t.workers == s.workers;
    }
  }

  lemma {:induction false} RunIsGrounded(hash: Hash, s: State, events: seq<Event>, t: State)
    requires Safe(s) && AllGrounded(hash, s) && Run(hash, s, events, t)
    ensures Safe(t) && AllGrounded(hash, t)
    decreases |events|
  {
    hide Safe, AllGrounded, Apply, Enabled, WorkerStep;
    if events != [] {
      ApplyIsSafe(hash, s, events[0]);
      ApplyIsGrounded(hash, s, events[0]);
      RunIsGrounded(hash, Apply(hash, s, events[0]), events[1..], t);
    }
  }

  lemma StartedIsGrounded(hash: Hash, workers: nat)
    ensures Safe(Started(workers)) && AllGrounded(hash, Started(workers))
  {
    StartedIsSafe(workers);
  }

  /** In every reachable state, whatever the other workers are doing: a step that sends a response sends a right one
  and leaves the right storage, any other step of a worker changes at most a heartbit or read marks of its own poll,
  and no other event changes the storage. And a chat is used only if no other had its name when it was looked up. */
  lemma EveryResponseIsJustified(hash: Hash, workers: nat, events: seq<Event>, s: State, e: Event)
    requires Run(hash, Started(workers), events, s) && Enabled(s, e)
    ensures var t := Apply(hash, s, e).store;
      if e.Work? then
        var pc, send := s.workers[e.worker], WorkerStep(hash, s.store, s.workers[e.worker], e.choice).send;
        if send.Some? then Justified(hash, s.store, pc.task, e.choice.now, t, send.value)
        else Quiet(s.store, pc, e.choice.now, t)
      else t == s.store
    ensures e.Work? ==>
      var out := WorkerStep(hash, s.store, s.workers[e.worker], e.choice);
      out.pc.HaveChat? ==> OnlyChatNamed(s.store, out.pc.chat.id, s.workers[e.worker].task.request.chatName)
  {
    StartedIsGrounded(hash, workers);
    hide Run, Started, Safe, AllGrounded, Apply, Enabled, Justified, Quiet, WorkerStep, OnlyChatNamed;
    RunIsGrounded(hash, Started(workers), events, s);
    EventIsJustified(hash, s, e);
  }

  lemma EventIsJustified(hash: Hash, s: State, e: Event)
    requires Safe(s) && AllGrounded(hash, s) && Enabled(s, e)
    ensures e.Work? ==>
      var out := WorkerStep(hash, s.store, s.workers[e.worker], e.choice);
      StepGrounded(hash, s.store, s.workers[e.worker], e.choice.now, out) && Apply(hash, s, e).store == out.store
    ensures !e.Work? ==> Apply(hash, s, e).store == s.store
  {
    hide Inv, PcOk, Grounded, WorkerStep, Justified, Quiet, OnlyChatNamed;
    if e.Work? { WorkerGrounded(hash, s.store, s.workers[e.worker], e.choice); }
  }

  /** A request with an unknown id or a wrong password ends with its error at the first step, and all others go on. */
  lemma WrongPasswordIsRefused(hash: Hash, s: Storage, task: Task, choice: Choice)
    requires Inv(s) && NeedsPassword(task.cmd)
    ensures CanStep(s, Taken(task), choice)
    ensures var out, r := WorkerStep(hash, s, Taken(task), choice), task.request;
      && out.store == s
      && (!HasUser(s, r.uid) <==> out.send == Some(ErrorReply(409, "user does not exist")))
      && (HasUser(s, r.uid) && s.users[r.uid - 1].password != hash(r.password)
          <==> out.send == Some(ErrorReply(403, "wrong password")))
      && (HasUser(s, r.uid) && s.users[r.uid - 1].password == hash(r.password) <==> out.send == None)
      && (out.send == None <==> !out.pc.Free?)
  {
    hide Inv, CheckPass;
    CheckPassDecides(hash, s, task);
  }

  /** Logging in: the error says which of name and password was wrong, and a user record is sent for right ones only. */
  lemma LoginDecides(hash: Hash, s: Storage, task: Task, choice: Choice)
    requires Inv(s) && task.cmd.USER_LOGIN?
    ensures CanStep(s, Taken(task), choice)
    ensures var out, r := WorkerStep(hash, s, Taken(task), choice), task.request;
      && out.store == s && out.pc.Free?
      && (NoUserNamed(s, r.user) <==> out.send == Some(ErrorReply(404, "user does not exist")))
      && (forall p :: IsNamed(s, p, r.user) ==>
            out.send == if s.users[p - 1].password == hash(r.password) then Some(OkUser(s.users[p - 1]))
                        else Some(ErrorReply(403, "wrong password")))
  {
    UsersNamed(s, task.request.user);
    hide LookupUserByName;
    assert UserNamesUnique(s);
    hide Inv;
  }

  /** On every run, a worker that is past the first step of a command with a password holds a request with the id and
  the password of a stored user. */
  lemma AuthorisedOnEveryRun(hash: Hash, workers: nat, events: seq<Event>, s: State, w: nat)
    requires Run(hash, Started(workers), events, s) && w < |s.workers| && !s.workers[w].Free? && !s.workers[w].Taken?
    ensures var r := s.workers[w].task.request;
      1 <= r.uid <= |s.store.users| && s.store.users[r.uid - 1].password == hash(r.password)
  {
    StartedIsGrounded(hash, workers);
    RunIsGrounded(hash, Started(workers), events, s);
    hide Run, Started, Safe;
    assert Grounded(hash, s.store, s.workers[w]);
  }

  /** No run changes the name, the password or the self chat of a user, or the name of a chat. */
  lemma RecordsStay(hash: Hash, s: State, events: seq<Event>, t: State)
    requires Safe(s) && Run(hash, s, events, t)
    ensures |s.store.users| <= |t.store.users| && |s.store.chats| <= |t.store.chats|
    ensures forall i :: 0 <= i < |s.store.users| ==>
      && t.store.users[i].name == s.store.users[i].name && t.store.users[i].password == s.store.users[i].password
      && t.store.users[i].selfChatId == s.store.users[i].selfChatId
    ensures forall i :: 0 <= i < |s.store.chats| ==> t.store.chats[i] == s.store.chats[i]
  {
    EveryRunIsSafe(hash, s, events, t);
    hide Safe, Run;
    forall i | 0 <= i < |s.store.users| ensures SameUser(s.store.users[i], t.store.users[i]) {}
  }
}
