/** The records of server/src/database.hpp and what each call of the in-memory store
(server/src/inmemory_dbconn.cpp) computes, as functions on the whole storage. */
module Store {
  datatype Flags = UNREAD | READ | ANSWERED
  datatype Chat = Chat(id: nat, name: string)
  datatype User = User(id: nat, selfChatId: nat, name: string, password: string, stpath: string, ip: string,
                       city: string, heartbit: nat)
  datatype Chatuser = Chatuser(chatid: nat, uid: nat)
  datatype Message = Message(userFrom: nat, chatTo: nat, text: string, ts: nat, flags: Flags)

  /** What a lookup returns when there is no such record. */
  const NO_USER := User(0, 0, "", "", "", "", "", 0)
  const NO_CHAT := Chat(0, "")

  const DEFAULT_MAX_COUNT: nat := 3

  datatype Storage = Storage(userAutoincrement: nat, chatAutoincrement: nat, chats: seq<Chat>, users: seq<User>,
                             chatuser: seq<Chatuser>, messages: seq<Message>)

  const EMPTY_STORAGE := Storage(1, 1, [], [], [], [])

  // ---------------------------------------------------------------- sequences

  /** The elements with `p`, in order. */
  function Filter<T>(s: seq<T>, p: T -> bool): seq<T> {
    if s == [] then [] else Filter(s[..|s| - 1], p) + (if p(s[|s| - 1]) then [s[|s| - 1]] else [])
  }

  function Reversed<T>(s: seq<T>): seq<T> {
    if s == [] then [] else [s[|s| - 1]] + Reversed(s[..|s| - 1])
  }

  /** The first `max` elements; 0 stands for no limit. */
  function TakeUpTo<T>(s: seq<T>, max: nat): seq<T> {
    if max == 0 || max >= |s| then s else s[..max]
  }

  lemma {:induction false} FilterElements<T>(s: seq<T>, p: T -> bool)
    ensures forall x :: x in Filter(s, p) <==> x in s && p(x)
  {
    if s != [] {
      FilterElements(s[..|s| - 1], p);
      assert s == s[..|s| - 1] + [s[|s| - 1]];
    }
  }

  // ---------------------------------------------------------------- lookups

  function UserFrom(users: seq<User>, id: nat, i: nat): User
    requires i <= |users|
    decreases |users| - i
  {
    if i == |users| then NO_USER else if users[i].id == id then users[i] else UserFrom(users, id, i + 1)
  }

  function ChatFrom(chats: seq<Chat>, id: nat, i: nat): Chat
    requires i <= |chats|
    decreases |chats| - i
  {
    if i == |chats| then NO_CHAT else if chats[i].id == id then chats[i] else ChatFrom(chats, id, i + 1)
  }

  function LookupUserById(s: Storage, id: nat): User {
    UserFrom(s.users, id, 0)
  }

  function LookupChatById(s: Storage, id: nat): Chat {
    ChatFrom(s.chats, id, 0)
  }

  function UserNamed(name: string): User -> bool {
    (u: User) => u.name == name
  }

  function ChatNamed(name: string): Chat -> bool {
    (c: Chat) => c.name == name
  }

  function HasMember(uid: nat): Chatuser -> bool {
    (cu: Chatuser) => cu.uid == uid
  }

  function LookupUserByName(s: Storage, name: string): seq<User> {
    Filter(s.users, UserNamed(name))
  }

  function LookupChatByName(s: Storage, name: string): seq<Chat> {
    Filter(s.chats, ChatNamed(name))
  }

  function ChatIds(memberships: seq<Chatuser>): seq<nat> {
    seq(|memberships|, i requires 0 <= i < |memberships| => memberships[i].chatid)
  }

  /** The ids that `lookupChatsForUserId` collects under the lock; the chats are looked up one by one afterwards. */
  function ChatIdsOf(s: Storage, uid: nat): seq<nat> {
    ChatIds(Filter(s.chatuser, HasMember(uid)))
  }

  function DistinctLocations(s: Storage): set<string> {
    set i | 0 <= i < |s.users| :: s.users[i].city
  }

  // ---------------------------------------------------------------- updates

  function CreateUser(s: Storage, name: string, pass: string, stpath: string, ip: string, city: string)
    : (Storage, User)
  {
    if exists i :: 0 <= i < |s.users| && s.users[i].name == name then (s, NO_USER)
    else
      var chatId, userId := s.chatAutoincrement, s.userAutoincrement;
      var user := User(userId, chatId, name, pass, stpath, ip, city, 0);
      (Storage(userId + 1, chatId + 1, s.chats + [Chat(chatId, name)], s.users + [user],
               s.chatuser + [Chatuser(chatId, userId)], s.messages), user)
  }

  function CreateChat(s: Storage, name: string, uid: nat): (Storage, Chat) {
    if exists i :: 0 <= i < |s.chats| && s.chats[i].name == name then (s, NO_CHAT)
    else
      var chat := Chat(s.chatAutoincrement, name);
      (s.(chatAutoincrement := s.chatAutoincrement + 1, chats := s.chats + [chat],
          chatuser := if uid > 0 then s.chatuser + [Chatuser(chat.id, uid)] else s.chatuser), chat)
  }

  function AddUserToChat(s: Storage, chatid: nat, uid: nat): Storage {
    if Chatuser(chatid, uid) in s.chatuser then s else s.(chatuser := s.chatuser + [Chatuser(chatid, uid)])
  }

  function SaveMessage(s: Storage, msg: Message): Storage {
    s.(messages := s.messages + [msg])
  }

  function UpdateFrom(users: seq<User>, id: nat, ts: nat, i: nat): seq<User>
    requires i <= |users|
    decreases |users| - i
  {
    if i == |users| then users
    else if users[i].id == id then users[i := users[i].(heartbit := ts)] else UpdateFrom(users, id, ts, i + 1)
  }

  function UpdateUserHeartBit(s: Storage, uid: nat, ts: nat): Storage {
    s.(users := UpdateFrom(s.users, uid, ts, 0))
  }

  // ---------------------------------------------------------------- message queries

  predicate Within(idx: seq<nat>, n: nat) {
    forall k :: 0 <= k < |idx| ==> idx[k] < n
  }

  /** The positions below `n` whose message satisfies `p`, newest first. */
  function MatchesDown(ms: seq<Message>, p: Message -> bool, n: nat): (r: seq<nat>)
    requires n <= |ms|
    ensures Within(r, n)
  {
    if n == 0 then [] else (if p(ms[n - 1]) then [n - 1] else []) + MatchesDown(ms, p, n - 1)
  }

  /** Exactly those positions. */
  lemma {:induction false} MatchesAreMatches(ms: seq<Message>, p: Message -> bool, n: nat)
    requires n <= |ms|
    ensures forall i :: i in MatchesDown(ms, p, n) <==> 0 <= i < n && p(ms[i])
  {
    if n > 0 { MatchesAreMatches(ms, p, n - 1); }
  }

  predicate Descending(idx: seq<nat>) {
    forall k, l :: 0 <= k < l < |idx| ==> idx[l] < idx[k]
  }

  /** Each once. */
  lemma {:induction false} MatchesDescend(ms: seq<Message>, p: Message -> bool, n: nat)
    requires n <= |ms|
    ensures Descending(MatchesDown(ms, p, n))
  {
    if n > 0 {
      MatchesDescend(ms, p, n - 1);
      DescendingCons(n - 1, MatchesDown(ms, p, n - 1));
      assert [] + MatchesDown(ms, p, n - 1) == MatchesDown(ms, p, n - 1);
    }
  }

  lemma DescendingCons(i: nat, idx: seq<nat>)
    requires Descending(idx) && Within(idx, i)
    ensures Descending([i] + idx)
  {
  }

  function Pick(ms: seq<Message>, idx: seq<nat>): (r: seq<Message>)
    requires Within(idx, |ms|)
    ensures |r| == |idx|
  {
    seq(|idx|, k requires 0 <= k < |idx| => ms[idx[k]])
  }

  /** The positions a query with a limit returns. */
  function Selected(ms: seq<Message>, p: Message -> bool, max: nat): (r: seq<nat>)
    ensures Within(r, |ms|)
  {
    TakeUpTo(MatchesDown(ms, p, |ms|), max)
  }

  function SelectMessages(s: Storage, p: Message -> bool, max: nat): seq<Message> {
    Pick(s.messages, Selected(s.messages, p, max))
  }

  function InChatSince(chatid: nat, ts: nat): Message -> bool {
    (m: Message) => m.chatTo == chatid && m.ts > ts
  }

  function MarkRead(ms: seq<Message>, idx: seq<nat>): (r: seq<Message>)
    ensures |r| == |ms|
  {
    seq(|ms|, i requires 0 <= i < |ms| => if i in idx then ms[i].(flags := READ) else ms[i])
  }

  /** `getMessages` returns copies with their old flags and marks the stored ones as read. */
  function GetMessages(s: Storage, chatid: nat, ts: nat, max: nat): (Storage, seq<Message>) {
    var idx := Selected(s.messages, InChatSince(chatid, ts), max);
    (s.(messages := MarkRead(s.messages, idx)), Pick(s.messages, idx))
  }

  lemma FilterSnoc<T>(s: seq<T>, x: T, p: T -> bool)
    ensures p(x) ==> Filter(s + [x], p) == Filter(s, p) + [x]
    ensures !p(x) ==> Filter(s + [x], p) == Filter(s, p)
  {
    assert (s + [x])[..|s|] == s;
  }

  lemma ReversedSnoc<T>(s: seq<T>, x: T)
    ensures Reversed(s + [x]) == [x] + Reversed(s)
  {
    assert (s + [x])[..|s|] == s;
  }

  lemma PickCons(ms: seq<Message>, i: nat, idx: seq<nat>)
    requires i < |ms| && Within(idx, i)
    ensures Within([i] + idx, |ms|) && Within(idx, |ms|) && Pick(ms, [i] + idx) == [ms[i]] + Pick(ms, idx)
  {
  }

  lemma MatchesStep(ms: seq<Message>, p: Message -> bool, n: nat)
    requires 0 < n <= |ms|
    ensures p(ms[n - 1]) ==> MatchesDown(ms, p, n) == [n - 1] + MatchesDown(ms, p, n - 1)
    ensures !p(ms[n - 1]) ==> MatchesDown(ms, p, n) == MatchesDown(ms, p, n - 1)
  {
  }

  lemma PickMatchesStep(ms: seq<Message>, p: Message -> bool, n: nat)
    requires 0 < n <= |ms| && Pick(ms, MatchesDown(ms, p, n - 1)) == Reversed(Filter(ms[..n - 1], p))
    ensures Pick(ms, MatchesDown(ms, p, n)) == Reversed(Filter(ms[..n], p))
  {
    hide *;
    var init, x := ms[..n - 1], ms[n - 1];
    MatchesStep(ms, p, n);
    assert ms[..n] == init + [x];
    FilterSnoc(init, x, p);
    if p(x) {
      PickCons(ms, n - 1, MatchesDown(ms, p, n - 1));
      ReversedSnoc(Filter(init, p), x);
    }
  }

  lemma {:induction false} PickMatchesIsFilter(ms: seq<Message>, p: Message -> bool, n: nat)
    requires n <= |ms|
    ensures Pick(ms, MatchesDown(ms, p, n)) == Reversed(Filter(ms[..n], p))
  {
    if n > 0 {
      PickMatchesIsFilter(ms, p, n - 1);
      PickMatchesStep(ms, p, n);
    }
  }

  lemma PickTakes(ms: seq<Message>, idx: seq<nat>, max: nat)
    requires Within(idx, |ms|)
    ensures Within(TakeUpTo(idx, max), |ms|) && Pick(ms, TakeUpTo(idx, max)) == TakeUpTo(Pick(ms, idx), max)
  {
  }

  /** The backwards loop is the declarative query: filter by the condition, newest first, cut to the limit. */
  lemma QueryIsDeclarative(s: Storage, p: Message -> bool, max: nat)
    ensures SelectMessages(s, p, max) == TakeUpTo(Reversed(Filter(s.messages, p)), max)
  {
    PickMatchesIsFilter(s.messages, p, |s.messages|);
    assert s.messages[..|s.messages|] == s.messages;
    PickTakes(s.messages, MatchesDown(s.messages, p, |s.messages|), max);
  }

  /** `getMessages` returns that query for its chat and timestamp, and touches nothing but the flags of
  the stored messages it returned. */
  lemma GetMessagesIsDeclarative(s: Storage, chatid: nat, ts: nat, max: nat)
    ensures var (t, found) := GetMessages(s, chatid, ts, max);
      && found == TakeUpTo(Reversed(Filter(s.messages, InChatSince(chatid, ts))), max)
      && t == s.(messages := t.messages) && |t.messages| == |s.messages|
      && (var picked := Selected(s.messages, InChatSince(chatid, ts), max);
          forall i :: 0 <= i < |s.messages| ==>
            t.messages[i] == (if i in picked then s.messages[i].(flags := READ) else s.messages[i]))
  {
    QueryIsDeclarative(s, InChatSince(chatid, ts), max);
  }
}
