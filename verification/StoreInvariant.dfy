/** What every call of the store keeps, given arguments that earlier lookups returned. */
module StoreInvariant {
  import opened Store

  predicate HasUser(s: Storage, id: nat) {
    1 <= id <= |s.users|
  }

  predicate HasChat(s: Storage, id: nat) {
    1 <= id <= |s.chats|
  }

  /** Ids are handed out in order from 1, so they are positive, unique and below their counters. */
  ghost predicate IdsInOrder(s: Storage) {
    && s.userAutoincrement == |s.users| + 1 && s.chatAutoincrement == |s.chats| + 1
    && (forall i :: 0 <= i < |s.users| ==> s.users[i].id == i + 1)
    && (forall i :: 0 <= i < |s.chats| ==> s.chats[i].id == i + 1)
  }

  ghost predicate UserNamesUnique(s: Storage) {
    forall i, j :: 0 <= i < j < |s.users| ==> s.users[i].name != s.users[j].name
  }

  /** Each user has a chat of the same name for itself alone, and is a member of it. */
  ghost predicate SelfChats(s: Storage) {
    && (forall i :: 0 <= i < |s.users| ==> HasSelfChat(s, s.users[i]))
    && (forall i, j :: 0 <= i < j < |s.users| ==> s.users[i].selfChatId < s.users[j].selfChatId)
  }

  ghost predicate HasSelfChat(s: Storage, u: User) {
    HasChat(s, u.selfChatId) && s.chats[u.selfChatId - 1].name == u.name && Chatuser(u.selfChatId, u.id) in s.chatuser
  }

  ghost predicate MembershipsRefer(s: Storage) {
    && (forall i :: 0 <= i < |s.chatuser| ==> HasChat(s, s.chatuser[i].chatid) && HasUser(s, s.chatuser[i].uid))
    && (forall i, j :: 0 <= i < j < |s.chatuser| ==> s.chatuser[i] != s.chatuser[j])
  }

  predicate Refers(s: Storage, m: Message) {
    HasUser(s, m.userFrom) && HasChat(s, m.chatTo)
  }

  ghost predicate MessagesRefer(s: Storage) {
    forall i :: 0 <= i < |s.messages| ==> Refers(s, s.messages[i])
  }

  ghost predicate IsSelfChat(s: Storage, id: nat) {
    exists i :: 0 <= i < |s.users| && s.users[i].selfChatId == id
  }

  /** Of two chats with one name the older was made by `createChat` and the younger is a self chat. */
  ghost predicate ChatNamesPair(s: Storage) {
    forall i, j :: 0 <= i < j < |s.chats| && s.chats[i].name == s.chats[j].name ==>
      !IsSelfChat(s, i + 1) && IsSelfChat(s, j + 1)
  }

  ghost predicate Inv(s: Storage) {
    IdsInOrder(s) && UserNamesUnique(s) && SelfChats(s) && MembershipsRefer(s) && MessagesRefer(s) && ChatNamesPair(s)
  }

  // ---------------------------------------------------------------- what stays

  /** The parts of a user record that no call changes. */
  predicate SameUser(u: User, v: User) {
    u.(heartbit := 0) == v.(heartbit := 0)
  }

  predicate SameMessage(m: Message, n: Message) {
    m.(flags := READ) == n.(flags := READ)
  }

  /** Records are only added; heartbits and flags are all that changes in the old ones. */
  ghost predicate Grows(s: Storage, t: Storage) {
    && s.chats <= t.chats && s.chatuser <= t.chatuser
    && |s.users| <= |t.users| && (forall i :: 0 <= i < |s.users| ==> SameUser(s.users[i], t.users[i]))
    && |s.messages| <= |t.messages| && (forall i :: 0 <= i < |s.messages| ==> SameMessage(s.messages[i], t.messages[i]))
  }

  lemma GrowsTransitive(s: Storage, t: Storage, u: Storage)
    requires Grows(s, t) && Grows(t, u)
    ensures Grows(s, u)
  {
  }

  // ---------------------------------------------------------------- every call keeps the invariant

  lemma EmptyStorageIsGood()
    ensures Inv(EMPTY_STORAGE)
  {
  }

  lemma CreateUserGrows(s: Storage, name: string, pass: string, stpath: string, ip: string, city: string)
    ensures Grows(s, CreateUser(s, name, pass, stpath, ip, city).0)
  {
  }

  lemma SelfChatStays(s: Storage, t: Storage, id: nat)
    requires |t.users| == |s.users| + 1 && (forall i :: 0 <= i < |s.users| ==> t.users[i] == s.users[i])
    requires t.users[|s.users|].selfChatId != id
    ensures IsSelfChat(t, id) == IsSelfChat(s, id)
  {
    if IsSelfChat(s, id) {
      var k :| 0 <= k < |s.users| && s.users[k].selfChatId == id;
      assert t.users[k].selfChatId == id;
    }
  }

  lemma SelfChatHasOwner(s: Storage, id: nat)
    requires SelfChats(s)
    ensures IsSelfChat(s, id) ==>
      HasChat(s, id) && exists k :: 0 <= k < |s.users| && s.users[k].name == s.chats[id - 1].name
  {
    if IsSelfChat(s, id) {
      var k :| 0 <= k < |s.users| && s.users[k].selfChatId == id;
      assert HasSelfChat(s, s.users[k]);
    }
  }

  /** The chat of a new user is younger than any group chat of that name, and no other self chat has that name. */
  lemma CreateUserKeepsChatNames(s: Storage, name: string, pass: string, stpath: string, ip: string, city: string)
    requires Inv(s)
    ensures ChatNamesPair(CreateUser(s, name, pass, stpath, ip, city).0)
  {
    var t := CreateUser(s, name, pass, stpath, ip, city).0;
    if t != s {
      var n := |s.chats|;
      assert t.users[|s.users|].selfChatId == n + 1;
      forall i, j | 0 <= i < j < |t.chats| && t.chats[i].name == t.chats[j].name
        ensures !IsSelfChat(t, i + 1) && IsSelfChat(t, j + 1)
      {
        SelfChatStays(s, t, i + 1);
        if j < n {
          SelfChatStays(s, t, j + 1);
        } else {
          SelfChatHasOwner(s, i + 1);
        }
      }
    }
  }

  lemma CreateUserKeepsSelfChats(s: Storage, name: string, pass: string, stpath: string, ip: string, city: string)
    requires Inv(s)
    ensures SelfChats(CreateUser(s, name, pass, stpath, ip, city).0)
  {
    var t := CreateUser(s, name, pass, stpath, ip, city).0;
    if t != s {
      var n := |s.users|;
      assert t.chatuser[|s.chatuser|] == Chatuser(t.users[n].selfChatId, t.users[n].id);
      forall i | 0 <= i < |t.users| ensures HasSelfChat(t, t.users[i]) {
        if i < n { SelfChatRemains(s, t, s.users[i]); }
      }
      forall i, j | 0 <= i < j < |t.users| ensures t.users[i].selfChatId < t.users[j].selfChatId {
        assert HasSelfChat(s, s.users[i]);
      }
    }
  }

  lemma SelfChatRemains(s: Storage, t: Storage, u: User)
    requires HasSelfChat(s, u) && s.chats <= t.chats && s.chatuser <= t.chatuser
    ensures HasSelfChat(t, u)
  {
  }

  lemma CreateUserKeeps(s: Storage, name: string, pass: string, stpath: string, ip: string, city: string)
    requires Inv(s)
    ensures Inv(CreateUser(s, name, pass, stpath, ip, city).0)
  {
    hide ChatNamesPair, SelfChats;
    CreateUserKeepsChatNames(s, name, pass, stpath, ip, city);
    CreateUserKeepsSelfChats(s, name, pass, stpath, ip, city);
  }

  lemma CreateChatKeeps(s: Storage, name: string, uid: nat)
    requires Inv(s) && (uid == 0 || HasUser(s, uid))
    ensures Inv(CreateChat(s, name, uid).0) && Grows(s, CreateChat(s, name, uid).0)
  {
    var t := CreateChat(s, name, uid).0;
    assert SelfChats(t) by {
      forall i | 0 <= i < |t.users| ensures HasSelfChat(t, t.users[i]) { SelfChatRemains(s, t, s.users[i]); }
    }
    assert ChatNamesPair(t) by {
      hide SelfChats, MembershipsRefer, MessagesRefer;
      assert forall id :: IsSelfChat(t, id) == IsSelfChat(s, id);
    }
    hide SelfChats, ChatNamesPair;
  }

  lemma AddUserToChatKeeps(s: Storage, chatid: nat, uid: nat)
    requires Inv(s) && HasChat(s, chatid) && HasUser(s, uid)
    ensures Inv(AddUserToChat(s, chatid, uid)) && Grows(s, AddUserToChat(s, chatid, uid))
  {
    var t := AddUserToChat(s, chatid, uid);
    forall i | 0 <= i < |t.users| ensures HasSelfChat(t, t.users[i]) {
      SelfChatRemains(s, t, s.users[i]);
    }
    assert forall id :: IsSelfChat(t, id) == IsSelfChat(s, id);
  }

  /** Changing heartbits and messages only. */
  ghost predicate DetailsDiffer(s: Storage, t: Storage) {
    && t == s.(users := t.users, messages := t.messages)
    && |t.users| == |s.users| && (forall i :: 0 <= i < |s.users| ==> SameUser(s.users[i], t.users[i]))
  }

  lemma DetailsDoNotMatter(s: Storage, t: Storage)
    requires Inv(s) && DetailsDiffer(s, t) && MessagesRefer(t)
    ensures Inv(t)
  {
    assert IdsInOrder(t) && UserNamesUnique(t) && MembershipsRefer(t) by { hide SelfChats, ChatNamesPair; }
    assert SelfChats(t) by {
      forall i | 0 <= i < |t.users| ensures HasSelfChat(t, t.users[i]) { assert HasSelfChat(s, s.users[i]); }
    }
    assert ChatNamesPair(t) by {
      hide SelfChats;
      forall id: nat ensures IsSelfChat(t, id) == IsSelfChat(s, id) { SelfChatsSame(s, t, id); }
    }
  }

  lemma SelfChatsSame(s: Storage, t: Storage, id: nat)
    requires DetailsDiffer(s, t)
    ensures IsSelfChat(t, id) == IsSelfChat(s, id)
  {
    if IsSelfChat(s, id) {
      var k :| 0 <= k < |s.users| && s.users[k].selfChatId == id;
      assert SameUser(s.users[k], t.users[k]);
    }
  }

  lemma SaveMessageKeeps(s: Storage, m: Message)
    requires Inv(s) && Refers(s, m)
    ensures Inv(SaveMessage(s, m)) && Grows(s, SaveMessage(s, m))
  {
    hide IdsInOrder, UserNamesUnique, SelfChats, MembershipsRefer, ChatNamesPair;
    DetailsDoNotMatter(s, SaveMessage(s, m));
  }

  lemma GetMessagesKeeps(s: Storage, chatid: nat, ts: nat, max: nat)
    requires Inv(s)
    ensures var t := GetMessages(s, chatid, ts, max).0; Inv(t) && Grows(s, t)
  {
    hide Selected, IdsInOrder, UserNamesUnique, SelfChats, MembershipsRefer, ChatNamesPair;
    var t := GetMessages(s, chatid, ts, max).0;
    forall i | 0 <= i < |t.messages| ensures Refers(t, t.messages[i]) { assert Refers(s, s.messages[i]); }
    DetailsDoNotMatter(s, t);
  }

  lemma {:induction false} UpdateFromChangesHeartbits(users: seq<User>, id: nat, ts: nat, i: nat)
    requires i <= |users|
    ensures var r := UpdateFrom(users, id, ts, i);
      |r| == |users| && forall k :: 0 <= k < |users| ==> SameUser(users[k], r[k])
    decreases |users| - i
  {
    if i < |users| && users[i].id != id { UpdateFromChangesHeartbits(users, id, ts, i + 1); }
  }

  lemma UpdateHeartBitKeeps(s: Storage, uid: nat, ts: nat)
    requires Inv(s)
    ensures Inv(UpdateUserHeartBit(s, uid, ts)) && Grows(s, UpdateUserHeartBit(s, uid, ts))
  {
    hide UpdateFrom, IdsInOrder, UserNamesUnique, SelfChats, MembershipsRefer, ChatNamesPair;
    UpdateFromChangesHeartbits(s.users, uid, ts, 0);
    DetailsDoNotMatter(s, UpdateUserHeartBit(s, uid, ts));
  }

  // ---------------------------------------------------------------- what lookups find

  lemma {:induction false} UserFromFinds(s: Storage, id: nat, i: nat)
    requires IdsInOrder(s) && i <= |s.users| && (id == 0 || i < id)
    ensures UserFrom(s.users, id, i) == if HasUser(s, id) then s.users[id - 1] else NO_USER
    decreases |s.users| - i
  {
    if i < |s.users| && i + 1 != id { UserFromFinds(s, id, i + 1); }
  }

  lemma {:induction false} ChatFromFinds(s: Storage, id: nat, i: nat)
    requires IdsInOrder(s) && i <= |s.chats| && (id == 0 || i < id)
    ensures ChatFrom(s.chats, id, i) == if HasChat(s, id) then s.chats[id - 1] else NO_CHAT
    decreases |s.chats| - i
  {
    if i < |s.chats| && i + 1 != id { ChatFromFinds(s, id, i + 1); }
  }

  /** A lookup returns the record with the id, and the empty record with id 0 exactly when there is none. */
  lemma LookupById(s: Storage, id: nat)
    requires IdsInOrder(s)
    ensures LookupUserById(s, id) == if HasUser(s, id) then s.users[id - 1] else NO_USER
    ensures LookupChatById(s, id) == if HasChat(s, id) then s.chats[id - 1] else NO_CHAT
    ensures LookupUserById(s, id).id == (if HasUser(s, id) then id else 0)
    ensures LookupChatById(s, id).id == (if HasChat(s, id) then id else 0)
  {
    UserFromFinds(s, id, 0);
    ChatFromFinds(s, id, 0);
  }

  lemma FilterHead<T>(s: seq<T>, p: T -> bool)
    ensures Filter(s, p) != [] ==> exists i :: 0 <= i < |s| && p(s[i]) && s[i] == Filter(s, p)[0]
  {
    FilterElements(s, p);
    if Filter(s, p) != [] { assert Filter(s, p)[0] in s; }
  }

  lemma {:induction false} AtMostOneNamed(users: seq<User>, name: string)
    requires forall i, j :: 0 <= i < j < |users| ==> users[i].name != users[j].name
    ensures |Filter(users, UserNamed(name))| <= 1
  {
    if users != [] {
      AtMostOneNamed(users[..|users| - 1], name);
      FilterHead(users[..|users| - 1], UserNamed(name));
    }
  }

  /** A record of the storage, with an id that is not 0. */
  predicate KnownUser(s: Storage, u: User) {
    HasUser(s, u.id) && s.users[u.id - 1] == u && HasChat(s, u.selfChatId)
  }

  lemma UserIsKnown(s: Storage, u: User)
    requires IdsInOrder(s) && SelfChats(s) && u in s.users
    ensures KnownUser(s, u)
  {
    var i :| 0 <= i < |s.users| && s.users[i] == u;
    assert HasSelfChat(s, u);
  }

  /** Looking a user up by name finds the one user of that name or nothing, never more. */
  lemma LookupByName(s: Storage, name: string)
    requires Inv(s)
    ensures var r := LookupUserByName(s, name);
      && |r| <= 1
      && (forall u :: u in r <==> u in s.users && u.name == name)
      && (forall u :: u in r ==> KnownUser(s, u))
  {
    AtMostOneNamed(s.users, name);
    hide Filter, IdsInOrder, SelfChats, MembershipsRefer, ChatNamesPair, MessagesRefer, UserNamesUnique, KnownUser;
    FilterElements(s.users, UserNamed(name));
    forall u | u in s.users ensures KnownUser(s, u) {
      UserIsKnown(s, u);
    }
  }

  lemma ChatsFoundExist(s: Storage, name: string)
    requires IdsInOrder(s)
    ensures forall c :: c in LookupChatByName(s, name) ==> HasChat(s, c.id) && s.chats[c.id - 1] == c && c.name == name
  {
    FilterElements(s.chats, ChatNamed(name));
  }

  lemma MembershipsFoundExist(s: Storage, uid: nat)
    requires Inv(s)
    ensures forall k :: 0 <= k < |ChatIdsOf(s, uid)| ==> HasChat(s, ChatIdsOf(s, uid)[k])
  {
    var found := Filter(s.chatuser, HasMember(uid));
    FilterElements(s.chatuser, HasMember(uid));
    forall k | 0 <= k < |found| ensures HasChat(s, found[k].chatid) { assert found[k] in s.chatuser; }
  }

  // ---------------------------------------------------------------- chat names

  lemma NoThreeNamesakes(s: Storage, i: nat, j: nat, k: nat)
    requires ChatNamesPair(s) && i < j < k < |s.chats|
    ensures !(s.chats[i].name == s.chats[j].name == s.chats[k].name)
  {
  }

  /** At most two chats share a name: at most one made by `createChat` and at most one self chat, and
  then the group chat has the smaller id. */
  lemma ChatNameMultiplicity(s: Storage, i: nat, j: nat)
    requires Inv(s) && i < j < |s.chats| && s.chats[i].name == s.chats[j].name
    ensures s.chats[i].id < s.chats[j].id
    ensures !IsSelfChat(s, s.chats[i].id) && IsSelfChat(s, s.chats[j].id)
    ensures forall k :: 0 <= k < |s.chats| && k != i && k != j ==> s.chats[k].name != s.chats[i].name
  {
    forall k | 0 <= k < |s.chats| && k != i && k != j ensures s.chats[k].name != s.chats[i].name {
      if k < i { NoThreeNamesakes(s, k, i, j); }
      else if k < j { NoThreeNamesakes(s, i, k, j); }
      else { NoThreeNamesakes(s, i, j, k); }
    }
  }
}
