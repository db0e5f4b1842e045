/** `InMemoryConnection` of server/src/inmemory_dbconn.cpp. All connections share one static storage; each
method below is one critical section on its mutex. */
module InMemory {
  import opened Store

  class InMemoryConnection {
    var userAutoincrement: nat
    var chatAutoincrement: nat
    var chats: seq<Chat>
    var users: seq<User>
    var chatuser: seq<Chatuser>
    var messages: seq<Message>

    constructor ()
      ensures Contents() == EMPTY_STORAGE
    {
      userAutoincrement, chatAutoincrement := 1, 1;
      chats, users, chatuser, messages := [], [], [], [];
    }

    function Contents(): Storage
      reads this
    {
      Storage(userAutoincrement, chatAutoincrement, chats, users, chatuser, messages)
    }

    method UpdateUserHeartBit(uid: nat, ts: nat)
      modifies this`users
      ensures Contents() == Store.UpdateUserHeartBit(old(Contents()), uid, ts)
    {
      var i := 0;
      while i < |users|
        invariant 0 <= i <= |users| && users == old(users)
        invariant UpdateFrom(users, uid, ts, i) == UpdateFrom(users, uid, ts, 0)
      {
        if users[i].id == uid {
          users := users[i := users[i].(heartbit := ts)];
          return;
        }
        i := i + 1;
      }
    }

    method CreateUser(name: string, pass: string, stpath: string, ip: string, city: string) returns (user: User)
      modifies this
      ensures (Contents(), user) == Store.CreateUser(old(Contents()), name, pass, stpath, ip, city)
    {
      for i := 0 to |users|
        invariant forall j :: 0 <= j < i ==> users[j].name != name
      {
        if users[i].name == name {
          return NO_USER;
        }
      }
      var chatId, userId := chatAutoincrement, userAutoincrement;
      chatAutoincrement := chatAutoincrement + 1;
      userAutoincrement := userAutoincrement + 1;
      chats := chats + [Chat(chatId, name)];
      user := User(userId, chatId, name, pass, stpath, ip, city, 0);
      users := users + [user];
      chatuser := chatuser + [Chatuser(chatId, userId)];
    }

    method CreateChat(name: string, uid: nat) returns (chat: Chat)
      modifies this
      ensures (Contents(), chat) == Store.CreateChat(old(Contents()), name, uid)
    {
      for i := 0 to |chats|
        invariant forall j :: 0 <= j < i ==> chats[j].name != name
      {
        if chats[i].name == name {
          return NO_CHAT;
        }
      }
      chat := Chat(chatAutoincrement, name);
      chatAutoincrement := chatAutoincrement + 1;
      chats := chats + [chat];
      if uid > 0 {
        chatuser := chatuser + [Chatuser(chat.id, uid)];
      }
    }

    method LookupUserByName(name: string) returns (ret: seq<User>)
      ensures ret == Store.LookupUserByName(Contents(), name)
    {
      ret := [];
      for i := 0 to |users|
        invariant ret == Filter(users[..i], UserNamed(name))
      {
        assert users[..i + 1] == users[..i] + [users[i]];
        FilterSnoc(users[..i], users[i], UserNamed(name));
        if users[i].name == name {
          ret := ret + [users[i]];
        }
      }
      assert users[..|users|] == users;
    }

    method LookupUserById(id: nat) returns (user: User)
      ensures user == Store.LookupUserById(Contents(), id)
    {
      for i := 0 to |users|
        invariant UserFrom(users, id, i) == UserFrom(users, id, 0)
      {
        if users[i].id == id {
          return users[i];
        }
      }
      return NO_USER;
    }

    /** The locked part of `lookupChatsForUserId`. */
    method LookupChatIdsForUserId(uid: nat) returns (ids: seq<nat>)
      ensures ids == ChatIdsOf(Contents(), uid)
    {
      ids := [];
      for i := 0 to |chatuser|
        invariant ids == ChatIds(Filter(chatuser[..i], HasMember(uid)))
      {
        assert chatuser[..i + 1] == chatuser[..i] + [chatuser[i]];
        FilterSnoc(chatuser[..i], chatuser[i], HasMember(uid));
        if chatuser[i].uid == uid {
          ids := ids + [chatuser[i].chatid];
        }
      }
      assert chatuser[..|chatuser|] == chatuser;
    }

    method LookupChatByName(name: string) returns (ret: seq<Chat>)
      ensures ret == Store.LookupChatByName(Contents(), name)
    {
      ret := [];
      for i := 0 to |chats|
        invariant ret == Filter(chats[..i], ChatNamed(name))
      {
        assert chats[..i + 1] == chats[..i] + [chats[i]];
        FilterSnoc(chats[..i], chats[i], ChatNamed(name));
        if chats[i].name == name {
          ret := ret + [chats[i]];
        }
      }
      assert chats[..|chats|] == chats;
    }

    method LookupChatById(id: nat) returns (chat: Chat)
      ensures chat == Store.LookupChatById(Contents(), id)
    {
      for i := 0 to |chats|
        invariant ChatFrom(chats, id, i) == ChatFrom(chats, id, 0)
      {
        if chats[i].id == id {
          return chats[i];
        }
      }
      return NO_CHAT;
    }

    method AddUserToChat(chat: Chat, user: User)
      modifies this`chatuser
      ensures Contents() == Store.AddUserToChat(old(Contents()), chat.id, user.id)
    {
      for i := 0 to |chatuser|
        invariant Chatuser(chat.id, user.id) !in chatuser[..i]
      {
        if chatuser[i].chatid == chat.id && chatuser[i].uid == user.id {
          assert chatuser[i] == Chatuser(chat.id, user.id);
          return;
        }
      }
      chatuser := chatuser + [Chatuser(chat.id, user.id)];
    }

    method SaveMessage(msg: Message)
      modifies this`messages
      ensures Contents() == Store.SaveMessage(old(Contents()), msg)
    {
      messages := messages + [msg];
    }

    /** From the newest message down, returning copies and marking the originals; the index stops at 0. */
    method GetMessages(chatid: nat, ts: nat, maxCount: nat) returns (ret: seq<Message>)
      modifies this`messages
      ensures (Contents(), ret) == Store.GetMessages(old(Contents()), chatid, ts, maxCount)
    {
      hide MatchesDown, Pick, MarkRead;
      ret := [];
      ghost var before, p := messages, InChatSince(chatid, ts);
      ghost var idx: seq<nat> := [];
      NothingPicked(before);
      if |messages| == 0 {
        assert MatchesDown(before, p, 0) == [] by { NoneBelowZero(before, p); }
        return;
      }
      var i := |messages| - 1;
      while true
        invariant 0 <= i < |before|
        invariant Within(idx, |before|) && ret == Pick(before, idx) && messages == MarkRead(before, idx)
        invariant messages[..i + 1] == before[..i + 1]
        invariant Found(before, p, idx, i + 1) && (maxCount > 0 ==> |idx| < maxCount)
        decreases i
      {
        MatchesStep(before, p, i + 1);
        assert messages[i] == messages[..i + 1][i] == before[i];
        if messages[i].chatTo == chatid {
          if messages[i].ts > ts {
            ret := ret + [messages[i]];
            messages := messages[i := messages[i].(flags := READ)];
            PickSnoc(before, idx, i);
            MarkReadSnoc(before, idx, i);
            idx := idx + [i];
          }
        }
        FoundStep(before, p, idx, i);
        if maxCount > 0 && |ret| >= maxCount {
          FoundEnough(before, p, idx, i, maxCount);
          break;
        }
        if i == 0 {
          NoneBelowZero(before, p);
          FoundAll(before, p, idx, maxCount);
          break;
        }
        i := i - 1;
      }
    }

    method SelectMessages(pred: Message -> bool, maxCount: nat) returns (ret: seq<Message>)
      ensures ret == Store.SelectMessages(Contents(), pred, maxCount)
    {
      hide MatchesDown, Pick;
      ret := [];
      ghost var idx: seq<nat> := [];
      NothingPicked(messages);
      if |messages| == 0 {
        NoneBelowZero(messages, pred);
        return;
      }
      var i := |messages| - 1;
      while true
        invariant 0 <= i < |messages|
        invariant Within(idx, |messages|) && ret == Pick(messages, idx)
        invariant Found(messages, pred, idx, i + 1) && (maxCount > 0 ==> |idx| < maxCount)
        decreases i
      {
        MatchesStep(messages, pred, i + 1);
        if pred(messages[i]) {
          ret := ret + [messages[i]];
          PickSnoc(messages, idx, i);
          idx := idx + [i];
        }
        FoundStep(messages, pred, idx, i);
        if maxCount > 0 && |ret| >= maxCount {
          FoundEnough(messages, pred, idx, i, maxCount);
          break;
        }
        if i == 0 {
          NoneBelowZero(messages, pred);
          FoundAll(messages, pred, idx, maxCount);
          break;
        }
        i := i - 1;
      }
    }

    method GetAllDistinctLocations() returns (ret: set<string>)
      ensures ret == DistinctLocations(Contents())
    {
      ret := {};
      for i := 0 to |users|
        invariant ret == set j | 0 <= j < i :: users[j].city
      {
        ret := ret + {users[i].city};
      }
    }

    /** Returns the city itself: the lookup is not written yet. */
    method GetAllUsersFromLocation(city: string) returns (ret: set<string>)
      ensures ret == {city}
    {
      ret := {city};
    }
  }

  // ---------------------------------------------------------------- the backwards loop

  /** `idx` are the matching positions from `n` up, newest first. */
  ghost predicate Found(ms: seq<Message>, p: Message -> bool, idx: seq<nat>, n: nat) {
    n <= |ms| && MatchesDown(ms, p, |ms|) == idx + MatchesDown(ms, p, n)
  }

  lemma NoneBelowZero(ms: seq<Message>, p: Message -> bool)
    ensures MatchesDown(ms, p, 0) == []
  {
  }

  lemma NothingPicked(ms: seq<Message>)
    ensures Pick(ms, []) == [] && MarkRead(ms, []) == ms
  {
  }

  lemma PickSnoc(ms: seq<Message>, idx: seq<nat>, i: nat)
    requires Within(idx, |ms|) && i < |ms|
    ensures Pick(ms, idx + [i]) == Pick(ms, idx) + [ms[i]]
  {
  }

  lemma MarkReadSnoc(ms: seq<Message>, idx: seq<nat>, i: nat)
    requires i < |ms|
    ensures MarkRead(ms, idx + [i]) == MarkRead(ms, idx)[i := ms[i].(flags := READ)]
  {
  }

  lemma FoundStep(ms: seq<Message>, p: Message -> bool, idx: seq<nat>, i: nat)
    requires i < |ms|
    requires p(ms[i]) ==> |idx| > 0 && idx[|idx| - 1] == i && Found(ms, p, idx[..|idx| - 1], i + 1)
    requires !p(ms[i]) ==> Found(ms, p, idx, i + 1)
    ensures Found(ms, p, idx, i)
  {
    hide MatchesDown;
    MatchesStep(ms, p, i + 1);
    if p(ms[i]) {
      var init := idx[..|idx| - 1];
      assert init + ([i] + MatchesDown(ms, p, i)) == (init + [i]) + MatchesDown(ms, p, i);
      assert init + [i] == idx;
    }
  }

  lemma FoundEnough(ms: seq<Message>, p: Message -> bool, idx: seq<nat>, i: nat, max: nat)
    requires Found(ms, p, idx, i) && |idx| == max > 0
    ensures Selected(ms, p, max) == idx
  {
    hide MatchesDown;
  }

  lemma FoundAll(ms: seq<Message>, p: Message -> bool, idx: seq<nat>, max: nat)
    requires Found(ms, p, idx, 0) && MatchesDown(ms, p, 0) == [] && (max == 0 || |idx| <= max)
    ensures Selected(ms, p, max) == idx
  {
    hide MatchesDown;
    assert idx + [] == idx;
  }
}
