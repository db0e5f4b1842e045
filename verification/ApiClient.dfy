/** A connection of the server (server/src/apiclient.cpp): what a request becomes, and the handlers of the
idle protocol, which keep their state in the object's fields. */
module ApiClient {
  import opened Wrappers
  import opened Numbers
  import opened Http
  import opened HttpMessages
  import opened Framing
  import opened Server
  import LockQueue

  /** `parse_meta`: the request parameters after reading the JSON body, and an error text or "". */
  type Meta = (Params, string, Command) -> (Params, string)

  /** The JSON error body made of an API status and a description. */
  type ErrorBody = (nat, string) -> string

  const ERR_BAD_REQUEST: nat := 1
  const ERR_NOT_FOUND: nat := 3

  // ---------------------------------------------------------------- routing

  /** `common::cmd2string`. */
  function CmdToString(cmd: Command): string {
    match cmd
    case MESSAGE_SEND => "/v1/message/send"
    case MESSAGE_SEND_CHAT => "/v1/message/sendchat"
    case USER_CREATE => "/v1/user/create"
    case USER_LOGIN => "/v1/user/login"
    case CHAT_CREATE => "/v1/chat/create"
    case USER_HISTORY => "/v1/user/history"
    case CHAT_HISTORY => "/v1/group/history"
    case USER_STATUS => "/v1/user/status"
    case CHAT_STATUS => "/v1/chat/status"
    case CHAT_ADDUSER => "/v1/chat/adduser"
    case MESSAGE_RECENT => "/v1/message/recent"
    case IDLE => "/v1/idle"
    case GET_LOCATIONS => "/v1/locations"
    case CHAT_WITH_LOCATION => "/v1/locations/users"
  }

  /** The router, on a lowercased resource; the idle resource is recognised before it. */
  function Route(resource: string): Option<Command> {
    if resource == "/v1/message/send" then Some(MESSAGE_SEND)
    else if resource == "/v1/message/sendchat" then Some(MESSAGE_SEND_CHAT)
    else if resource == "/v1/user/login" then Some(USER_LOGIN)
    else if resource == "/v1/user/create" then Some(USER_CREATE)
    else if resource == "/v1/chat/create" then Some(CHAT_CREATE)
    else if resource == "/v1/user/history" then Some(USER_HISTORY)
    else if resource == "/v1/group/history" then Some(CHAT_HISTORY)
    else if resource == "/v1/user/status" then Some(USER_STATUS)
    else if resource == "/v1/chat/adduser" then Some(CHAT_ADDUSER)
    else if resource == "/v1/locations" then Some(GET_LOCATIONS)
    else if resource == "/v1/locations/users" then Some(CHAT_WITH_LOCATION)
    else None
  }

  predicate AllowedType(contentType: string) {
    StartsWith(contentType, "text/plain") || StartsWith(contentType, "application/json")
  }

  /** What becomes of a request, and the parameters it leaves in the object; `city` is the location of the peer. */
  function Handle(meta: Meta, params: Params, reply: HttpReply, city: string): (Params, Request) {
    var resource := Lowercased(reply.resource);
    if resource == "/v1/idle" then
      var (p, err) := meta(params, reply.body, IDLE);
      (p, if err != "" then Refused(400) else StartIdle(p))
    else
      match Route(resource)
      case None => (params, Refused(404))
      case Some(cmd) =>
        var q := if cmd.USER_CREATE? then params.(city := city) else params;
        if !AllowedType(GetHeader(reply, "Content-Type")) then (q, Refused(400))
        else
          var (p, err) := meta(q, reply.body, cmd);
          (p, if err != "" then Refused(400) else Accepted(cmd, p))
  }

  lemma ResourcesAreLowercase(cmd: Command)
    ensures Lowercased(CmdToString(cmd)) == CmdToString(cmd) && GoodResource(CmdToString(cmd))
  {
    var r := CmdToString(cmd);
    assert forall i :: 0 <= i < |r| ==> 'a' <= r[i] <= 'z' || r[i] == '/' || r[i] == '1';
    hide CmdToString;
  }

  lemma RouteOfCommand(cmd: Command)
    ensures Route(CmdToString(cmd)) == if cmd.CHAT_STATUS? || cmd.MESSAGE_RECENT? || cmd.IDLE? then None else Some(cmd)
    ensures CmdToString(cmd) == "/v1/idle" <==> cmd.IDLE?
  {
    var r := CmdToString(cmd);
    match |r| {
      case 15 => assert r[4] != 'u' || r[9] != 's' || cmd.USER_STATUS?;
      case 16 => assert r[4] != 'm' || cmd.MESSAGE_SEND?;
      case _ =>
    }
  }

  /** The router undoes the printing of every command except the two it does not know and the idle command. */
  lemma RouteInvertsPrinting(cmd: Command)
    ensures Route(Lowercased(CmdToString(cmd)))
      == if cmd.CHAT_STATUS? || cmd.MESSAGE_RECENT? || cmd.IDLE? then None else Some(cmd)
    ensures Lowercased(CmdToString(cmd)) == "/v1/idle" <==> cmd.IDLE?
    ensures GoodResource(CmdToString(cmd))
  {
    hide *;
    ResourcesAreLowercase(cmd);
    RouteOfCommand(cmd);
  }

  /** A request that the client prints for a command is parsed, routed and accepted as that command, whatever
  its body, provided `parse_meta` takes the body. */
  lemma PrintedRequestIsAccepted(inflate: Inflate, meta: Meta, params: Params, cmd: Command, body: string,
                                 tail: string, city: string)
    requires |body| < U64 && !cmd.CHAT_STATUS? && !cmd.MESSAGE_RECENT?
    requires meta(if cmd.USER_CREATE? then params.(city := city) else params, body, cmd).1 == ""
    ensures var p := ParseMessage(inflate, BuildRequest(CmdToString(cmd), "application/json", body) + tail);
      && p.Complete? && p.event.Reply? && p.rest == tail
      && (var (q, request) := Handle(meta, params, p.event.reply, city);
          if cmd.IDLE? then request == StartIdle(q) else request == Accepted(cmd, q))
  {
    hide Route, ParseMessage, BuildRequest, HeaderKey, CmdToString, Lowercased, AllowedType, GetHeader;
    RouteInvertsPrinting(cmd);
    assert GoodValue("application/json") && AllowedType("application/json") by { JsonIsAllowed(); }
    RequestRoundTrip(inflate, CmdToString(cmd), "application/json", body, tail);
    var p := ParseMessage(inflate, BuildRequest(CmdToString(cmd), "application/json", body) + tail);
    assert HeaderKey("Content-Type") == HeaderKey("Content-Type");
    assert GetHeader(p.event.reply, "Content-Type") == "application/json";
  }

  lemma JsonIsAllowed()
    ensures GoodValue("application/json") && AllowedType("application/json")
  {
    assert "application/json"[0] == 'a';
  }

  // ---------------------------------------------------------------- any request

  /** The same text in any case. */
  predicate SameText(a: string, b: string) {
    |a| == |b| && forall i :: 0 <= i < |a| ==> SameLetter(a[i], b[i])
  }

  lemma TextsFold(a: string, b: string)
    ensures SameText(a, b) <==> Lowercased(a) == Lowercased(b)
  {
    var x, y := Lowercased(a), Lowercased(b);
    if |a| == |b| {
      forall i | 0 <= i < |a| ensures SameLetter(a[i], b[i]) <==> x[i] == y[i] { LettersFold(a[i], b[i]); }
    }
  }

  /** Commands with a resource that the router knows. */
  predicate Routed(cmd: Command) {
    !cmd.CHAT_STATUS? && !cmd.MESSAGE_RECENT? && !cmd.IDLE?
  }

  /** The resource of a command, and of no other. */
  lemma RouteIff(resource: string, cmd: Command)
    ensures Route(resource) == Some(cmd) <==> Routed(cmd) && resource == CmdToString(cmd)
  {
    RouteOfCommand(cmd);
  }

  lemma RouteOfText(resource: string, cmd: Command)
    ensures Route(Lowercased(resource)) == Some(cmd) <==> Routed(cmd) && SameText(resource, CmdToString(cmd))
    ensures Lowercased(resource) == "/v1/idle" <==> SameText(resource, "/v1/idle")
  {
    RouteIff(Lowercased(resource), cmd);
    ResourcesAreLowercase(cmd);
    ResourcesAreLowercase(IDLE);
    TextsFold(resource, CmdToString(cmd));
    TextsFold(resource, "/v1/idle");
    assert CmdToString(IDLE) == "/v1/idle";
    hide Route, CmdToString, Lowercased, SameText;
  }

  /** What becomes of a request, by its resource in any case, its content type and what `parse_meta` makes of it. */
  ghost predicate Judged(meta: Meta, params: Params, city: string, resource: string, contentType: string, body: string,
                         p: Params, request: Request) {
    && (SameText(resource, "/v1/idle") ==>
          p == meta(params, body, IDLE).0
          && request == (if meta(params, body, IDLE).1 == "" then StartIdle(p) else Refused(400)))
    && (forall cmd :: Routed(cmd) && SameText(resource, CmdToString(cmd)) ==>
          var q := if cmd.USER_CREATE? then params.(city := city) else params;
          if "text/plain" <= contentType || "application/json" <= contentType then
            p == meta(q, body, cmd).0
            && request == (if meta(q, body, cmd).1 == "" then Accepted(cmd, p) else Refused(400))
          else p == q && request == Refused(400))
    && (!SameText(resource, "/v1/idle") && (forall cmd :: Routed(cmd) ==> !SameText(resource, CmdToString(cmd))) ==>
          p == params && request == Refused(404))
  }

  lemma HandleIsJudged(meta: Meta, params: Params, reply: HttpReply, city: string)
    ensures var (p, request) := Handle(meta, params, reply, city);
      Judged(meta, params, city, reply.resource, GetHeader(reply, "Content-Type"), reply.body, p, request)
  {
    hide Route, Lowercased, SameText, GetHeader, CmdToString, HasHeader;
    var resource := Lowercased(reply.resource);
    forall cmd: Command
      ensures Route(resource) == Some(cmd) <==> Routed(cmd) && SameText(reply.resource, CmdToString(cmd))
    {
      RouteOfText(reply.resource, cmd);
    }
    RouteOfText(reply.resource, IDLE);
    IdleIsNotRouted();
    if Route(resource).Some? { assert Route(resource) == Some(Route(resource).value); }
  }

  lemma IdleIsNotRouted()
    ensures Route("/v1/idle") == None
  {
  }

  /** Every well-formed request that arrives, however its body is coded, is judged by its own resource, content type and
  body. */
  lemma RequestIsJudged(inflate: Inflate, meta: Meta, params: Params, m: Message, tail: string, city: string)
    requires WellFormed(m) && m.start.Request? && !Spoilt(inflate, m)
    ensures var e := ParseMessage(inflate, MessageText(m) + tail);
      && e.Complete? && e.event.Reply? && e.rest == tail && (!IsZipped(m) ==> e.event.reply.body == Payload(m.body))
      && (var (p, request) := Handle(meta, params, e.event.reply, city);
          Judged(meta, params, city, m.start.resource, ValueOrNothing(m.lines, "Content-Type"), e.event.reply.body, p,
                 request))
  {
    hide *;
    MessageIsRead(inflate, m, tail);
    var e := ParseMessage(inflate, MessageText(m) + tail);
    RequestIs(inflate, m, e.event);
    HandleIsJudged(meta, params, e.event.reply, city);
  }

  lemma RequestIs(inflate: Inflate, m: Message, e: Http.Event)
    requires Reads(inflate, m, e) && m.start.Request? && !Spoilt(inflate, m)
    ensures e.Reply? && e.reply.resource == m.start.resource && (!IsZipped(m) ==> e.reply.body == Payload(m.body))
    ensures GetHeader(e.reply, "Content-Type") == ValueOrNothing(m.lines, "Content-Type")
  {
    SpoiltIsError(inflate, m, e);
    hide IsZipped, Spoilt, Payload, GetHeader, HasHeader, ValueOrNothing, LastValue, LowerCaseOf;
  }

  lemma RouteRange(resource: string)
    ensures Route(resource).Some? ==>
      !Route(resource).value.IDLE? && !Route(resource).value.CHAT_STATUS? && !Route(resource).value.MESSAGE_RECENT?
  {
  }

  /** What the step system relies on: no request puts an idle task into the queue. */
  lemma OnlyTicksQueuePolls(meta: Meta, params: Params, reply: HttpReply, city: string)
    ensures var (p, request) := Handle(meta, params, reply, city);
      && (request.Accepted? ==> request.params == p && !request.cmd.IDLE?)
      && (request.Accepted? ==> !request.cmd.CHAT_STATUS? && !request.cmd.MESSAGE_RECENT?)
      && (request.StartIdle? ==> request.params == p)
  {
    hide Route, Lowercased, AllowedType, GetHeader;
    RouteRange(Lowercased(reply.resource));
  }

  // ---------------------------------------------------------------- the object

  class ApiClient {
    const meta: Meta
    const errorBody: ErrorBody
    const client: nat
    const queue: LockQueue.Queue<Task>

    var httpCode: int
    var newestMsgTimestamp: nat
    var lastClientPing: nat
    var timer: bool
    var params: Params
    var received: nat

    /** `client` and `received` number the connection and its requests; the original has no such numbers. */
    constructor (meta: Meta, errorBody: ErrorBody, client: nat, queue: LockQueue.Queue<Task>)
      ensures this.meta == meta && this.errorBody == errorBody && this.client == client && this.queue == queue
      ensures httpCode == 200 && newestMsgTimestamp == 0 && lastClientPing == 0 && !timer && received == 0
    {
      this.meta, this.errorBody, this.client, this.queue := meta, errorBody, client, queue;
      httpCode, newestMsgTimestamp, lastClientPing, timer, received := 200, 0, 0, false, 0;
      params := Params(0, 0, 0, "", "", "", "", "", "", "", "");
    }

    /** The object's fields are those of the idle connection of the step system. */
    ghost predicate Shows(idle: Idle)
      reads this
    {
      && params == idle.params && newestMsgTimestamp == idle.newest && lastClientPing == idle.lastPing
      && timer == idle.timer
    }

    ghost predicate IsError(response: Option<string>, code: int) {
      exists api, desc :: response == Some(BuildApiErrorResponse(code, errorBody(api, desc)))
    }

    /** Prints the response; it goes out as the next write. */
    method SendErrorResponse(httpCode: int, apiCode: nat, desc: string) returns (response: string)
      modifies this`httpCode
      ensures this.httpCode == httpCode && response == BuildApiErrorResponse(httpCode, errorBody(apiCode, desc))
    {
      this.httpCode := httpCode;
      response := BuildApiErrorResponse(this.httpCode, errorBody(apiCode, desc));
    }

    method ResponseToClientWroteHandler()
      modifies this`httpCode
      ensures httpCode == 200
    {
      httpCode := 200;
    }

    /** A request was read: it becomes a task, or the start of idling, or an error response. */
    method RequestFromClientReadHandler(reply: HttpReply, city: string, okBody: string)
      returns (response: Option<string>)
      requires queue as object != this
      modifies this, queue
      ensures var (p, request) := Handle(meta, old(params), reply, city);
        && params == p && received == old(received) + 1
        && newestMsgTimestamp == old(newestMsgTimestamp) && lastClientPing == old(lastClientPing)
        && queue.items == old(queue.items) +
             (if request.Accepted? then [Task(request.cmd, p, client, old(received), false)] else [])
        && timer == (request.StartIdle? || old(timer))
        && (response.None? <==> request.Accepted?)
        && (request.Refused? ==> httpCode == request.code && IsError(response, request.code))
        && (request.StartIdle? ==> response == Some(BuildApiOkResponse(okBody)))
        && (request.StartIdle? && old(newestMsgTimestamp) == 0 && old(lastClientPing) == 0 ==>
              forall conn: Conn :: OnReceive(conn, request).idle.Some? && Shows(OnReceive(conn, request).idle.value))
    {
      hide BuildApiErrorResponse, BuildApiOkResponse;
      ghost var n := received;
      received := received + 1;
      var resource := Lowercased(reply.resource);
      if resource == "/v1/idle" {
        var (p, err) := meta(params, reply.body, IDLE);
        params := p;
        if err != "" {
          var r := SendErrorResponse(400, ERR_BAD_REQUEST, err);
          return Some(r);
        }
        timer := true;
        return Some(BuildApiOkResponse(okBody));
      }
      var cmd := Route(resource);
      if cmd.None? {
        var r := SendErrorResponse(404, ERR_NOT_FOUND, "bad request");
        return Some(r);
      }
      if cmd.value.USER_CREATE? {
        params := params.(city := city);
      }
      response := HandlerImpl(reply, cmd.value);
    }

    method HandlerImpl(reply: HttpReply, command: Command) returns (response: Option<string>)
      requires queue as object != this && received > 0
      modifies this`params, this`httpCode, queue
      ensures var (p, err) := meta(old(params), reply.body, command);
        if !AllowedType(GetHeader(reply, "Content-Type")) || err != "" then
          && params == (if AllowedType(GetHeader(reply, "Content-Type")) then p else old(params))
          && queue.items == old(queue.items) && httpCode == 400
          && IsError(response, 400)
        else
          && params == p && response == None
          && queue.items == old(queue.items) + [Task(command, p, client, received - 1, false)]
    {
      hide BuildApiErrorResponse, HeaderKey;
      if AllowedType(GetHeader(reply, "Content-Type")) {
        var (p, err) := meta(params, reply.body, command);
        params := p;
        if err != "" {
          var r := SendErrorResponse(400, ERR_BAD_REQUEST, err);
          return Some(r);
        }
      } else {
        var r := SendErrorResponse(400, ERR_BAD_REQUEST, "not allowed content type");
        return Some(r);
      }
      queue.Push(Task(command, params, client, received - 1, false));
      response := None;
    }

    /** The polling timer fired, or was cancelled. */
    method TimerWaitTaskResultHandler(aborted: bool, now: nat, ghost idle: Idle)
      requires queue as object != this && Shows(idle)
      modifies this, queue
      ensures aborted ==> Shows(idle) && queue.items == old(queue.items)
      ensures !aborted ==> Shows(OnTick(idle, now).(timer := true)) && received == old(received)
      ensures !aborted ==> queue.items == old(queue.items) + [TickTask(idle, client, received, now)]
    {
      if aborted {
        return;
      }
      if newestMsgTimestamp > params.ts {
        params := params.(ts := newestMsgTimestamp);
      }
      var task := Task(IDLE, params, client, received, false);
      if (now - lastClientPing) % U64 > 5 {
        lastClientPing := now;
        task := task.(ping := true);
      }
      queue.Push(task);
      timer := true;
    }

    /** The response to the poll, and the timestamp its completed write will store. */
    method SendMessagesToIdleConn(msgs: seq<ApiMessage>, body: string, ghost entries: seq<Entry>)
      returns (response: string, maxTs: nat)
      requires |msgs| == |entries| && forall i :: 0 <= i < |msgs| ==> msgs[i].ts == entries[i].msg.ts
      ensures response == BuildApiOkResponse(body) && maxTs == Server.MaxTimestamp(entries)
    {
      maxTs := MaxTimestampOf(msgs, entries);
      response := BuildApiOkResponse(body);
    }

    /** The write of batch `k` ended. */
    method IdleWriteHandler(maxTs: nat, failed: bool, ghost idle: Idle, ghost k: nat)
      requires Shows(idle) && k < |idle.inFlight| && maxTs == Server.MaxTimestamp(idle.inFlight[k].entries)
      modifies this
      ensures Shows(OnIdleWrote(idle, k, !failed))
    {
      if failed {
        timer := false;
        return;
      }
      newestMsgTimestamp := maxTs;
    }
  }

  /** `max_timestamp`. */
  method MaxTimestampOf(msgs: seq<ApiMessage>, ghost entries: seq<Entry>) returns (ts: nat)
    requires |msgs| == |entries| && forall i :: 0 <= i < |msgs| ==> msgs[i].ts == entries[i].msg.ts
    ensures ts == Server.MaxTimestamp(entries)
  {
    ts := 0;
    for i := 0 to |msgs|
      invariant ts == Server.MaxTimestamp(entries[..i])
    {
      assert entries[..i + 1][..i] == entries[..i];
      if msgs[i].ts > ts {
        ts := msgs[i].ts;
      }
    }
    assert entries[..|entries|] == entries;
  }
}
