/** The classes of net/client.cpp: `BasicTcpClient` with its stream buffer, and `AsyncHttpClient`,
whose callbacks consume that buffer in place. */
module HttpClient {
  import opened Wrappers
  import opened Text
  import opened Numbers
  import opened Http
  import opened HttpReader
  import opened ArmedRead

  class BasicTcpClient {
    var streambuf: string
    var response: string
    var position: nat

    constructor ()
      ensures streambuf == "" && response == "" && position == 0
    {
      streambuf, response, position := "", "", 0;
    }

    /** One attempt of `async_read_until`: the condition sees the buffer from `position` on. A failed attempt leaves
    the position for the next one; a read that is armed anew begins at the front. */
    method Attempt(wait: Wait) returns (met: bool)
      requires position <= |streambuf|
      modifies this`position
      ensures var (offset, found) := Condition(FromBegin, wait, streambuf[old(position)..]);
        met == found && position == if found then 0 else old(position) + offset
    {
      var (offset, found) := Condition(FromBegin, wait, streambuf[position..]);
      met := found;
      position := if found then 0 else position + offset;
    }

    /** Moves the text before the first `delimiter` to `response`. When there is none it would have to
    wait for the network. */
    method ReadUntil(delimiter: string) returns (blocked: bool)
      modifies this`streambuf, this`response
      ensures match Find(old(streambuf), delimiter, 0)
        case None => blocked && streambuf == old(streambuf) && response == ""
        case Some(pos) =>
          && !blocked && response == old(streambuf)[..pos]
          && streambuf == old(streambuf)[pos + |delimiter|..]
    {
      response := "";
      var pos := Find(streambuf, delimiter, 0);
      if pos.None? {
        return true;
      }
      response := streambuf[..pos.value];
      streambuf := streambuf[pos.value + |delimiter|..];
      blocked := false;
    }

    /** Moves `needBytes` characters to `response`, or what there is before waiting for the network. */
    method Read(needBytes: nat) returns (blocked: bool)
      modifies this`streambuf, this`response
      ensures blocked <==> |old(streambuf)| < needBytes
      ensures response == Prefix(old(streambuf), needBytes) && old(streambuf) == response + streambuf
    {
      var alreadyInStream := if needBytes < |streambuf| then needBytes else |streambuf|;
      response := streambuf[..alreadyInStream];
      streambuf := streambuf[alreadyInStream..];
      blocked := alreadyInStream != needBytes;
    }

    method SwapResponse(res: string) returns (swapped: string)
      modifies this`response
      ensures swapped == old(response) && response == res
    {
      swapped := response;
      response := res;
    }
  }

  /** `while (isspace(line[pos])) ++pos;` */
  method SkipWhitespace(line: string, start: nat) returns (pos: nat)
    requires start <= |line|
    ensures pos == SkipSpaces(line, start)
  {
    pos := start;
    while pos < |line| && IsSpace(line[pos])
      invariant start <= pos <= |line| && SkipSpaces(line, pos) == SkipSpaces(line, start)
    {
      pos := pos + 1;
    }
  }

  method ParseHeaderLine(line: string, parsedHeaders: map<string, string>)
    returns (ok: bool, headers: map<string, string>)
    ensures ok <==> HeaderLine(line).Some?
    ensures headers == AddHeader(parsedHeaders, line)
  {
    var pos := Find(line, ":", 0);
    if pos.None? || pos.value == 0 {
      return false, parsedHeaders;
    }
    var key := line[..pos.value];
    if pos.value == |line| - 1 {
      return true, parsedHeaders[HeaderKey(key) := ""];
    }
    var start := SkipWhitespace(line, pos.value + 1);
    return true, parsedHeaders[HeaderKey(key) := line[start..]];
  }

  class AsyncHttpClient {
    const socket: BasicTcpClient
    const inflate: Inflate
    var wait: Wait
    var events: seq<Event>

    /** Connected, with the first read armed. */
    constructor (socket: BasicTcpClient, inflate: Inflate)
      ensures this.socket == socket && this.inflate == inflate && wait == OnHeaders && events == []
    {
      this.socket, this.inflate, this.wait, this.events := socket, inflate, OnHeaders, [];
    }

    ghost function State(): Wire
      reads this, socket
    {
      Wire(socket.streambuf, wait, events)
    }

    /** The caller's handler; it arms the next read unless the connection is given up. */
    method CallHandler(e: Event)
      modifies this
      ensures State() == Deliver(socket.streambuf, old(events), e)
    {
      events := events + [e];
      wait := if e.ProtocolError? then Closed else OnHeaders;
    }

    method ProcessReply(reply: HttpReply)
      modifies this
      ensures State() == Deliver(socket.streambuf, old(events), Finish(inflate, reply))
    {
      if Zipped(reply) && reply.body != "" {
        var r := inflate(reply.body);
        if r.None? {
          CallHandler(ProtocolError(reply));
          return;
        }
        CallHandler(Reply(reply.(body := r.value)));
        return;
      }
      CallHandler(Reply(reply));
    }

    /** Fills the reply from the header block, field by field, and arms the read for the body. */
    method HandleHeaders()
      requires wait.OnHeaders? && Matched(State())
      modifies this, socket`streambuf, socket`response
      ensures State() == Fire(inflate, old(State()))
    {
      hide Find, Parts, Stoi, BodyKind, AddHeader, Lowercased;
      var blocked := socket.ReadUntil(BLANK_LINE);
      assert !blocked;
      var headers := socket.SwapResponse("");
      var reply := EMPTY_REPLY.(headers := headers);
      var lines := Split(headers, CRLF);
      if lines[0] == "" {
        CallHandler(ProtocolError(reply));
        return;
      }
      var params := Split(lines[0], " ");
      if |params| < 2 {
        CallHandler(ProtocolError(reply));
        return;
      }
      var lc := Lowercased(params[0]);
      if StartsWith(lc, "http/") {
        var status := Stoi(params[1]);
        if status.None? {
          CallHandler(ProtocolError(reply));
          return;
        }
        reply := reply.(status := status.value);
      } else {
        reply := reply.(verb := lc, resource := params[1]);
      }
      assert StartLine(EMPTY_REPLY.(headers := headers), params) == Some(reply);
      ghost var started := reply;
      for i := 1 to |lines|
        invariant reply == started.(parsed := HeaderMap(lines[1..i]))
        invariant socket.streambuf == old(socket.streambuf)[Find(old(socket.streambuf), BLANK_LINE, 0).value + 4..]
        invariant wait == old(wait) && events == old(events)
      {
        var ok, parsed := ParseHeaderLine(lines[i], reply.parsed);
        reply := reply.(parsed := parsed);
        assert lines[1..i + 1][..i - 1] == lines[1..i];
      }
      assert lines[1..|lines|] == lines[1..];
      assert ParseHead(headers) == BodyKind(reply);
      ArmBody(reply);
    }

    method ArmBody(reply: HttpReply)
      modifies this
      ensures State() == StartBody(socket.streambuf, old(events), BodyKind(reply))
      ensures HasHeader(reply, "Content-Length") && Stoul(GetHeader(reply, "Content-Length"), 10).Some? ==>
        wait == OnBody(reply, Stoul(GetHeader(reply, "Content-Length"), 10).value.0)
      ensures !HasHeader(reply, "Content-Length") && GetHeader(reply, "Transfer-Encoding") == "chunked" ==>
        wait == OnChunkSize(reply)
    {
      hide Stoul, HeaderKey;
      if HasHeader(reply, "Content-Length") {
        var bodyLen := Stoul(GetHeader(reply, "Content-Length"), 10);
        if bodyLen.None? {
          CallHandler(ProtocolError(reply));
          return;
        }
        wait := OnBody(reply, bodyLen.value.0);
      } else if GetHeader(reply, "Transfer-Encoding") == "chunked" {
        wait := OnChunkSize(reply);
      } else {
        CallHandler(Reply(reply));
      }
    }

    method HandleBody()
      requires wait.OnBody? && Matched(State())
      modifies this, socket`streambuf, socket`response
      ensures State() == Fire(inflate, old(State()))
    {
      var reply := wait.reply;
      var blocked := socket.Read(wait.length);
      assert !blocked;
      assert socket.streambuf == old(socket.streambuf)[wait.length..];
      var body := socket.SwapResponse(reply.body);
      ProcessReply(reply.(body := body));
    }

    method StartProcessChunk()
      requires wait.OnChunkSize? && Matched(State())
      modifies this, socket`streambuf, socket`response
      ensures State() == Fire(inflate, old(State()))
    {
      var blocked := socket.ReadUntil(CRLF);
      assert !blocked;
      var chunkSizeString := socket.SwapResponse("");
      var parsed := Stoul(chunkSizeString, 16);
      if parsed.None? || parsed.value.1 != |chunkSizeString| {
        CallHandler(ProtocolError(wait.reply));
        return;
      }
      wait := OnChunkData(wait.reply, parsed.value.0);
    }

    method ProcessChunk()
      requires wait.OnChunkData? && Matched(State())
      modifies this, socket`streambuf, socket`response
      ensures State() == Fire(inflate, old(State()))
    {
      var reply, chunkSize := wait.reply, wait.size;
      var blocked := socket.Read(ChunkSpan(chunkSize));
      assert !blocked;
      assert socket.streambuf == old(socket.streambuf)[ChunkSpan(chunkSize)..];
      reply := reply.(body := reply.body + Prefix(socket.response, chunkSize));
      if chunkSize == 0 {
        ProcessReply(reply);
      } else {
        wait := OnChunkSize(reply);
      }
    }

    /** An attempt from the front fires exactly when the step function does. */
    method NextAttempt() returns (met: bool)
      requires socket.position == 0
      modifies socket`position
      ensures met == Matched(State()) && socket.position == 0
    {
      FiresIffMatched(State());
      assert socket.streambuf[0..] == socket.streambuf;
      met := socket.Attempt(wait);
    }

    /** Bytes arrive: attempts and callbacks alternate until the armed read has to wait for more. No synchronous read
    inside a callback ever blocks. */
    method Feed(segment: string)
      requires socket.position == 0
      modifies this, socket
      ensures State() == Pump(inflate, Arrive(old(State()), segment)) && socket.position == 0
      ensures Scan(State(), socket.position) == PumpScan(FromBegin, inflate, Scan(Arrive(old(State()), segment), 0))
    {
      PositionStays(inflate, Arrive(State(), segment));
      socket.streambuf := socket.streambuf + segment;
      var met := NextAttempt();
      while met
        invariant socket.position == 0 && met == Matched(State())
        invariant Pump(inflate, State()) == Pump(inflate, Arrive(old(State()), segment))
        decreases |socket.streambuf|, Rank(wait), met
      {
        FireDecreases(inflate, State());
        PumpStep(inflate, State());
        match wait {
          case OnHeaders => HandleHeaders();
          case OnBody(_, _) => HandleBody();
          case OnChunkSize(_) => StartProcessChunk();
          case OnChunkData(_, _) => ProcessChunk();
        }
        met := NextAttempt();
      }
      PumpStep(inflate, State());
    }
  }
}
