/** HTTP messages as net/client.cpp reads them: header lines, the header block, body framing, and a
one-shot parser of a whole byte stream. */
module Http {
  import opened Wrappers
  import opened Text
  import opened Numbers

  const CRLF := "\r\n"
  const BLANK_LINE := "\r\n\r\n"

  /** `_parsedHeaders` is ordered by `strcasecmp`, so it is a map on names cut at a NUL and lowercased. */
  datatype HttpReply = HttpReply(status: int, headers: string, body: string, verb: string, resource: string,
                                 parsed: map<string, string>)

  const EMPTY_REPLY := HttpReply(0, "", "", "", "", map[])

  function ToLower(c: char): char {
    if 'A' <= c <= 'Z' then (c as int + 32) as char else c
  }

  function Lowercased(s: string): string {
    seq(|s|, i requires 0 <= i < |s| => ToLower(s[i]))
  }

  /** The C string that `s.c_str()` denotes. */
  function CStr(s: string): string {
    if |s| == 0 || s[0] == '\0' then "" else [s[0]] + CStr(s[1..])
  }

  function HeaderKey(name: string): string {
    Lowercased(CStr(name))
  }

  predicate HasHeader(reply: HttpReply, name: string) {
    HeaderKey(name) in reply.parsed
  }

  function GetHeader(reply: HttpReply, name: string): string {
    if HasHeader(reply, name) then reply.parsed[HeaderKey(name)] else ""
  }

  predicate StartsWith(s: string, prefix: string) {
    prefix <= s
  }

  // ---------------------------------------------------------------- the header block

  /** Name and value of a header line; None when there is no colon behind a name. */
  function HeaderLine(line: string): Option<(string, string)> {
    match Find(line, ":", 0)
    case None => None
    case Some(pos) =>
      if pos == 0 then None
      else if pos == |line| - 1 then Some((line[..pos], ""))
      else Some((line[..pos], line[SkipSpaces(line, pos + 1)..]))
  }

  function AddHeader(parsed: map<string, string>, line: string): map<string, string> {
    match HeaderLine(line)
    case None => parsed
    case Some((key, value)) => parsed[HeaderKey(key) := value]
  }

  /** Later lines win. */
  function HeaderMap(lines: seq<string>): map<string, string> {
    if |lines| == 0 then map[] else AddHeader(HeaderMap(lines[..|lines| - 1]), lines[|lines| - 1])
  }

  /** What a header block says about the message: malformed, complete, or how its body is framed. */
  datatype Head =
    | BadHead(reply: HttpReply)
    | NoBody(reply: HttpReply)
    | Sized(reply: HttpReply, length: nat)
    | Chunked(reply: HttpReply)

  function StartLine(reply: HttpReply, params: seq<string>): Option<HttpReply>
    requires |params| >= 2
  {
    var lc := Lowercased(params[0]);
    if StartsWith(lc, "http/") then
      match Stoi(params[1])
      case None => None
      case Some(status) => Some(reply.(status := status))
    else Some(reply.(verb := lc, resource := params[1]))
  }

  function BodyKind(reply: HttpReply): Head {
    if HasHeader(reply, "Content-Length") then
      match Stoul(GetHeader(reply, "Content-Length"), 10)
      case None => BadHead(reply)
      case Some((length, _)) => Sized(reply, length)
    else if GetHeader(reply, "Transfer-Encoding") == "chunked" then Chunked(reply)
    else NoBody(reply)
  }

  function HeadOfLines(reply: HttpReply, lines: seq<string>): Head
    requires |lines| >= 1
  {
    if lines[0] == "" then BadHead(reply) else
    var params := Parts(lines[0], " ", -1);
    if |params| < 2 then BadHead(reply) else
    match StartLine(reply, params)
    case None => BadHead(reply)
    case Some(started) => BodyKind(started.(parsed := HeaderMap(lines[1..])))
  }

  function ParseHead(headers: string): Head {
    HeadOfLines(EMPTY_REPLY.(headers := headers), Parts(headers, CRLF, -1))
  }

  // ---------------------------------------------------------------- bodies

  /** The whole line must be the hexadecimal size. */
  function ChunkSize(line: string): Option<nat> {
    match Stoul(line, 16)
    case None => None
    case Some((size, used)) => if used == |line| then Some(size) else None
  }

  /** `chunk_size + 2` in `size_t`. */
  function ChunkSpan(size: nat): nat {
    (size + 2) % U64
  }

  function Prefix(s: string, n: nat): string {
    if n <= |s| then s[..n] else s
  }

  /** zlib, which the model does not look into. */
  type Inflate = string -> Option<string>

  datatype Event = Reply(reply: HttpReply) | ProtocolError(reply: HttpReply)

  predicate Zipped(reply: HttpReply) {
    HasHeader(reply, "Content-Encoding") && Find(GetHeader(reply, "Content-Encoding"), "gzip", 0).Some?
  }

  /** `processReply`: what the handler is called with once the body is complete. */
  function Finish(inflate: Inflate, reply: HttpReply): Event {
    if Zipped(reply) && reply.body != "" then
      match inflate(reply.body)
      case None => ProtocolError(reply)
      case Some(body) => Reply(reply.(body := body))
    else Reply(reply)
  }

  // ---------------------------------------------------------------- one-shot parsing

  datatype Parsed = Incomplete | Complete(event: Event, rest: string)

  /** Reads chunks off the front of `s`, which is at a size line, until the one of size 0. */
  function ParseChunks(inflate: Inflate, reply: HttpReply, s: string): Parsed
    decreases |s|, 1
  {
    match Find(s, CRLF, 0)
    case None => Incomplete
    case Some(i) =>
      match ChunkSize(s[..i])
      case None => Complete(ProtocolError(reply), s[i + 2..])
      case Some(size) => ParseChunkData(inflate, reply, size, s[i + 2..])
  }

  function ParseChunkData(inflate: Inflate, reply: HttpReply, size: nat, data: string): Parsed
    decreases |data|, 2
  {
    var span := ChunkSpan(size);
    if |data| < span then Incomplete else
    var longer := reply.(body := reply.body + Prefix(data[..span], size));
    if size == 0 then Complete(Finish(inflate, longer), data[span..])
    else ParseChunks(inflate, longer, data[span..])
  }

  function ParseBody(inflate: Inflate, head: Head, s: string): Parsed {
    match head
    case BadHead(reply) => Complete(ProtocolError(reply), s)
    case NoBody(reply) => Complete(Reply(reply), s)
    case Sized(reply, length) =>
      if |s| < length then Incomplete
      else Complete(Finish(inflate, reply.(body := s[..length])), s[length..])
    case Chunked(reply) => ParseChunks(inflate, reply, s)
  }

  /** The first message of `s`, and the text behind it. */
  function ParseMessage(inflate: Inflate, s: string): Parsed {
    match Find(s, BLANK_LINE, 0)
    case None => Incomplete
    case Some(i) => ParseBody(inflate, ParseHead(s[..i]), s[i + 4..])
  }

  lemma {:induction false} ChunksConsume(inflate: Inflate, reply: HttpReply, s: string)
    ensures var p := ParseChunks(inflate, reply, s); p.Complete? ==> |p.rest| < |s|
    decreases |s|, 1
  {
    hide Finish;
    var found := Find(s, CRLF, 0);
    if found.Some? && ChunkSize(s[..found.value]).Some? {
      ChunkDataConsumes(inflate, reply, ChunkSize(s[..found.value]).value, s[found.value + 2..]);
    }
  }

  lemma {:induction false} ChunkDataConsumes(inflate: Inflate, reply: HttpReply, size: nat, data: string)
    ensures var p := ParseChunkData(inflate, reply, size, data); p.Complete? ==> |p.rest| <= |data|
    decreases |data|, 2
  {
    hide Finish, ParseChunks;
    var span := ChunkSpan(size);
    if |data| >= span && size != 0 {
      ChunksConsume(inflate, reply.(body := reply.body + Prefix(data[..span], size)), data[span..]);
    }
  }

  lemma BodyConsumes(inflate: Inflate, head: Head, s: string)
    ensures var p := ParseBody(inflate, head, s); p.Complete? ==> |p.rest| <= |s|
  {
    if head.Chunked? {
      ChunksConsume(inflate, head.reply, s);
    }
  }

  lemma MessageConsumes(inflate: Inflate, s: string)
    ensures var p := ParseMessage(inflate, s); p.Complete? ==> |p.rest| < |s|
  {
    hide ParseBody, ParseHead;
    var found := Find(s, BLANK_LINE, 0);
    if found.Some? {
      BodyConsumes(inflate, ParseHead(s[..found.value]), s[found.value + 4..]);
    }
  }

  /** All messages of a stream up to the first malformed or incomplete one, and the text from there on. */
  datatype Stream = Stream(events: seq<Event>, rest: string)

  function ParseStream(inflate: Inflate, s: string): Stream
    decreases |s|
  {
    MessageConsumes(inflate, s);
    match ParseMessage(inflate, s)
    case Incomplete => Stream([], s)
    case Complete(e, rest) =>
      if e.ProtocolError? then Stream([e], rest)
      else var more := ParseStream(inflate, rest); Stream([e] + more.events, more.rest)
  }
}
