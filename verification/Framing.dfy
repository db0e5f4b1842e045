/** HTTP messages as they are written down, and what the reader of net/client.cpp makes of every stream of them: start
lines, header lines in any case and order, sized bodies, chunked bodies and zipped ones. */
module Framing {
  import opened Wrappers
  import opened Text
  import opened Numbers
  import opened Http
  import opened HttpReader
  import opened ArmedRead
  import opened HttpMessages
  import opened Chunked

  // ---------------------------------------------------------------- names in any case

  predicate SameLetter(x: char, y: char) {
    || x == y
    || ('A' <= x <= 'Z' && y as int == x as int + 32)
    || ('A' <= y <= 'Z' && x as int == y as int + 32)
  }

  function FirstChar(s: string): char {
    if s == "" then '\0' else s[0]
  }

  /** `strcasecmp` finds no difference: it compares the two texts letter by letter up to the first NUL. */
  predicate SameName(a: string, b: string)
    decreases |a|
  {
    && SameLetter(FirstChar(a), FirstChar(b))
    && (FirstChar(a) != '\0' ==> b != "" && SameName(a[1..], b[1..]))
  }

  lemma LettersFold(x: char, y: char)
    ensures SameLetter(x, y) <==> ToLower(x) == ToLower(y)
  {
  }

  lemma KeyStep(s: string)
    ensures HeaderKey(s) == if FirstChar(s) == '\0' then "" else [ToLower(s[0])] + HeaderKey(s[1..])
  {
  }

  /** The keys of two header names are equal exactly when `strcasecmp` finds no difference. */
  lemma {:induction false} KeysAgree(a: string, b: string)
    ensures HeaderKey(a) == HeaderKey(b) <==> SameName(a, b)
    decreases |a|
  {
    hide HeaderKey, ToLower;
    KeyStep(a);
    KeyStep(b);
    LettersFold(FirstChar(a), FirstChar(b));
    NulIsAlone();
    if FirstChar(a) != '\0' && FirstChar(b) != '\0' {
      KeysAgree(a[1..], b[1..]);
      assert HeaderKey(a) == HeaderKey(b) <==>
        ToLower(a[0]) == ToLower(b[0]) && HeaderKey(a[1..]) == HeaderKey(b[1..]) by {
        assert HeaderKey(a)[1..] == HeaderKey(a[1..]) && HeaderKey(b)[1..] == HeaderKey(b[1..]);
      }
    }
  }

  lemma NulIsAlone()
    ensures forall x :: SameLetter('\0', x) ==> x == '\0'
    ensures forall x :: SameLetter(x, '\0') ==> x == '\0'
  {
  }

  // ---------------------------------------------------------------- header lines

  /** A header line: a field, with any spaces behind the colon, or a line without a name, which the reader skips. */
  datatype Line = Field(name: string, gap: string, value: string) | Junk(text: string)

  function LineText(l: Line): string {
    match l
    case Field(name, gap, value) => name + ":" + gap + value
    case Junk(text) => text
  }

  predicate GoodLine(l: Line) {
    match l
    case Field(name, gap, value) =>
      && name != "" && NoCR(name) && NoCR(gap) && NoCR(value) && AllSpaces(gap)
      && (forall i :: 0 <= i < |name| ==> name[i] != ':') && (value != "" ==> !IsSpace(value[0]))
    case Junk(text) =>
      text != "" && NoCR(text) && (text[0] == ':' || forall i :: 0 <= i < |text| ==> text[i] != ':')
  }

  function Texts(lines: seq<Line>): (r: seq<string>)
    ensures |r| == |lines|
  {
    seq(|lines|, i requires 0 <= i < |lines| => LineText(lines[i]))
  }

  predicate GoodLines(lines: seq<Line>) {
    forall i :: 0 <= i < |lines| ==> GoodLine(lines[i])
  }

  /** The value of the last field of that name. */
  function LastValue(lines: seq<Line>, name: string): Option<string> {
    if lines == [] then None
    else
      var last := lines[|lines| - 1];
      if last.Field? && SameName(last.name, name) then Some(last.value) else LastValue(lines[..|lines| - 1], name)
  }

  function ValueOrNothing(lines: seq<Line>, name: string): string {
    match LastValue(lines, name) case Some(value) => value case None => ""
  }

  lemma FieldIsRead(l: Line)
    requires GoodLine(l)
    ensures HeaderLine(LineText(l)) == (if l.Field? then Some((l.name, l.value)) else None)
  {
    hide Find;
    match l {
      case Field(name, gap, value) =>
        var line := LineText(l);
        NoDelimiterInside(name, ":");
        NoBorders();
        FindAfterPart(name, ":", gap + value);
        assert line == name + ":" + (gap + value);
        var p, e := |name|, |name| + 1 + |gap|;
        forall k | p + 1 <= k < e ensures IsSpace(line[k]) { assert line[k] == gap[k - p - 1]; }
        assert e < |line| ==> line[e] == value[0];
        SkipsGap(line, p + 1, e);
        assert line[..p] == name && line[e..] == value;
      case Junk(text) =>
        JunkIsSkipped(text);
    }
  }

  lemma JunkIsSkipped(text: string)
    requires text != "" && (text[0] == ':' || forall i :: 0 <= i < |text| ==> text[i] != ':')
    ensures HeaderLine(text) == None
  {
    FindFirst(text, ":", 0);
    if text[0] == ':' {
      assert At(text, ":", 0);
    } else {
      NoDelimiterInside(text, ":");
    }
  }

  /** The reader's header table has for each name the value of the last field of that name. */
  lemma {:induction false} FieldsAreRead(lines: seq<Line>, name: string)
    requires GoodLines(lines)
    ensures var m := HeaderMap(Texts(lines));
      && (HeaderKey(name) in m <==> LastValue(lines, name).Some?)
      && (HeaderKey(name) in m ==> m[HeaderKey(name)] == LastValue(lines, name).value)
  {
    hide HeaderKey, HeaderLine, SameName;
    if lines != [] {
      var init, last := lines[..|lines| - 1], lines[|lines| - 1];
      FieldsAreRead(init, name);
      FieldIsRead(last);
      assert Texts(lines)[..|lines| - 1] == Texts(init) && Texts(lines)[|lines| - 1] == LineText(last);
      if last.Field? { KeysAgree(last.name, name); }
    }
  }

  // ---------------------------------------------------------------- start lines

  /** A status line or a request line; `rest` is what follows the second word. */
  datatype Start =
    | Status(scheme: string, digits: string, rest: string)
    | Request(verb: string, resource: string, rest: string)

  function StartText(start: Start): string {
    match start
    case Status(scheme, digits, rest) => scheme + " " + digits + " " + rest
    case Request(verb, resource, rest) => verb + " " + resource + " " + rest
  }

  predicate Word(s: string) {
    forall i :: 0 <= i < |s| ==> s[i] != ' ' && s[i] != '\r'
  }

  /** Begins with "http/" in any case. */
  predicate IsHttp(s: string) {
    |s| >= 5 && forall i :: 0 <= i < 5 ==> SameLetter(s[i], "http/"[i])
  }

  predicate GoodStart(start: Start) {
    match start
    case Status(scheme, digits, rest) =>
      && Word(scheme) && IsHttp(scheme) && NoCR(rest)
      && digits != "" && AllDigits(digits, 10) && Value(digits, 10) <= 0x7FFF_FFFF
    case Request(verb, resource, rest) => Word(verb) && !IsHttp(verb) && Word(resource) && NoCR(rest)
  }

  /** `b` is `a` in lower case. */
  predicate LowerCaseOf(b: string, a: string) {
    |b| == |a| && forall i :: 0 <= i < |a| ==> SameLetter(a[i], b[i]) && !('A' <= b[i] <= 'Z')
  }

  predicate Started(start: Start, reply: HttpReply) {
    match start
    case Status(_, digits, _) => reply.status == Value(digits, 10) && reply.verb == "" && reply.resource == ""
    case Request(verb, resource, _) =>
      reply.status == 0 && LowerCaseOf(reply.verb, verb) && reply.resource == resource
  }

  lemma LowercasedIs(s: string)
    ensures LowerCaseOf(Lowercased(s), s)
  {
  }

  lemma HttpIs(s: string)
    ensures StartsWith(Lowercased(s), "http/") <==> IsHttp(s)
  {
    var l := Lowercased(s);
    if |s| >= 5 {
      forall i | 0 <= i < 5 ensures l[i] == "http/"[i] <==> SameLetter(s[i], "http/"[i]) {
        LettersFold(s[i], "http/"[i]);
      }
      assert "http/" <= l <==> forall i :: 0 <= i < 5 ==> l[i] == "http/"[i];
    }
  }

  lemma StartIsRead(start: Start, block: string)
    requires GoodStart(start)
    ensures var p := Parts(StartText(start), " ", -1);
      && |p| >= 2 && StartLine(EMPTY_REPLY.(headers := block), p).Some?
      && (var reply := StartLine(EMPTY_REPLY.(headers := block), p).value;
          Started(start, reply) && reply == EMPTY_REPLY.(headers := block, status := reply.status, verb := reply.verb,
                                                         resource := reply.resource))
  {
    hide Parts, Stoi, Lowercased, LowerCaseOf;
    match start {
      case Status(scheme, digits, rest) =>
        DigitsAreNoSpaces(digits);
        FirstTwoWords(scheme, digits, rest);
        HttpIs(scheme);
        assert "" + "" + digits + "" == digits;
        StoiReads("", "", digits, "");
      case Request(verb, resource, rest) =>
        FirstTwoWords(verb, resource, rest);
        HttpIs(verb);
        LowercasedIs(verb);
    }
  }

  lemma DigitsAreNoSpaces(digits: string)
    requires AllDigits(digits, 10)
    ensures forall i :: 0 <= i < |digits| ==> digits[i] != ' ' && digits[i] != '\r'
  {
    forall i | 0 <= i < |digits| ensures digits[i] != ' ' && digits[i] != '\r' { assert DigitValue(digits[i]) < 10; }
  }

  lemma StartIsPlain(start: Start)
    requires GoodStart(start)
    ensures StartText(start) != "" && NoCR(StartText(start))
  {
    if start.Status? { DigitsAreNoSpaces(start.digits); }
  }

  // ---------------------------------------------------------------- messages

  /** How the body is written: in one piece, in chunks, or not at all. */
  datatype Body = Whole(text: string) | Chunks(chunks: seq<Chunk>, lastLine: string) | Empty

  datatype Message = Message(start: Start, lines: seq<Line>, body: Body)

  /** What the body says. */
  function Payload(body: Body): string {
    match body
    case Whole(text) => text
    case Chunks(chunks, _) => Data(chunks)
    case Empty => ""
  }

  function BodyText(body: Body): string {
    match body
    case Whole(text) => text
    case Chunks(chunks, lastLine) => Encoded(chunks, lastLine)
    case Empty => ""
  }

  /** The header lines announce the body: its length in decimal, or else the chunked coding, or else nothing. */
  ghost predicate Announced(lines: seq<Line>, body: Body) {
    var length, coding := LastValue(lines, "Content-Length"), LastValue(lines, "Transfer-Encoding");
    match body
    case Whole(text) =>
      && length.Some? && length.value != "" && AllDigits(length.value, 10)
      && Value(length.value, 10) == |text| < U64
    case Chunks(chunks, lastLine) =>
      && length.None? && coding == Some("chunked")
      && (forall i :: 0 <= i < |chunks| ==> ValidChunk(chunks[i])) && SpellsSize(lastLine, 0)
    case Empty => length.None? && coding != Some("chunked")
  }

  function BlockLines(m: Message): seq<string> {
    [StartText(m.start)] + Texts(m.lines)
  }

  function MessageText(m: Message): string {
    Joined(BlockLines(m), CRLF) + BLANK_LINE + BodyText(m.body)
  }

  ghost predicate WellFormed(m: Message) {
    GoodStart(m.start) && GoodLines(m.lines) && Announced(m.lines, m.body)
  }

  /** The body has a content coding with "gzip" in its name, and is not empty. */
  ghost predicate IsZipped(m: Message) {
    var coding := LastValue(m.lines, "Content-Encoding");
    coding.Some? && Contains(coding.value, "gzip") && Payload(m.body) != ""
  }

  /** Each header has the value of its last line; one that is not there is empty. */
  ghost predicate HeadersAre(reply: HttpReply, lines: seq<Line>) {
    && (forall name :: HasHeader(reply, name) <==> LastValue(lines, name).Some?)
    && (forall name :: GetHeader(reply, name) == ValueOrNothing(lines, name))
  }

  /** What the handler must be called with: a reply with the start line, every header and the body, inflated if it is
  zipped, or an error if that fails. */
  ghost predicate Reads(inflate: Inflate, m: Message, e: Event) {
    && Started(m.start, e.reply)
    && HeadersAre(e.reply, m.lines)
    && if IsZipped(m) then
        match inflate(Payload(m.body))
        case None => e.ProtocolError?
        case Some(text) => e.Reply? && e.reply.body == text
      else e.Reply? && e.reply.body == Payload(m.body)
  }

  // ---------------------------------------------------------------- one message

  lemma LinesArePlain(m: Message)
    requires GoodStart(m.start) && GoodLines(m.lines)
    ensures PlainLines(BlockLines(m)) && BlockLines(m)[0] == StartText(m.start) && BlockLines(m)[1..] == Texts(m.lines)
  {
    StartIsPlain(m.start);
    forall i | 0 <= i < |m.lines| ensures LineText(m.lines[i]) != "" && NoCR(LineText(m.lines[i])) {
      assert GoodLine(m.lines[i]);
    }
    hide StartText, GoodStart;
  }

  /** The reply as it is when the header block has been read. */
  function BlockReply(m: Message, block: string): HttpReply
    requires GoodStart(m.start)
  {
    StartIsRead(m.start, block);
    StartLine(EMPTY_REPLY.(headers := block), Parts(StartText(m.start), " ", -1)).value
      .(parsed := HeaderMap(Texts(m.lines)))
  }

  lemma BlockReplyIs(m: Message, block: string)
    requires GoodStart(m.start) && GoodLines(m.lines)
    ensures var reply := BlockReply(m, block);
      && Started(m.start, reply) && reply.body == ""
      && HeadersAre(reply, m.lines)
  {
    StartIsRead(m.start, block);
    hide StartLine, Parts, Started, HeaderMap, HeaderKey, LastValue, GoodStart, StartText;
    forall name
      ensures HeaderKey(name) in HeaderMap(Texts(m.lines)) <==> LastValue(m.lines, name).Some?
      ensures HeaderKey(name) in HeaderMap(Texts(m.lines)) ==>
        HeaderMap(Texts(m.lines))[HeaderKey(name)] == LastValue(m.lines, name).value
    {
      FieldsAreRead(m.lines, name);
    }
  }

  lemma HeadIsRead(inflate: Inflate, m: Message, tail: string)
    requires GoodStart(m.start) && GoodLines(m.lines)
    ensures ParseMessage(inflate, MessageText(m) + tail)
      == ParseBody(inflate, BodyKind(BlockReply(m, Joined(BlockLines(m), CRLF))), BodyText(m.body) + tail)
  {
    var block := Joined(BlockLines(m), CRLF);
    LinesArePlain(m);
    StartIsRead(m.start, block);
    StartIsPlain(m.start);
    hide ParseMessage, ParseBody, BodyKind, StartLine, Parts, HeaderMap, Joined, StartText, GoodStart, Started;
    hide BodyText, BlockLines;
    BlockIsRead(inflate, BlockLines(m), BodyText(m.body) + tail);
    assert block + BLANK_LINE + BodyText(m.body) + tail == block + BLANK_LINE + (BodyText(m.body) + tail);
  }

  lemma WholeIsRead(inflate: Inflate, reply: HttpReply, text: string, tail: string)
    requires HasHeader(reply, "Content-Length")
    requires var length := GetHeader(reply, "Content-Length");
      length != "" && AllDigits(length, 10) && Value(length, 10) == |text| < U64
    ensures ParseBody(inflate, BodyKind(reply), text + tail) == Complete(Finish(inflate, reply.(body := text)), tail)
  {
    hide Stoul, HasHeader, Finish, Value, AllDigits;
    StoulOfDigits(GetHeader(reply, "Content-Length"), 10);
    assert (text + tail)[..|text|] == text && (text + tail)[|text|..] == tail;
  }

  lemma ChunksAreRead(inflate: Inflate, reply: HttpReply, chunks: seq<Chunk>, lastLine: string, tail: string)
    requires !HasHeader(reply, "Content-Length") && GetHeader(reply, "Transfer-Encoding") == "chunked"
    requires (forall i :: 0 <= i < |chunks| ==> ValidChunk(chunks[i])) && SpellsSize(lastLine, 0) && reply.body == ""
    ensures ParseBody(inflate, BodyKind(reply), Encoded(chunks, lastLine) + tail)
      == Complete(Finish(inflate, reply.(body := Data(chunks))), tail)
  {
    KindIsChunked(reply);
    hide *;
    DecodingInvertsEncoding(inflate, reply, chunks, lastLine, tail);
    NothingBefore(reply.body, Data(chunks));
    ParseChunkedBody(inflate, reply, Encoded(chunks, lastLine) + tail);
  }

  lemma NothingBefore(a: string, b: string)
    requires a == ""
    ensures a + b == b
  {
  }

  lemma ParseChunkedBody(inflate: Inflate, reply: HttpReply, s: string)
    ensures ParseBody(inflate, Head.Chunked(reply), s) == ParseChunks(inflate, reply, s)
  {
  }

  lemma KindIsChunked(reply: HttpReply)
    requires !HasHeader(reply, "Content-Length") && GetHeader(reply, "Transfer-Encoding") == "chunked"
    ensures BodyKind(reply) == Head.Chunked(reply)
  {
    hide HasHeader, GetHeader;
  }

  lemma NoBodyIsRead(inflate: Inflate, reply: HttpReply, tail: string)
    requires !HasHeader(reply, "Content-Length") && GetHeader(reply, "Transfer-Encoding") != "chunked"
    requires reply.body == ""
    ensures ParseBody(inflate, BodyKind(reply), "" + tail) == Complete(Finish(inflate, reply), tail)
  {
    hide HasHeader, GetHeader;
    assert "" + tail == tail;
  }

  lemma BodyIsRead(inflate: Inflate, m: Message, reply: HttpReply, tail: string)
    requires Announced(m.lines, m.body) && reply.body == ""
    requires HeadersAre(reply, m.lines)
    ensures ParseBody(inflate, BodyKind(reply), BodyText(m.body) + tail)
      == Complete(Finish(inflate, reply.(body := Payload(m.body))), tail)
  {
    hide HasHeader, GetHeader, LastValue, BodyKind, ParseBody, Finish, Encoded, Data, ValidChunk, SpellsSize, Value;
    hide AllDigits;
    match m.body {
      case Whole(text) => WholeIsRead(inflate, reply, text, tail);
      case Chunks(chunks, lastLine) => ChunksAreRead(inflate, reply, chunks, lastLine, tail);
      case Empty => NoBodyIsRead(inflate, reply, tail);
    }
  }

  lemma FoundIff(s: string, d: string)
    ensures Find(s, d, 0).Some? <==> Contains(s, d)
  {
    FindFirst(s, d, 0);
    hide Find;
  }

  lemma CodingIs(reply: HttpReply, lines: seq<Line>, name: string)
    requires HeadersAre(reply, lines)
    ensures HasHeader(reply, name) <==> LastValue(lines, name).Some?
    ensures HasHeader(reply, name) ==> GetHeader(reply, name) == LastValue(lines, name).value
  {
    hide HasHeader, GetHeader, LastValue;
  }

  lemma ZippedIff(m: Message, reply: HttpReply)
    requires HeadersAre(reply, m.lines) && reply.body == Payload(m.body)
    ensures Zipped(reply) && reply.body != "" <==> IsZipped(m)
  {
    CodingIs(reply, m.lines, "Content-Encoding");
    FoundIff(GetHeader(reply, "Content-Encoding"), "gzip");
    hide LastValue, Find, HasHeader, GetHeader, Payload, Contains, HeadersAre;
  }

  lemma FinishIsRight(inflate: Inflate, m: Message, reply: HttpReply)
    requires Started(m.start, reply) && reply.body == Payload(m.body)
    requires HeadersAre(reply, m.lines)
    ensures Reads(inflate, m, Finish(inflate, reply))
  {
    ZippedIff(m, reply);
    if inflate(reply.body).Some? { HeadersKeep(reply, inflate(reply.body).value, m); }
    hide HeadersAre, Started, Zipped, IsZipped, Payload;
  }

  /** Every well-formed message is read back, and exactly what follows it is left. */
  lemma MessageIsRead(inflate: Inflate, m: Message, tail: string)
    requires WellFormed(m)
    ensures var p := ParseMessage(inflate, MessageText(m) + tail);
      p.Complete? && p.rest == tail && Reads(inflate, m, p.event)
  {
    var block := Joined(BlockLines(m), CRLF);
    HeadIsRead(inflate, m, tail);
    BlockReplyIs(m, block);
    var reply := BlockReply(m, block);
    hide GoodStart, GoodLines, Announced, BlockReply, BodyKind, ParseBody, ParseMessage, MessageText, BodyText, Joined;
    hide Started, HasHeader, GetHeader, LastValue, Finish, Payload, Reads;
    BodyIsRead(inflate, m, reply, tail);
    HeadersKeep(reply, Payload(m.body), m);
    FinishIsRight(inflate, m, reply.(body := Payload(m.body)));
  }

  lemma HeadersKeep(reply: HttpReply, body: string, m: Message)
    ensures Started(m.start, reply) <==> Started(m.start, reply.(body := body))
    ensures HeadersAre(reply.(body := body), m.lines) <==> HeadersAre(reply, m.lines)
  {
  }

  // ---------------------------------------------------------------- a stream of messages

  function StreamText(ms: seq<Message>): string {
    if ms == [] then "" else MessageText(ms[0]) + StreamText(ms[1..])
  }

  ghost predicate AllWellFormed(ms: seq<Message>) {
    forall i :: 0 <= i < |ms| ==> WellFormed(ms[i])
  }

  /** The body cannot be inflated. */
  ghost predicate Spoilt(inflate: Inflate, m: Message) {
    IsZipped(m) && inflate(Payload(m.body)).None?
  }

  /** The first `n` messages can be handed on, and the next one, if there is one, cannot. */
  ghost predicate SoundUpTo(inflate: Inflate, ms: seq<Message>, n: nat) {
    && n <= |ms| && (forall i :: 0 <= i < n ==> !Spoilt(inflate, ms[i])) && (n < |ms| ==> Spoilt(inflate, ms[n]))
  }

  /** The calls of the handler are right for the messages, up to the first spoilt one, which closes the connection. */
  ghost predicate AllRead(inflate: Inflate, ms: seq<Message>, n: nat, events: seq<Event>) {
    && |events| == (if n < |ms| then n + 1 else n) <= |ms|
    && (forall i :: 0 <= i < |events| ==> Reads(inflate, ms[i], events[i]))
  }

  lemma SpoiltIsError(inflate: Inflate, m: Message, e: Event)
    requires Reads(inflate, m, e)
    ensures e.ProtocolError? <==> Spoilt(inflate, m)
  {
    hide IsZipped, HeadersAre, Started, Payload;
  }

  lemma OneMoreRead(inflate: Inflate, ms: seq<Message>, n: nat, e: Event, more: seq<Event>)
    requires ms != [] && n > 0 && Reads(inflate, ms[0], e) && AllRead(inflate, ms[1..], n - 1, more)
    ensures AllRead(inflate, ms, n, [e] + more)
  {
    hide Reads;
    forall i | 0 <= i < |more| + 1 ensures Reads(inflate, ms[i], ([e] + more)[i]) {
      if i > 0 { assert ms[i] == ms[1..][i - 1]; }
    }
  }

  lemma {:induction false} StreamIsParsed(inflate: Inflate, ms: seq<Message>, n: nat)
    requires AllWellFormed(ms) && SoundUpTo(inflate, ms, n)
    ensures var p := ParseStream(inflate, StreamText(ms));
      && AllRead(inflate, ms, n, p.events)
      && (n < |ms| <==> p.events != [] && p.events[|p.events| - 1].ProtocolError?)
      && p.rest == (if n < |ms| then StreamText(ms[n + 1..]) else "")
    decreases |ms|
  {
    hide ParseMessage, MessageText, WellFormed, Reads, Spoilt;
    if ms == [] {
      NothingInEmpty(inflate);
    } else {
      var tail := StreamText(ms[1..]);
      MessageIsRead(inflate, ms[0], tail);
      var e := ParseMessage(inflate, MessageText(ms[0]) + tail).event;
      SpoiltIsError(inflate, ms[0], e);
      if n > 0 {
        StreamIsParsed(inflate, ms[1..], n - 1);
        OneMoreRead(inflate, ms, n, e, ParseStream(inflate, tail).events);
        assert n < |ms| ==> ms[1..][n..] == ms[n + 1..];
      }
    }
  }

  /** For every stream of well-formed messages and every way of cutting it into segments, also inside a delimiter, a
  size line or a chunk: the handler is called once for each message, in order, with its start line, its headers and
  its body, and nothing is left; a body that cannot be inflated ends this with an error, and what follows is left. */
  lemma StreamIsRead(inflate: Inflate, ms: seq<Message>, n: nat, segments: seq<string>)
    requires AllWellFormed(ms) && SoundUpTo(inflate, ms, n) && Concat(segments) == StreamText(ms)
    ensures var r := FeedScan(FromBegin, inflate, START_SCAN, segments).wire;
      && AllRead(inflate, ms, n, r.events)
      && r.wait == (if n < |ms| then Closed else OnHeaders)
      && r.buffer == (if n < |ms| then StreamText(ms[n + 1..]) else "")
  {
    hide FeedScan, PumpScan, ParseStream, StreamText, AllRead, AllWellFormed, SoundUpTo, Concat, Reads, SameAs;
    var r, p := FeedScan(FromBegin, inflate, START_SCAN, segments).wire, ParseStream(inflate, StreamText(ms));
    StreamIsParsed(inflate, ms, n);
    ArmedRead.SegmentationIndependence(inflate, segments);
    RestsBehind(r, p);
    SoundRange(inflate, ms, n);
  }

  lemma SoundRange(inflate: Inflate, ms: seq<Message>, n: nat)
    requires SoundUpTo(inflate, ms, n)
    ensures n <= |ms|
  {
  }

  lemma RestsBehind(r: Wire, p: Stream)
    requires SameAs(r, p, [])
    ensures r.events == p.events
    ensures r.wait.Closed? <==> p.events != [] && p.events[|p.events| - 1].ProtocolError?
    ensures r.wait.Closed? ==> r.buffer == p.rest
    ensures !r.wait.Closed? && p.rest == "" ==> r.wait == OnHeaders && r.buffer == ""
  {
    assert [] + p.events == p.events;
  }

  // ---------------------------------------------------------------- messages that are not well-formed

  /** A first line of one word, or a status that is not a number. */
  ghost predicate BadStart(line: string) {
    && line != "" && NoCR(line)
    && (Word(line)
        || exists scheme, word, rest ::
             line == scheme + " " + word + " " + rest && Word(scheme) && IsHttp(scheme) && Word(word)
             && NoNumber(word, 10))
  }

  lemma OneWord(line: string)
    requires Word(line)
    ensures |Parts(line, " ", -1)| == 1
  {
    FindFirst(line, " ", 0);
    if Find(line, " ", 0).Some? { AtHas(line, " ", Find(line, " ", 0).value, 0); }
  }

  lemma BadStartIsRead(line: string, block: string)
    requires BadStart(line)
    ensures var p := Parts(line, " ", -1); |p| < 2 || StartLine(EMPTY_REPLY.(headers := block), p) == None
  {
    if Word(line) {
      OneWord(line);
    } else {
      var scheme, word, rest :| line == scheme + " " + word + " " + rest && Word(scheme) && IsHttp(scheme)
        && Word(word) && NoNumber(word, 10);
      FirstTwoWords(scheme, word, rest);
      HttpIs(scheme);
      NoNumberIsRead(word, 10);
      hide Parts, Stoi, Lowercased, IsHttp;
    }
  }

  /** A message with a bad first line is reported as a protocol error, and what follows its header block is left. */
  lemma BadStartIsReported(inflate: Inflate, line: string, lines: seq<Line>, tail: string)
    requires BadStart(line) && GoodLines(lines)
    ensures var p := ParseMessage(inflate, Joined([line] + Texts(lines), CRLF) + BLANK_LINE + tail);
      p.Complete? && p.event.ProtocolError? && p.rest == tail
  {
    var all := [line] + Texts(lines);
    assert PlainLines(all) by {
      forall i | 0 <= i < |lines| ensures LineText(lines[i]) != "" && NoCR(LineText(lines[i])) {
        assert GoodLine(lines[i]);
      }
    }
    BadStartIsRead(line, Joined(all, CRLF));
    hide ParseMessage, Joined, Parts, StartLine, BadStart, PlainLines;
    BlockIsRead(inflate, all, tail);
  }

  /** So is one whose length is not a number or does not fit in 64 bits. */
  lemma BadLengthIsReported(inflate: Inflate, start: Start, lines: seq<Line>, tail: string)
    requires GoodStart(start) && GoodLines(lines) && LastValue(lines, "Content-Length").Some?
    requires var v := LastValue(lines, "Content-Length").value;
      NoNumber(v, 10) || (v != "" && AllDigits(v, 10) && Value(v, 10) >= U64)
    ensures var p := ParseMessage(inflate, MessageText(Message(start, lines, Empty)) + tail);
      p.Complete? && p.event.ProtocolError? && p.rest == tail
  {
    var m := Message(start, lines, Empty);
    var block := Joined(BlockLines(m), CRLF);
    HeadIsRead(inflate, m, tail);
    BlockReplyIs(m, block);
    var reply := BlockReply(m, block);
    CodingIs(reply, lines, "Content-Length");
    LengthIsBad(LastValue(lines, "Content-Length").value);
    hide BlockReply, LastValue, HasHeader, GetHeader, Stoul, HeadersAre, Started, ParseMessage, MessageText, BlockLines;
    hide Joined;
    assert "" + tail == tail;
  }

  lemma LengthIsBad(v: string)
    requires NoNumber(v, 10) || (v != "" && AllDigits(v, 10) && Value(v, 10) >= U64)
    ensures Stoul(v, 10) == None
  {
    if NoNumber(v, 10) {
      NoNumberIsRead(v, 10);
    } else {
      assert "" + "" + "" + v + "" == v;
      StoulReads("", "", "", v, "", 10);
    }
  }

  /** A chunk size line without a number, or with more than the number. */
  predicate BadSize(line: string) {
    && NoCR(line)
    && (NoNumber(line, 16)
        || exists k :: 0 < k < |line| && AllDigits(line[..k], 16) && DigitValue(line[k]) >= 16
             && line[k] != 'x' && line[k] != 'X')
  }

  lemma BadSizeIsRead(line: string)
    requires BadSize(line)
    ensures ChunkSize(line) == None
  {
    if NoNumber(line, 16) {
      NoNumberIsRead(line, 16);
    } else {
      var k :| 0 < k < |line| && AllDigits(line[..k], 16) && DigitValue(line[k]) >= 16
        && line[k] != 'x' && line[k] != 'X';
      assert line == "" + "" + "" + line[..k] + line[k..] && line[k..][0] == line[k];
      StoulReads("", "", "", line[..k], line[k..], 16);
    }
    hide Stoul;
  }

  /** And so is a chunked message at the first bad size line, however many good chunks came before it; what follows that
  line is left. */
  lemma BadSizeIsReported(inflate: Inflate, reply: HttpReply, chunks: seq<Chunk>, line: string, tail: string)
    requires (forall i :: 0 <= i < |chunks| ==> ValidChunk(chunks[i])) && BadSize(line)
    ensures var p := ParseChunks(inflate, reply, EncodedFront(chunks) + (line + CRLF + tail));
      p.Complete? && p.event.ProtocolError? && p.rest == tail
  {
    hide ParseChunks, ChunkSize, BadSize;
    FrontIsDecoded(inflate, reply, chunks, line + CRLF + tail);
    BadLineEnds(inflate, reply.(body := reply.body + Data(chunks)), line, tail);
  }

  lemma BadLineEnds(inflate: Inflate, reply: HttpReply, line: string, tail: string)
    requires BadSize(line)
    ensures ParseChunks(inflate, reply, line + CRLF + tail) == Complete(ProtocolError(reply), tail)
  {
    BadSizeIsRead(line);
    NoDelimiterInside(line, CRLF);
    NoBorders();
    FindAfterPart(line, CRLF, tail);
    var s := line + CRLF + tail;
    hide Find, ChunkSize;
    assert s[..|line|] == line && s[|line| + 2..] == tail;
  }
}
