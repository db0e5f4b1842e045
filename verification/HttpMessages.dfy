/** The printers of client/src/apiclient_utils.cpp and server/src/apiclient.cpp, the chunked coding of
RFC 7230 section 4.1, and what the reader makes of their output. */
module HttpMessages {
  import opened Wrappers
  import opened Text
  import opened Numbers
  import opened Http
  import opened HttpReader
  import opened ArmedRead

  // ---------------------------------------------------------------- header blocks made of lines

  predicate NoCR(s: string) {
    forall i :: 0 <= i < |s| ==> s[i] != '\r'
  }

  predicate PlainLines(lines: seq<string>) {
    |lines| >= 1 && forall i :: 0 <= i < |lines| ==> lines[i] != "" && NoCR(lines[i])
  }

  lemma NoDelimiterInside(s: string, d: string)
    requires |d| > 0 && forall i :: 0 <= i < |s| ==> s[i] != d[0]
    ensures !Contains(s, d)
  {
    forall i ensures !At(s, d, i) {
      AtHas(s, d, i, 0);
    }
  }

  lemma NoBorders()
    ensures !HasBorder(CRLF) && !HasBorder(" ") && !HasBorder(":")
  {
    forall k ensures !BorderOf(CRLF, k) {
      if k == 1 { assert CRLF[..1][0] != CRLF[1..][0]; }
    }
  }

  lemma NoBlankLineAt(s: string, i: nat, line: string, rest: string)
    requires s == line + CRLF + rest && NoCR(line) && |rest| > 0 && rest[0] != '\r' && i < |line| + 2
    ensures !At(s, BLANK_LINE, i)
  {
    AtHas(s, BLANK_LINE, i, 0);
    AtHas(s, BLANK_LINE, i, 2);
  }

  /** The first blank line is the one that ends the block. */
  lemma {:induction false} BlankLineEndsBlock(lines: seq<string>, rest: string)
    requires PlainLines(lines)
    ensures Find(Joined(lines, CRLF) + BLANK_LINE + rest, BLANK_LINE, 0) == Some(|Joined(lines, CRLF)|)
    ensures Joined(lines, CRLF) != "" && Joined(lines, CRLF)[0] != '\r'
  {
    hide Find;
    var block := Joined(lines, CRLF);
    var s := block + BLANK_LINE + rest;
    if |lines| == 1 {
      forall i | 0 <= i < |block| ensures !At(s, BLANK_LINE, i) {
        AtHas(s, BLANK_LINE, i, 0);
      }
    } else {
      var first, inner := lines[0], Joined(lines[1..], CRLF);
      BlankLineEndsBlock(lines[1..], rest);
      var tail := inner + BLANK_LINE + rest;
      assert s == first + CRLF + tail;
      var cut := |first| + 2;
      assert s[cut..] == tail;
      FindFirst(tail, BLANK_LINE, 0);
      forall i | 0 <= i < |block| ensures !At(s, BLANK_LINE, i) {
        if i < cut { NoBlankLineAt(s, i, first, tail); }
        else { AtInSuffix(s, BLANK_LINE, cut, i - cut); }
      }
    }
    BlockEnd(block, rest);
    FindIs(s, BLANK_LINE, 0, |block|);
  }

  lemma BlockEnd(block: string, rest: string)
    ensures At(block + BLANK_LINE + rest, BLANK_LINE, |block|)
  {
  }

  /** A header block made of plain lines is read as those lines. */
  lemma BlockIsRead(inflate: Inflate, lines: seq<string>, rest: string)
    requires PlainLines(lines)
    ensures ParseMessage(inflate, Joined(lines, CRLF) + BLANK_LINE + rest)
      == ParseBody(inflate, HeadOfLines(EMPTY_REPLY.(headers := Joined(lines, CRLF)), lines), rest)
  {
    hide Find, HeadOfLines, ParseBody, Joined;
    BlankLineEndsBlock(lines, rest);
    var block := Joined(lines, CRLF);
    var s := block + BLANK_LINE + rest;
    assert s[..|block|] == block && s[|block| + 4..] == rest;
    NoBorders();
    forall i | 0 <= i < |lines| ensures !Contains(lines[i], CRLF) { NoDelimiterInside(lines[i], CRLF); }
    SplitUndoesJoin(lines, CRLF);
  }

  // ---------------------------------------------------------------- start lines and header lines

  lemma FirstWord(a: string, rest: string)
    requires forall i :: 0 <= i < |a| ==> a[i] != ' '
    ensures Parts(a + " " + rest, " ", -1) == [a] + Parts(rest, " ", -1)
  {
    hide Find;
    NoDelimiterInside(a, " ");
    NoBorders();
    FindAfterPart(a, " ", rest);
    var s := a + " " + rest;
    assert s[..|a|] == a && s[|a| + 1..] == rest;
    CutsDoNotRunOut(rest, " ", -2, -1);
  }

  lemma {:induction false} CutsDoNotRunOut(s: string, d: string, c: int, e: int)
    requires |d| > 0 && c < 0 && e < 0
    ensures Parts(s, d, c) == Parts(s, d, e)
    decreases |s|
  {
    if Find(s, d, 0).Some? {
      CutsDoNotRunOut(s[Find(s, d, 0).value + |d|..], d, c - 1, e - 1);
    }
  }

  lemma FirstTwoWords(a: string, b: string, c: string)
    requires forall i :: 0 <= i < |a| ==> a[i] != ' '
    requires forall i :: 0 <= i < |b| ==> b[i] != ' '
    ensures var p := Parts(a + " " + b + " " + c, " ", -1); |p| >= 2 && p[0] == a && p[1] == b
  {
    hide Find, Parts;
    assert a + " " + b + " " + c == a + " " + (b + " " + c);
    FirstWord(a, b + " " + c);
    FirstWord(b, c);
  }

  lemma HeaderLineIsRead(name: string, value: string)
    requires name != "" && forall i :: 0 <= i < |name| ==> name[i] != ':'
    requires value != "" ==> !IsSpace(value[0])
    ensures HeaderLine(name + ": " + value) == Some((name, value))
  {
    hide Find;
    var line := name + ": " + value;
    NoDelimiterInside(name, ":");
    NoBorders();
    FindAfterPart(name, ":", " " + value);
    assert line == name + ":" + (" " + value);
    var p := |name|;
    assert line[p + 1] == ' ';
    assert SkipSpaces(line, p + 1) == SkipSpaces(line, p + 2) == p + 2;
    assert line[..p] == name && line[p + 2..] == value;
  }

  lemma {:induction false} PlainKeyLength(name: string)
    requires forall i :: 0 <= i < |name| ==> name[i] != '\0'
    ensures |HeaderKey(name)| == |name|
  {
    CStrOfPlain(name);
  }

  lemma {:induction false} CStrOfPlain(s: string)
    requires forall i :: 0 <= i < |s| ==> s[i] != '\0'
    ensures CStr(s) == s
  {
    if |s| > 0 { CStrOfPlain(s[1..]); }
  }

  /** The header names in use differ in length, so none is taken for another. */
  lemma KeysDiffer()
    ensures |HeaderKey("Content-Length")| == 14 && |HeaderKey("Content-Type")| == 12
    ensures |HeaderKey("Content-Encoding")| == 16 && |HeaderKey("Access-Control-Allow-Origin")| == 27
  {
    hide HeaderKey;
    PlainKeyLength("Content-Length");
    PlainKeyLength("Content-Type");
    PlainKeyLength("Content-Encoding");
    PlainKeyLength("Access-Control-Allow-Origin");
  }

  lemma HeaderMapStep(lines: seq<string>, last: string, key: string, value: string)
    requires HeaderLine(last) == Some((key, value))
    ensures HeaderMap(lines + [last]) == HeaderMap(lines)[HeaderKey(key) := value]
  {
    hide HeaderLine, HeaderKey;
    assert (lines + [last])[..|lines|] == lines;
  }

  function LengthLine(body: string): string {
    "Content-Length: " + Printed(|body|, 10)
  }

  lemma LengthLineIsRead(body: string)
    requires |body| < U64
    ensures HeaderLine(LengthLine(body)) == Some(("Content-Length", Printed(|body|, 10)))
    ensures Stoul(Printed(|body|, 10), 10) == Some((|body|, |Printed(|body|, 10)|))
    ensures LengthLine(body) != "" && NoCR(LengthLine(body))
  {
    hide Find, Stoul, HeaderLine;
    PrintedIsNumeral(|body|, 10);
    StoulInvertsPrinting(|body|, 10);
    var digits := Printed(|body|, 10);
    assert DigitValue(digits[0]) < 10;
    HeaderLineIsRead("Content-Length", digits);
    assert "Content-Length" + ": " + digits == LengthLine(body);
    forall i | 0 <= i < |LengthLine(body)| ensures LengthLine(body)[i] != '\r' {
      if i >= 16 { assert DigitValue(digits[i - 16]) < 10; }
    }
  }

  /** A sized, uncompressed body is returned as it is and the text behind it is left. */
  lemma SizedBodyIsRead(inflate: Inflate, reply: HttpReply, body: string, tail: string)
    requires |body| < U64 && HeaderKey("Content-Length") in reply.parsed
    requires HeaderKey("Content-Encoding") !in reply.parsed
    requires reply.parsed[HeaderKey("Content-Length")] == Printed(|body|, 10)
    ensures ParseBody(inflate, BodyKind(reply), body + tail) == Complete(Reply(reply.(body := body)), tail)
  {
    hide HeaderKey, Stoul;
    LengthLineIsRead(body);
    assert (body + tail)[..|body|] == body && (body + tail)[|body|..] == tail;
  }

  // ---------------------------------------------------------------- the request

  function BuildRequest(resource: string, contentType: string, body: string): string {
    "POST " + resource + " HTTP/1.1\r\n"
    + "Content-Length: " + Printed(|body|, 10) + "\r\n"
    + "Content-Type: " + contentType + "\r\n"
    + "\r\n"
    + body
  }

  function RequestLines(resource: string, contentType: string, body: string): seq<string> {
    ["POST " + resource + " HTTP/1.1", LengthLine(body), "Content-Type: " + contentType]
  }

  lemma JoinThree(a: string, b: string, c: string)
    ensures Joined([a, b, c], CRLF) == a + CRLF + b + CRLF + c
  {
    JoinedStep(b, [c], CRLF);
    JoinedStep(a, [b, c], CRLF);
    assert a + CRLF + (b + CRLF + c) == a + CRLF + b + CRLF + c;
  }

  lemma RequestShape(resource: string, contentType: string, body: string, tail: string)
    ensures BuildRequest(resource, contentType, body) + tail
      == Joined(RequestLines(resource, contentType, body), CRLF) + BLANK_LINE + (body + tail)
  {
    hide Joined, Printed;
    JoinThree("POST " + resource + " HTTP/1.1", LengthLine(body), "Content-Type: " + contentType);
  }

  predicate GoodResource(resource: string) {
    forall i :: 0 <= i < |resource| ==> resource[i] != ' ' && resource[i] != '\r'
  }

  predicate GoodValue(value: string) {
    NoCR(value) && (value != "" ==> !IsSpace(value[0]))
  }

  lemma RequestLineIsRead(block: string, resource: string)
    requires GoodResource(resource)
    ensures var p := Parts("POST " + resource + " HTTP/1.1", " ", -1);
      && |p| >= 2
      && StartLine(EMPTY_REPLY.(headers := block), p)
        == Some(EMPTY_REPLY.(headers := block, verb := "post", resource := resource))
  {
    hide Parts, Stoi;
    FirstTwoWords("POST", resource, "HTTP/1.1");
    assert "POST" + " " + resource + " " + "HTTP/1.1" == "POST " + resource + " HTTP/1.1";
    assert Lowercased("POST") == "post";
  }

  function RequestHeaders(contentType: string, body: string): map<string, string> {
    map[][HeaderKey("Content-Length") := Printed(|body|, 10)][HeaderKey("Content-Type") := contentType]
  }

  lemma RequestHeadersAreRead(contentType: string, body: string)
    requires |body| < U64 && GoodValue(contentType)
    ensures HeaderMap([LengthLine(body), "Content-Type: " + contentType]) == RequestHeaders(contentType, body)
  {
    hide HeaderLine, HeaderKey, LengthLine, Printed;
    LengthLineIsRead(body);
    HeaderLineIsRead("Content-Type", contentType);
    assert "Content-Type" + ": " + contentType == "Content-Type: " + contentType;
    HeaderMapStep([], LengthLine(body), "Content-Length", Printed(|body|, 10));
    HeaderMapStep([LengthLine(body)], "Content-Type: " + contentType, "Content-Type", contentType);
    assert [] + [LengthLine(body)] == [LengthLine(body)];
    assert [LengthLine(body)] + ["Content-Type: " + contentType] == [LengthLine(body), "Content-Type: " + contentType];
  }

  lemma RequestHead(resource: string, contentType: string, body: string, block: string)
    requires |body| < U64 && GoodResource(resource) && GoodValue(contentType)
    ensures HeadOfLines(EMPTY_REPLY.(headers := block), RequestLines(resource, contentType, body))
      == BodyKind(HttpReply(0, block, "", "post", resource, RequestHeaders(contentType, body)))
  {
    hide BodyKind, LengthLine, Parts, StartLine, HeaderMap, RequestHeaders;
    RequestLineIsRead(block, resource);
    RequestHeadersAreRead(contentType, body);
    assert RequestLines(resource, contentType, body)[1..] == [LengthLine(body), "Content-Type: " + contentType];
  }

  /** Parsing a printed request gives back its parts and leaves what follows it. */
  lemma RequestRoundTrip(inflate: Inflate, resource: string, contentType: string, body: string, tail: string)
    requires |body| < U64 && GoodResource(resource) && GoodValue(contentType)
    ensures var p := ParseMessage(inflate, BuildRequest(resource, contentType, body) + tail);
      && p.Complete? && p.event.Reply? && p.rest == tail
      && p.event.reply.verb == "post" && p.event.reply.resource == resource && p.event.reply.body == body
      && forall name :: HeaderKey(name) == HeaderKey("Content-Type") ==> GetHeader(p.event.reply, name) == contentType
  {
    hide Find, BodyKind, Printed, HeaderKey, HeadOfLines, ParseBody, ParseMessage, Joined, BuildRequest;
    var lines := RequestLines(resource, contentType, body);
    LengthLineIsRead(body);
    assert PlainLines(lines);
    RequestShape(resource, contentType, body, tail);
    BlockIsRead(inflate, lines, body + tail);
    var block := Joined(lines, CRLF);
    RequestHead(resource, contentType, body, block);
    KeysDiffer();
    SizedBodyIsRead(inflate, HttpReply(0, block, "", "post", resource, RequestHeaders(contentType, body)), body, tail);
  }

  // ---------------------------------------------------------------- responses

  function HttpCodeToString(code: int): string {
    match code
    case 200 => "200" + " OK"
    case 400 => "400" + " Bad Request"
    case 403 => "403" + " Forbidden"
    case 404 => "404" + " Not Found"
    case 409 => "409" + " Conflict"
    case 429 => "429" + " Too Many Requests"
    case 500 => "500" + " Internal Server Error"
    case 503 => "503" + " Service Unavailable"
    case _ => "200" + " OK"
  }

  predicate KnownCode(code: int) {
    code in {200, 400, 403, 404, 409, 429, 500, 503}
  }

  function BuildApiOkResponse(body: string): string {
    "HTTP/1.1 200 OK\r\n"
    + "Content-Length: " + Printed(|body|, 10) + "\r\n"
    + "Content-Type: application/json\r\n"
    + "Access-Control-Allow-Origin: *\r\n"
    + "\r\n"
    + body
  }

  /** `apiResponse` is the JSON text of the error. */
  function BuildApiErrorResponse(httpCode: int, apiResponse: string): string {
    "HTTP/1.1 " + HttpCodeToString(httpCode) + "\r\n"
    + "Content-Length: " + Printed(|apiResponse|, 10) + "\r\n"
    + "Access-Control-Allow-Origin: *\r\n"
    + "Content-Type: application/json\r\n"
    + "\r\n"
    + apiResponse
  }

  const JSON_LINE := "Content-Type: application/json"
  const ORIGIN_LINE := "Access-Control-Allow-Origin: *"

  /** The two header lines every response carries besides its length. */
  function FixedName(json: bool): string {
    if json then "Content-Type" else "Access-Control-Allow-Origin"
  }

  function FixedText(json: bool): string {
    if json then "application/json" else "*"
  }

  function FixedLine(json: bool): string {
    if json then JSON_LINE else ORIGIN_LINE
  }

  lemma FixedLineIsRead(json: bool)
    ensures HeaderLine(FixedLine(json)) == Some((FixedName(json), FixedText(json)))
    ensures FixedLine(json) != "" && NoCR(FixedLine(json))
  {
    hide HeaderLine;
    if json {
      HeaderLineIsRead("Content-Type", "application/json");
      assert "Content-Type" + ": " + "application/json" == JSON_LINE;
    } else {
      HeaderLineIsRead("Access-Control-Allow-Origin", "*");
      assert "Access-Control-Allow-Origin" + ": " + "*" == ORIGIN_LINE;
    }
  }

  lemma JoinFour(a: string, b: string, c: string, d: string)
    ensures Joined([a, b, c, d], CRLF) == a + CRLF + b + CRLF + c + CRLF + d
  {
    hide Joined;
    JoinThree(b, c, d);
    JoinedStep(a, [b, c, d], CRLF);
    assert [a] + [b, c, d] == [a, b, c, d];
    assert a + CRLF + (b + CRLF + c + CRLF + d) == a + CRLF + b + CRLF + c + CRLF + d;
  }

  lemma OkShape(body: string, tail: string)
    ensures BuildApiOkResponse(body) + tail
      == Joined(ResponseLines(HttpCodeToString(200), body, true), CRLF) + BLANK_LINE + (body + tail)
  {
    hide Joined, Printed;
    assert "HTTP/1.1 " + HttpCodeToString(200) == "HTTP/1.1 200 OK";
    JoinFour("HTTP/1.1 200 OK", LengthLine(body), JSON_LINE, ORIGIN_LINE);
  }

  lemma ErrorShape(code: int, body: string, tail: string)
    ensures BuildApiErrorResponse(code, body) + tail
      == Joined(ResponseLines(HttpCodeToString(code), body, false), CRLF) + BLANK_LINE + (body + tail)
  {
    hide Joined, Printed, HttpCodeToString;
    JoinFour("HTTP/1.1 " + HttpCodeToString(code), LengthLine(body), ORIGIN_LINE, JSON_LINE);
  }

  lemma ThreeDigits(a: char, b: char, c: char)
    requires DigitValue(a) < 10 && DigitValue(b) < 10 && DigitValue(c) < 10
    ensures Stoi([a, b, c]) == Some(100 * DigitValue(a) + 10 * DigitValue(b) + DigitValue(c))
  {
    var s := [a, b, c];
    assert s[..3] == s && s[..2] == [a, b] && [a, b][..1] == [a] && [a][..0] == [];
    ScanDigits(s, 3, 10);
    assert Value([a, b], 10) == Value([a], 10) * 10 + DigitValue(b);
  }

  /** A status text is a three-digit code, a space and a phrase. */
  predicate IsStatusText(text: string) {
    |text| > 4 && text[3] == ' ' && NoCR(text) && (forall i :: 0 <= i < 3 ==> text[i] != ' ') && Stoi(text[..3]).Some?
  }

  lemma CodeAndPhrase(a: char, b: char, c: char, phrase: string)
    requires |phrase| > 1 && phrase[0] == ' ' && NoCR(phrase)
    requires DigitValue(a) < 10 && DigitValue(b) < 10 && DigitValue(c) < 10
    ensures var text := [a, b, c] + phrase;
      IsStatusText(text) && Stoi(text[..3]) == Some(100 * DigitValue(a) + 10 * DigitValue(b) + DigitValue(c))
  {
    hide Stoi;
    assert ([a, b, c] + phrase)[..3] == [a, b, c];
    ThreeDigits(a, b, c);
  }

  lemma StatusText(code: int)
    ensures var text := HttpCodeToString(code);
      IsStatusText(text) && Stoi(text[..3]) == Some(if KnownCode(code) then code else 200)
  {
    hide Stoi, IsStatusText;
    match code {
      case 400 => CodeAndPhrase('4', '0', '0', " Bad Request");
      case 403 => CodeAndPhrase('4', '0', '3', " Forbidden");
      case 404 => CodeAndPhrase('4', '0', '4', " Not Found");
      case 409 => CodeAndPhrase('4', '0', '9', " Conflict");
      case 429 => CodeAndPhrase('4', '2', '9', " Too Many Requests");
      case 500 => CodeAndPhrase('5', '0', '0', " Internal Server Error");
      case 503 => CodeAndPhrase('5', '0', '3', " Service Unavailable");
      case _ => CodeAndPhrase('2', '0', '0', " OK");
    }
  }

  lemma StatusLineIsRead(block: string, text: string)
    requires IsStatusText(text)
    ensures var p := Parts("HTTP/1.1 " + text, " ", -1);
      && |p| >= 2
      && StartLine(EMPTY_REPLY.(headers := block), p)
        == Some(EMPTY_REPLY.(headers := block, status := Stoi(text[..3]).value))
  {
    hide Parts, Stoi;
    FirstTwoWords("HTTP/1.1", text[..3], text[4..]);
    assert text == text[..3] + " " + text[4..];
    assert "HTTP/1.1" + " " + text[..3] + " " + text[4..] == "HTTP/1.1 " + text;
    assert Lowercased("HTTP/1.1") == "http/1.1";
  }

  lemma FixedKeyDiffers(json: bool)
    ensures HeaderKey(FixedName(json)) != HeaderKey("Content-Length")
    ensures HeaderKey(FixedName(json)) != HeaderKey("Content-Encoding")
    ensures HeaderKey("Content-Length") != HeaderKey("Content-Encoding")
  {
    hide HeaderKey;
    KeysDiffer();
  }

  lemma HeaderMapOfThree(a: string, ka: string, va: string, b: string, kb: string, vb: string, c: string, kc: string,
                         vc: string)
    requires HeaderLine(a) == Some((ka, va)) && HeaderLine(b) == Some((kb, vb)) && HeaderLine(c) == Some((kc, vc))
    ensures HeaderMap([a, b, c]) == map[][HeaderKey(ka) := va][HeaderKey(kb) := vb][HeaderKey(kc) := vc]
  {
    hide HeaderLine, HeaderKey;
    HeaderMapStep([], a, ka, va);
    HeaderMapStep([a], b, kb, vb);
    HeaderMapStep([a, b], c, kc, vc);
    assert [] + [a] == [a] && [a] + [b] == [a, b] && [a, b] + [c] == [a, b, c];
  }

  /** The length is found, and no content coding, among the headers of a response. */
  lemma ResponseHeadersAreRead(body: string, json: bool)
    requires |body| < U64
    ensures var m := HeaderMap([LengthLine(body), FixedLine(json), FixedLine(!json)]);
      && HeaderKey("Content-Length") in m && m[HeaderKey("Content-Length")] == Printed(|body|, 10)
      && HeaderKey("Content-Encoding") !in m
  {
    hide HeaderLine, HeaderKey, HeaderMap, Printed, LengthLine, FixedLine, FixedText, FixedName;
    LengthLineIsRead(body);
    FixedLineIsRead(json);
    FixedLineIsRead(!json);
    HeaderMapOfThree(LengthLine(body), "Content-Length", Printed(|body|, 10), FixedLine(json), FixedName(json),
                     FixedText(json),
                     FixedLine(!json), FixedName(!json), FixedText(!json));
    FixedKeyDiffers(json);
    FixedKeyDiffers(!json);
    ThreeKeys(HeaderKey("Content-Length"), Printed(|body|, 10), HeaderKey(FixedName(json)), FixedText(json),
              HeaderKey(FixedName(!json)), FixedText(!json), HeaderKey("Content-Encoding"));
  }

  lemma ThreeKeys(k: string, v: string, a: string, x: string, b: string, y: string, other: string)
    requires k != a && k != b && other != k && other != a && other != b
    ensures var m := map[][k := v][a := x][b := y]; k in m && m[k] == v && other !in m
  {
  }

  function ResponseLines(text: string, body: string, json: bool): seq<string> {
    ["HTTP/1.1 " + text, LengthLine(body), FixedLine(json), FixedLine(!json)]
  }

  lemma PlainResponseLines(text: string, body: string, json: bool)
    requires IsStatusText(text) && |body| < U64
    ensures PlainLines(ResponseLines(text, body, json))
  {
    hide LengthLine, FixedLine, Stoi;
    LengthLineIsRead(body);
    FixedLineIsRead(json);
    FixedLineIsRead(!json);
  }

  /** A printed response is read back with its status, its body and nothing of what follows. */
  lemma ResponseIsRead(inflate: Inflate, text: string, body: string, json: bool, tail: string)
    requires IsStatusText(text) && |body| < U64
    ensures (
      var lines := ResponseLines(text, body, json);
      var block := Joined(lines, CRLF);
      var reply := HttpReply(Stoi(text[..3]).value, block, body, "", "", HeaderMap(lines[1..]));
      ParseMessage(inflate, block + BLANK_LINE + (body + tail)) == Complete(Reply(reply), tail))
  {
    hide BodyKind, ParseBody, ParseMessage, Stoi, Joined, StartLine, Parts, HeaderMap, LengthLine, FixedLine, Printed;
    hide HeaderKey;
    var lines := ResponseLines(text, body, json);
    var block := Joined(lines, CRLF);
    PlainResponseLines(text, body, json);
    BlockIsRead(inflate, lines, body + tail);
    StatusLineIsRead(block, text);
    assert lines[1..] == [LengthLine(body), FixedLine(json), FixedLine(!json)];
    ResponseHeadersAreRead(body, json);
    var reply := HttpReply(Stoi(text[..3]).value, block, "", "", "", HeaderMap(lines[1..]));
    SizedBodyIsRead(inflate, reply, body, tail);
  }

  lemma OkRoundTrip(inflate: Inflate, body: string, tail: string)
    requires |body| < U64
    ensures var p := ParseMessage(inflate, BuildApiOkResponse(body) + tail);
      p.Complete? && p.event.Reply? && p.event.reply.status == 200 && p.event.reply.body == body && p.rest == tail
  {
    hide ParseMessage, BuildApiOkResponse, Stoi, Joined, HttpCodeToString, HeaderMap, ResponseLines, IsStatusText;
    OkShape(body, tail);
    StatusText(200);
    ResponseIsRead(inflate, HttpCodeToString(200), body, true, tail);
  }

  /** An error keeps its code exactly when `http_code_to_string` lists the code; any other is read back as 200. */
  lemma ErrorRoundTrip(inflate: Inflate, code: int, apiResponse: string, tail: string)
    requires |apiResponse| < U64
    ensures var p := ParseMessage(inflate, BuildApiErrorResponse(code, apiResponse) + tail);
      && p.Complete? && p.event.Reply? && p.event.reply.body == apiResponse && p.rest == tail
      && p.event.reply.status == (if KnownCode(code) then code else 200)
      && (p.event.reply.status == code <==> KnownCode(code))
  {
    hide ParseMessage, BuildApiErrorResponse, Stoi, Joined, HttpCodeToString, HeaderMap, ResponseLines, IsStatusText;
    ErrorShape(code, apiResponse, tail);
    StatusText(code);
    ResponseIsRead(inflate, HttpCodeToString(code), apiResponse, false, tail);
  }

  // ---------------------------------------------------------------- a stream of responses

  function OkStream(bodies: seq<string>): string {
    if |bodies| == 0 then "" else BuildApiOkResponse(bodies[0]) + OkStream(bodies[1..])
  }

  predicate RepliesWith(events: seq<Event>, bodies: seq<string>) {
    |events| == |bodies|
    && forall i :: 0 <= i < |bodies| ==>
      events[i].Reply? && events[i].reply.status == 200 && events[i].reply.body == bodies[i]
  }

  predicate BodiesFit(bodies: seq<string>) {
    forall i :: 0 <= i < |bodies| ==> |bodies[i]| < U64
  }

  lemma {:induction false} OkStreamIsParsed(inflate: Inflate, bodies: seq<string>)
    requires BodiesFit(bodies)
    ensures var p := ParseStream(inflate, OkStream(bodies)); RepliesWith(p.events, bodies) && p.rest == ""
  {
    hide ParseMessage, BuildApiOkResponse;
    if |bodies| == 0 {
      NothingInEmpty(inflate);
    } else {
      OkStreamIsParsed(inflate, bodies[1..]);
      OkRoundTrip(inflate, bodies[0], OkStream(bodies[1..]));
    }
  }

  lemma NothingInEmpty(inflate: Inflate)
    ensures ParseMessage(inflate, "") == Incomplete
  {
  }

  /** However the bytes arrive, the bodies come back in order with status 200 and nothing is left over. */
  lemma OkStreamIsRead(inflate: Inflate, bodies: seq<string>, segments: seq<string>)
    requires BodiesFit(bodies) && Concat(segments) == OkStream(bodies)
    ensures var r := FeedScan(FromBegin, inflate, START_SCAN, segments).wire;
      RepliesWith(r.events, bodies) && r.buffer == "" && r.wait == OnHeaders
  {
    hide ParseStream, FeedScan, OkStream;
    OkStreamIsParsed(inflate, bodies);
    ArmedRead.SegmentationIndependence(inflate, segments);
  }
}
