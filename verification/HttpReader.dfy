/** The incremental reader of net/client.cpp: a stream buffer, the read that is armed, and the calls
made to the handler. */
module HttpReader {
  import opened Text
  import opened Http

  /** The armed asynchronous read with what its callback has captured; Closed once a protocol error was reported. */
  datatype Wait =
    | OnHeaders
    | OnBody(reply: HttpReply, length: nat)
    | OnChunkSize(reply: HttpReply)
    | OnChunkData(reply: HttpReply, size: nat)
    | Closed

  /** `buffer` holds all bytes that have arrived and were not consumed. */
  datatype Wire = Wire(buffer: string, wait: Wait, events: seq<Event>)

  const START := Wire("", OnHeaders, [])

  function Arrive(w: Wire, segment: string): Wire {
    w.(buffer := w.buffer + segment)
  }

  /** The match condition of the armed read, evaluated on the whole buffer. */
  predicate Matched(w: Wire) {
    match w.wait
    case OnHeaders => Find(w.buffer, BLANK_LINE, 0).Some?
    case OnBody(_, length) => |w.buffer| >= length
    case OnChunkSize(_) => Find(w.buffer, CRLF, 0).Some?
    case OnChunkData(_, size) => |w.buffer| >= ChunkSpan(size)
    case Closed => false
  }

  /** The handler is called; after a reply it arms the next read. */
  function Deliver(buffer: string, events: seq<Event>, e: Event): Wire {
    Wire(buffer, if e.ProtocolError? then Closed else OnHeaders, events + [e])
  }

  function StartBody(buffer: string, events: seq<Event>, head: Head): Wire {
    match head
    case BadHead(reply) => Deliver(buffer, events, ProtocolError(reply))
    case NoBody(reply) => Deliver(buffer, events, Reply(reply))
    case Sized(reply, length) => Wire(buffer, OnBody(reply, length), events)
    case Chunked(reply) => Wire(buffer, OnChunkSize(reply), events)
  }

  /** One callback. */
  function Fire(inflate: Inflate, w: Wire): Wire
    requires Matched(w)
  {
    match w.wait
    case OnHeaders =>
      var i := Find(w.buffer, BLANK_LINE, 0).value;
      StartBody(w.buffer[i + 4..], w.events, ParseHead(w.buffer[..i]))
    case OnBody(reply, length) =>
      Deliver(w.buffer[length..], w.events, Finish(inflate, reply.(body := w.buffer[..length])))
    case OnChunkSize(reply) =>
      var i := Find(w.buffer, CRLF, 0).value;
      (match ChunkSize(w.buffer[..i])
       case None => Deliver(w.buffer[i + 2..], w.events, ProtocolError(reply))
       case Some(size) => Wire(w.buffer[i + 2..], OnChunkData(reply, size), w.events))
    case OnChunkData(reply, size) =>
      var span := ChunkSpan(size);
      var longer := reply.(body := reply.body + Prefix(w.buffer[..span], size));
      if size == 0 then Deliver(w.buffer[span..], w.events, Finish(inflate, longer))
      else Wire(w.buffer[span..], OnChunkSize(longer), w.events)
  }

  /** Reads that may consume nothing come before reads that consume a delimiter. */
  function Rank(wait: Wait): nat {
    if wait.OnBody? || wait.OnChunkData? then 1 else 0
  }

  lemma FireDecreases(inflate: Inflate, w: Wire)
    requires Matched(w)
    ensures var v := Fire(inflate, w);
      |v.buffer| < |w.buffer| || (|v.buffer| == |w.buffer| && Rank(v.wait) < Rank(w.wait))
  {
  }

  /** Callbacks run as long as the armed read finds its data in the buffer. */
  function Pump(inflate: Inflate, w: Wire): (r: Wire)
    ensures !Matched(r)
    decreases |w.buffer|, Rank(w.wait)
  {
    if Matched(w) then FireDecreases(inflate, w); Pump(inflate, Fire(inflate, w)) else w
  }

  function FeedAll(inflate: Inflate, w: Wire, segments: seq<string>): Wire
    decreases |segments|
  {
    if |segments| == 0 then w else FeedAll(inflate, Pump(inflate, Arrive(w, segments[0])), segments[1..])
  }

  function Concat(segments: seq<string>): string {
    if |segments| == 0 then "" else segments[0] + Concat(segments[1..])
  }

  // ---------------------------------------------------------------- independence from segmentation

  lemma MatchExtends(w: Wire, more: string)
    requires Matched(w)
    ensures Matched(Arrive(w, more))
  {
    if w.wait.OnHeaders? || w.wait.OnChunkSize? {
      FindInExtension(w.buffer, if w.wait.OnHeaders? then BLANK_LINE else CRLF, more);
    }
  }

  lemma CutExtends(s: string, more: string, n: nat, skip: nat)
    requires n + skip <= |s|
    ensures (s + more)[..n] == s[..n] && (s + more)[n + skip..] == s[n + skip..] + more
  {
  }

  /** A callback that can run now does the same when more bytes have already arrived. */
  lemma FireExtends(inflate: Inflate, w: Wire, more: string)
    requires Matched(w)
    ensures Matched(Arrive(w, more)) && Fire(inflate, Arrive(w, more)) == Arrive(Fire(inflate, w), more)
  {
    hide ParseHead, Finish, ChunkSize, ChunkSpan, Find;
    MatchExtends(w, more);
    match w.wait {
      case OnHeaders =>
        FindInExtension(w.buffer, BLANK_LINE, more);
        CutExtends(w.buffer, more, Find(w.buffer, BLANK_LINE, 0).value, 4);
      case OnChunkSize(_) =>
        FindInExtension(w.buffer, CRLF, more);
        CutExtends(w.buffer, more, Find(w.buffer, CRLF, 0).value, 2);
      case OnBody(_, length) =>
        CutExtends(w.buffer, more, length, 0);
      case OnChunkData(_, size) =>
        CutExtends(w.buffer, more, ChunkSpan(size), 0);
    }
  }

  /** Pumping before more bytes arrive changes nothing. */
  lemma {:induction false} PumpExtends(inflate: Inflate, w: Wire, more: string)
    ensures Pump(inflate, Arrive(Pump(inflate, w), more)) == Pump(inflate, Arrive(w, more))
    decreases |w.buffer|, Rank(w.wait)
  {
    hide Fire, Matched;
    if Matched(w) {
      FireDecreases(inflate, w);
      PumpExtends(inflate, Fire(inflate, w), more);
      FireExtends(inflate, w, more);
    }
  }

  /** Every way of cutting a stream into segments leads to the same state as the stream in one piece. */
  lemma {:induction false} FeedAllIsPump(inflate: Inflate, w: Wire, segments: seq<string>)
    requires !Matched(w)
    ensures FeedAll(inflate, w, segments) == Pump(inflate, Arrive(w, Concat(segments)))
    decreases |segments|
  {
    hide Fire, Matched;
    if |segments| == 0 {
      assert Arrive(w, "") == w;
    } else {
      var first, rest := Arrive(w, segments[0]), Concat(segments[1..]);
      FeedAllIsPump(inflate, Pump(inflate, first), segments[1..]);
      PumpExtends(inflate, first, rest);
      assert w.buffer + segments[0] + rest == w.buffer + (segments[0] + rest);
    }
  }

  /** `a` is what is left of `s` after consuming some of its front. */
  ghost predicate IsSuffix(a: string, s: string) {
    |a| <= |s| && a == s[|s| - |a|..]
  }

  /** What the reader makes of its buffer when `p` is the one-shot parse from the same point. */
  ghost predicate Agrees(inflate: Inflate, w: Wire, p: Parsed) {
    var r := Pump(inflate, w);
    match p
    case Complete(e, rest) => r == Pump(inflate, Deliver(rest, w.events, e))
    case Incomplete => Stuck(w, r)
  }

  /** It came to rest inside the message, having consumed part of it or nothing at all. */
  ghost predicate Stuck(w: Wire, r: Wire) {
    && r.events == w.events && !r.wait.Closed? && IsSuffix(r.buffer, w.buffer)
    && (r.wait.OnHeaders? ==> r == w)
    && (w.wait.OnHeaders? && !r.wait.OnHeaders? ==> |r.buffer| < |w.buffer|)
  }

  lemma StuckAfterCut(w: Wire, v: Wire, r: Wire, n: nat)
    requires n <= |w.buffer| && (w.wait.OnHeaders? ==> n > 0)
    requires v.buffer == w.buffer[n..] && v.events == w.events && !v.wait.OnHeaders? && Stuck(v, r)
    ensures Stuck(w, r)
  {
    assert w.buffer[n..][|v.buffer| - |r.buffer|..] == w.buffer[|w.buffer| - |r.buffer|..];
  }

  /** Agreement one callback later is agreement now, for a callback that stays inside the message. */
  lemma AgreesEarlier(inflate: Inflate, w: Wire, v: Wire, p: Parsed, n: nat)
    requires Matched(w) && Fire(inflate, w) == v && Agrees(inflate, v, p)
    requires n <= |w.buffer| && (w.wait.OnHeaders? ==> n > 0)
    requires v.buffer == w.buffer[n..] && v.events == w.events && !v.wait.OnHeaders?
    ensures Agrees(inflate, w, p)
  {
    hide Fire, Matched;
    assert Pump(inflate, w) == Pump(inflate, v);
    if p.Incomplete? {
      StuckAfterCut(w, v, Pump(inflate, v), n);
    }
  }

  /** The chunk loop agrees with `ParseChunks`, both at a size line and inside a chunk. */
  lemma {:induction false} ChunksAgree(inflate: Inflate, reply: HttpReply, s: string, events: seq<Event>)
    ensures Agrees(inflate, Wire(s, OnChunkSize(reply), events), ParseChunks(inflate, reply, s))
    decreases |s|, 1
  {
    hide Finish, ChunkSize, ChunkSpan, Pump;
    var w := Wire(s, OnChunkSize(reply), events);
    if Matched(w) {
      var i := Find(s, CRLF, 0).value;
      if ChunkSize(s[..i]).Some? {
        var size := ChunkSize(s[..i]).value;
        ChunkDataAgrees(inflate, reply, size, s[i + 2..], events);
        AgreesEarlier(inflate, w, Wire(s[i + 2..], OnChunkData(reply, size), events), ParseChunks(inflate, reply, s),
                      i + 2);
      } else {
        PumpStep(inflate, w);
      }
    } else {
      PumpStep(inflate, w);
    }
  }

  lemma PumpStep(inflate: Inflate, w: Wire)
    ensures Pump(inflate, w) == if Matched(w) then Pump(inflate, Fire(inflate, w)) else w
  {
    hide Fire, Matched;
  }

  lemma {:induction false} ChunkDataAgrees(inflate: Inflate, reply: HttpReply, size: nat, data: string,
                                           events: seq<Event>)
    ensures Agrees(inflate, Wire(data, OnChunkData(reply, size), events), ParseChunkData(inflate, reply, size, data))
    decreases |data|, 2
  {
    hide Finish, ChunkSpan, Pump, ParseChunks;
    var w := Wire(data, OnChunkData(reply, size), events);
    var span := ChunkSpan(size);
    if Matched(w) && size != 0 {
      var longer := reply.(body := reply.body + Prefix(data[..span], size));
      ChunksAgree(inflate, longer, data[span..], events);
      AgreesEarlier(inflate, w, Wire(data[span..], OnChunkSize(longer), events),
                    ParseChunkData(inflate, reply, size, data), span);
    } else {
      PumpStep(inflate, w);
    }
  }

  lemma BodyAgrees(inflate: Inflate, head: Head, s: string, events: seq<Event>)
    requires !head.BadHead? && !head.NoBody?
    ensures Agrees(inflate, StartBody(s, events, head), ParseBody(inflate, head, s))
  {
    hide Finish, ParseChunks, Pump;
    if head.Chunked? {
      ChunksAgree(inflate, head.reply, s, events);
    } else {
      PumpStep(inflate, StartBody(s, events, head));
    }
  }

  lemma BodyDone(inflate: Inflate, head: Head, s: string)
    requires head.BadHead? || head.NoBody?
    ensures ParseBody(inflate, head, s)
      == Complete(if head.BadHead? then ProtocolError(head.reply) else Reply(head.reply), s)
  {
  }

  lemma MessageAgrees(inflate: Inflate, s: string, events: seq<Event>)
    ensures Agrees(inflate, Wire(s, OnHeaders, events), ParseMessage(inflate, s))
  {
    hide ParseHead, ParseBody, Pump;
    var w := Wire(s, OnHeaders, events);
    PumpStep(inflate, w);
    if Matched(w) {
      var i := Find(s, BLANK_LINE, 0).value;
      var head, rest := ParseHead(s[..i]), s[i + 4..];
      if head.BadHead? || head.NoBody? {
        BodyDone(inflate, head, rest);
      } else {
        BodyAgrees(inflate, head, rest, events);
        AgreesEarlier(inflate, w, StartBody(rest, events, head), ParseBody(inflate, head, rest), i + 4);
      }
    }
  }

  /** The state the reader is in after the stream that `p` is the one-shot parse of: the same calls to
  the handler, and between messages the same left-over text; inside an unfinished message part of
  that text has moved into the partial reply. */
  ghost predicate SameAs(r: Wire, p: Stream, before: seq<Event>) {
    && r.events == before + p.events
    && (r.wait.Closed? <==> |p.events| > 0 && p.events[|p.events| - 1].ProtocolError?)
    && (r.wait.OnHeaders? || r.wait.Closed? ==> r.buffer == p.rest)
    && IsSuffix(r.buffer, p.rest)
    && (|r.buffer| == |p.rest| ==> r.wait.OnHeaders? || r.wait.Closed?)
  }

  lemma SameAfterOneMore(r: Wire, p: Stream, before: seq<Event>, e: Event)
    requires SameAs(r, p, before + [e]) && e.Reply?
    ensures SameAs(r, Stream([e] + p.events, p.rest), before)
  {
    assert before + [e] + p.events == before + ([e] + p.events);
    if |p.events| > 0 {
      assert ([e] + p.events)[|p.events|] == p.events[|p.events| - 1];
    }
  }

  lemma {:induction false} StreamAgrees(inflate: Inflate, s: string, events: seq<Event>)
    ensures SameAs(Pump(inflate, Wire(s, OnHeaders, events)), ParseStream(inflate, s), events)
    decreases |s|
  {
    hide ParseMessage, Pump;
    MessageAgrees(inflate, s, events);
    MessageConsumes(inflate, s);
    match ParseMessage(inflate, s) {
      case Incomplete =>
        assert events + [] == events;
      case Complete(e, rest) =>
        if !e.ProtocolError? {
          StreamAgrees(inflate, rest, events + [e]);
          SameAfterOneMore(Pump(inflate, Wire(rest, OnHeaders, events + [e])), ParseStream(inflate, rest), events, e);
        } else {
          PumpStep(inflate, Deliver(rest, events, e));
        }
    }
  }

  /** For every stream and every way of cutting it, the re-armed reader makes the same calls, reports the
  same protocol error and leaves the same text as a one-shot parse of the whole stream. */
  lemma SegmentationIndependence(inflate: Inflate, segments: seq<string>)
    ensures SameAs(FeedAll(inflate, START, segments), ParseStream(inflate, Concat(segments)), [])
  {
    FeedAllIsPump(inflate, START, segments);
    assert Arrive(START, Concat(segments)) == Wire(Concat(segments), OnHeaders, []);
    StreamAgrees(inflate, Concat(segments), []);
  }

  /** Two cuts of the same stream cannot be told apart, not even in the middle of a message. */
  lemma CutsAreEquivalent(inflate: Inflate, one: seq<string>, other: seq<string>)
    requires Concat(one) == Concat(other)
    ensures FeedAll(inflate, START, one) == FeedAll(inflate, START, other)
  {
    FeedAllIsPump(inflate, START, one);
    FeedAllIsPump(inflate, START, other);
  }
}
