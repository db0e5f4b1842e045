/** The asynchronous reads of net/client.cpp as they search the stream buffer: a match condition is given the text
from the position where the last attempt left off, and says where the next one begins. */
module ArmedRead {
  import opened Wrappers
  import opened Text
  import opened Http
  import opened HttpReader

  /** Where a condition that fails lets the next attempt begin. The code's conditions return `begin`. */
  datatype OnFailure = FromBegin | FromEnd

  /** A condition on the text it is given: a position in it, and whether it is met. */
  function Failed(onFailure: OnFailure, text: string): (r: (nat, bool))
    ensures r.0 <= |text| && !r.1
  {
    (if onFailure.FromBegin? then 0 else |text|, false)
  }

  /** `contains_t`. */
  function ContainsCondition(onFailure: OnFailure, delimiter: string, text: string): (r: (nat, bool))
    ensures r.0 <= |text|
  {
    match Find(text, delimiter, 0)
    case Some(i) => if i < |text| then (i, true) else Failed(onFailure, text)
    case None => Failed(onFailure, text)
  }

  /** The two conditions on the number of bytes. */
  function SizeCondition(onFailure: OnFailure, size: nat, text: string): (r: (nat, bool))
    ensures r.0 <= |text|
  {
    if |text| >= size then (size, true) else Failed(onFailure, text)
  }

  /** The condition of the armed read. */
  function Condition(onFailure: OnFailure, wait: Wait, text: string): (r: (nat, bool))
    ensures r.0 <= |text|
  {
    match wait
    case OnHeaders => ContainsCondition(onFailure, BLANK_LINE, text)
    case OnBody(_, length) => SizeCondition(onFailure, length, text)
    case OnChunkSize(_) => ContainsCondition(onFailure, CRLF, text)
    case OnChunkData(_, size) => SizeCondition(onFailure, ChunkSpan(size), text)
    case Closed => Failed(onFailure, text)
  }

  /** The reader together with the position its armed read has reached. */
  datatype Scan = Scan(wire: Wire, position: nat)

  lemma FoundBehind(s: string, d: string, k: nat)
    requires k <= |s| && Find(s[k..], d, 0).Some?
    ensures Find(s, d, 0).Some?
  {
    FindFirst(s[k..], d, 0);
    AtInSuffix(s, d, k, Find(s[k..], d, 0).value);
    FindFirst(s, d, 0);
  }

  /** A condition met behind the position is met by the whole buffer, on which the callback then works. */
  lemma MetBehind(onFailure: OnFailure, w: Wire, k: nat)
    requires k <= |w.buffer| && Condition(onFailure, w.wait, w.buffer[k..]).1
    ensures Matched(w)
  {
    hide Find;
    match w.wait {
      case OnHeaders => FoundBehind(w.buffer, BLANK_LINE, k);
      case OnChunkSize(_) => FoundBehind(w.buffer, CRLF, k);
      case _ =>
    }
  }

  /** Attempts and callbacks alternate until an attempt fails; a newly armed read begins at the front. */
  function PumpScan(onFailure: OnFailure, inflate: Inflate, s: Scan): (r: Scan)
    requires s.position <= |s.wire.buffer|
    ensures r.position <= |r.wire.buffer|
    decreases |s.wire.buffer|, Rank(s.wire.wait)
  {
    var (offset, met) := Condition(onFailure, s.wire.wait, s.wire.buffer[s.position..]);
    if met then
      MetBehind(onFailure, s.wire, s.position);
      FireDecreases(inflate, s.wire);
      PumpScan(onFailure, inflate, Scan(Fire(inflate, s.wire), 0))
    else Scan(s.wire, s.position + offset)
  }

  function FeedScan(onFailure: OnFailure, inflate: Inflate, s: Scan, segments: seq<string>): (r: Scan)
    requires s.position <= |s.wire.buffer|
    ensures r.position <= |r.wire.buffer|
    decreases |segments|
  {
    if segments == [] then s
    else
      var next := PumpScan(onFailure, inflate, Scan(Arrive(s.wire, segments[0]), s.position));
      FeedScan(onFailure, inflate, next, segments[1..])
  }

  const START_SCAN := Scan(START, 0)

  // ---------------------------------------------------------------- conditions that return begin

  /** From the front of the buffer, the read fires exactly when its delimiter or its bytes are there, and otherwise
  begins at the front again. */
  lemma FiresIffMatched(w: Wire)
    ensures var (offset, met) := Condition(FromBegin, w.wait, w.buffer); (met <==> Matched(w)) && (!met ==> offset == 0)
  {
    hide Find;
    if w.wait.OnHeaders? { FindFirst(w.buffer, BLANK_LINE, 0); }
    if w.wait.OnChunkSize? { FindFirst(w.buffer, CRLF, 0); }
  }

  /** So the position stays at the front, and the attempts are those of `Pump`. */
  lemma {:induction false} PositionStays(inflate: Inflate, w: Wire)
    ensures PumpScan(FromBegin, inflate, Scan(w, 0)) == Scan(Pump(inflate, w), 0)
    decreases |w.buffer|, Rank(w.wait)
  {
    hide Condition, Matched, Fire;
    FiresIffMatched(w);
    assert w.buffer[0..] == w.buffer;
    PumpStep(inflate, w);
    if Matched(w) {
      FireDecreases(inflate, w);
      PositionStays(inflate, Fire(inflate, w));
    }
  }

  lemma {:induction false} FeedKeepsPosition(inflate: Inflate, w: Wire, segments: seq<string>)
    ensures FeedScan(FromBegin, inflate, Scan(w, 0), segments) == Scan(FeedAll(inflate, w, segments), 0)
    decreases |segments|
  {
    hide PumpScan, Pump;
    if segments != [] {
      PositionStays(inflate, Arrive(w, segments[0]));
      FeedKeepsPosition(inflate, Pump(inflate, Arrive(w, segments[0])), segments[1..]);
    }
  }

  /** For every stream and every way of cutting it, also inside a delimiter, the re-armed reader makes the same calls,
  reports the same protocol error and leaves the same text as a one-shot parse of the whole stream. */
  lemma SegmentationIndependence(inflate: Inflate, segments: seq<string>)
    ensures var r := FeedScan(FromBegin, inflate, START_SCAN, segments);
      SameAs(r.wire, ParseStream(inflate, Concat(segments)), []) && r.position == 0
  {
    FeedKeepsPosition(inflate, START, segments);
    HttpReader.SegmentationIndependence(inflate, segments);
  }

  /** Two cuts of the same stream cannot be told apart, not even in the middle of a message. */
  lemma CutsAreEquivalent(inflate: Inflate, one: seq<string>, other: seq<string>)
    requires Concat(one) == Concat(other)
    ensures FeedScan(FromBegin, inflate, START_SCAN, one) == FeedScan(FromBegin, inflate, START_SCAN, other)
  {
    FeedKeepsPosition(inflate, START, one);
    FeedKeepsPosition(inflate, START, other);
    HttpReader.CutsAreEquivalent(inflate, one, other);
  }

  // ---------------------------------------------------------------- conditions that return end

  lemma TooShort(text: string, d: string)
    requires |text| < |d|
    ensures Find(text, d, 0) == None
  {
    FindFirst(text, d, 0);
  }

  lemma NotYet(s: string, d: string, i: nat, k: nat)
    requires Find(s, d, 0) == Some(i) && k < i + |d| && k <= |s|
    ensures Find(s[..k], d, 0) == None
  {
    FindFirst(s, d, 0);
    assert s[..k] + s[k..] == s;
    forall j: nat | j + |d| <= k ensures !At(s[..k], d, j) { AtInExtension(s[..k], d, s[k..], j); }
    FindFirst(s[..k], d, 0);
  }

  /** A stalled reader: nothing of the buffer was consumed and no handler called. */
  lemma StalledAttempt(inflate: Inflate, buffer: string, position: nat)
    requires position <= |buffer| && Find(buffer[position..], BLANK_LINE, 0) == None
    ensures PumpScan(FromEnd, inflate, Scan(Wire(buffer, OnHeaders, []), position))
      == Scan(Wire(buffer, OnHeaders, []), |buffer|)
  {
    hide Find;
  }

  lemma FeedTwo(onFailure: OnFailure, inflate: Inflate, a: string, b: string)
    ensures var first := PumpScan(onFailure, inflate, Scan(Wire(a, OnHeaders, []), 0));
      FeedScan(onFailure, inflate, START_SCAN, [a, b])
        == PumpScan(onFailure, inflate, Scan(Arrive(first.wire, b), first.position))
  {
    hide PumpScan;
    var first := PumpScan(onFailure, inflate, Scan(Wire(a, OnHeaders, []), 0));
    assert Arrive(START, a) == Wire(a, OnHeaders, []);
    assert [a, b][1..] == [b] && [b][1..] == [];
    var second := PumpScan(onFailure, inflate, Scan(Arrive(first.wire, b), first.position));
    assert FeedScan(onFailure, inflate, second, []) == second;
    assert FeedScan(onFailure, inflate, first, [b]) == second;
  }

  /** Returning `begin` matters: with conditions that return `end`, every header block that arrives in two segments
  with its blank line cut in two is missed, although it is complete. */
  lemma EndMissesStraddlingDelimiter(inflate: Inflate, s: string, i: nat, k: nat)
    requires Find(s, BLANK_LINE, 0) == Some(i) && |s| == i + 4 && i < k < i + 4
    ensures var segments := [s[..k], s[k..]];
      && FeedScan(FromEnd, inflate, START_SCAN, segments) == Scan(Wire(s, OnHeaders, []), |s|)
      && FeedScan(FromBegin, inflate, START_SCAN, segments).wire == Pump(inflate, Wire(s, OnHeaders, []))
      && Matched(Wire(s, OnHeaders, []))
  {
    hide Find, Pump, Fire, PumpScan;
    var segments := [s[..k], s[k..]];
    FeedTwo(FromEnd, inflate, s[..k], s[k..]);
    NotYet(s, BLANK_LINE, i, k);
    TooShort(s[k..], BLANK_LINE);
    assert s[..k][0..] == s[..k] && s[..k] + s[k..] == s;
    StalledAttempt(inflate, s[..k], 0);
    StalledAttempt(inflate, s, k);
    FeedKeepsPosition(inflate, START, segments);
    FeedAllIsPump(inflate, START, segments);
    assert segments[1..] == [s[k..]] && Concat([s[k..]]) == s[k..];
    assert Arrive(START, s) == Wire(s, OnHeaders, []);
  }
}
