/** The chunked transfer coding of RFC 7230 section 4.1, without extensions and trailers, and its inversion
by the chunk loop of net/client.cpp. */
module Chunked {
  import opened Wrappers
  import opened Text
  import opened Numbers
  import opened Http
  import opened HttpMessages

  /** A chunk as sent: its size line may be any hexadecimal spelling of the length. */
  datatype Chunk = Chunk(sizeLine: string, data: string)

  predicate SpellsSize(line: string, n: nat) {
    line != "" && AllDigits(line, 16) && Value(line, 16) == n
  }

  /** `chunk_size + 2` must fit in `size_t`. */
  predicate ValidChunk(c: Chunk) {
    0 < |c.data| < U64 - 2 && SpellsSize(c.sizeLine, |c.data|)
  }

  function Data(chunks: seq<Chunk>): string {
    if |chunks| == 0 then "" else chunks[0].data + Data(chunks[1..])
  }

  /** The chunks, without the end of the coding. */
  function EncodedFront(chunks: seq<Chunk>): string {
    if |chunks| == 0 then ""
    else chunks[0].sizeLine + CRLF + (chunks[0].data + CRLF + EncodedFront(chunks[1..]))
  }

  function Encoded(chunks: seq<Chunk>, lastLine: string): string {
    EncodedFront(chunks) + (lastLine + CRLF + CRLF)
  }

  lemma SizeLineIsRead(line: string, n: nat, rest: string)
    requires SpellsSize(line, n) && n < U64
    ensures var s := line + CRLF + rest;
      Find(s, CRLF, 0) == Some(|line|) && s[..|line|] == line && s[|line| + 2..] == rest && ChunkSize(line) == Some(n)
  {
    hide Find, Stoul;
    forall i | 0 <= i < |line| ensures line[i] != CRLF[0] { assert DigitValue(line[i]) < 16; }
    NoDelimiterInside(line, CRLF);
    NoBorders();
    FindAfterPart(line, CRLF, rest);
    StoulOfDigits(line, 16);
  }

  /** At a size line, the loop reads the size and goes on with the data. */
  lemma SizeLineStep(inflate: Inflate, reply: HttpReply, line: string, n: nat, rest: string)
    requires SpellsSize(line, n) && n < U64
    ensures ParseChunks(inflate, reply, line + CRLF + rest) == ParseChunkData(inflate, reply, n, rest)
  {
    hide ChunkSize, Find, ParseChunkData;
    SizeLineIsRead(line, n, rest);
  }

  lemma DataStep(inflate: Inflate, reply: HttpReply, data: string, rest: string)
    requires 0 < |data| < U64 - 2
    ensures ParseChunkData(inflate, reply, |data|, data + CRLF + rest)
      == ParseChunks(inflate, reply.(body := reply.body + data), rest)
  {
    hide ParseChunks;
    var s := data + CRLF + rest;
    assert ChunkSpan(|data|) == |data| + 2;
    assert s[..|data| + 2][..|data|] == data && s[|data| + 2..] == rest;
  }

  lemma LastStep(inflate: Inflate, reply: HttpReply, rest: string)
    ensures ParseChunkData(inflate, reply, 0, CRLF + rest) == Complete(Finish(inflate, reply), rest)
  {
    hide Finish;
    var s := CRLF + rest;
    assert s[2..] == rest && reply.body + Prefix(s[..2], 0) == reply.body;
  }

  lemma Regroup(a: string, b: string, c: string, d: string)
    ensures a + CRLF + (b + CRLF + c) + d == a + CRLF + (b + CRLF + (c + d))
  {
  }

  /** The chunk loop appends exactly the data of the chunks and goes on behind them. */
  lemma {:induction false} FrontIsDecoded(inflate: Inflate, reply: HttpReply, chunks: seq<Chunk>, rest: string)
    requires forall i :: 0 <= i < |chunks| ==> ValidChunk(chunks[i])
    ensures ParseChunks(inflate, reply, EncodedFront(chunks) + rest)
      == ParseChunks(inflate, reply.(body := reply.body + Data(chunks)), rest)
    decreases |chunks|
  {
    hide ParseChunks, ParseChunkData, SpellsSize;
    if |chunks| == 0 {
      assert "" + rest == rest && reply.body + "" == reply.body;
    } else {
      var c, more := chunks[0], EncodedFront(chunks[1..]) + rest;
      var longer := reply.(body := reply.body + c.data);
      Regroup(c.sizeLine, c.data, EncodedFront(chunks[1..]), rest);
      SizeLineStep(inflate, reply, c.sizeLine, |c.data|, c.data + CRLF + more);
      DataStep(inflate, reply, c.data, more);
      FrontIsDecoded(inflate, longer, chunks[1..], rest);
      assert reply.body + c.data + Data(chunks[1..]) == reply.body + Data(chunks);
    }
  }

  /** The chunk loop ends with exactly the data of the chunks and leaves exactly what follows the coding. */
  lemma DecodingInvertsEncoding(inflate: Inflate, reply: HttpReply, chunks: seq<Chunk>, lastLine: string, tail: string)
    requires (forall i :: 0 <= i < |chunks| ==> ValidChunk(chunks[i])) && SpellsSize(lastLine, 0)
    ensures ParseChunks(inflate, reply, Encoded(chunks, lastLine) + tail)
      == Complete(Finish(inflate, reply.(body := reply.body + Data(chunks))), tail)
  {
    hide ParseChunks, ParseChunkData, Finish, SpellsSize, EncodedFront, Data;
    var longer := reply.(body := reply.body + Data(chunks));
    assert Encoded(chunks, lastLine) + tail == EncodedFront(chunks) + (lastLine + CRLF + (CRLF + tail));
    FrontIsDecoded(inflate, reply, chunks, lastLine + CRLF + (CRLF + tail));
    SizeLineStep(inflate, longer, lastLine, 0, CRLF + tail);
    LastStep(inflate, longer, tail);
  }

  /** The spelling the C library prints is one of those covered. */
  lemma PrintedSizeSpells(data: string)
    ensures SpellsSize(Printed(|data|, 16), |data|)
  {
    PrintedIsNumeral(|data|, 16);
  }
}
