/** Chunked transfer coding: the server's framing (bjoern/wsgi.c, wrap_http_chunk_cruft_around)
    and the client's decoder (RFC 7230, section 4.1). */
module ChunkedCoding {
  import opened Octets
  import opened MessageSyntax

  const TERMINATOR := "0\r\n\r\n"
  const UINT_SIZE := 0x1_0000_0000
  const CHUNK_LIMIT := 0x1000_0000
  /** strlen("ffffffff") + 2 */
  const LENGTH_BUFFER := 10

  // printf's %x

  function HexDigit(d: int): char
    requires 0 <= d < 16
  {
    if d < 10 then (d + '0' as int) as char else (d - 10 + 'a' as int) as char
  }

  function Hex(n: nat): (s: string)
    ensures s != ""
  {
    if n < 16 then [HexDigit(n)] else Hex(n / 16) + [HexDigit(n % 16)]
  }

  /** The line sprintf leaves in the buffer: the size as an unsigned int, and CRLF. */
  function SizeLine(chunk: string): string { Hex(|chunk| % UINT_SIZE) + CRLF }

  function Frame(chunk: string): string { SizeLine(chunk) + chunk + CRLF }

  function Frames(chunks: seq<string>): string {
    if chunks == [] then "" else Frame(chunks[0]) + Frames(chunks[1..])
  }

  predicate Framable(chunk: string) { 0 < |chunk| < CHUNK_LIMIT }

  predicate AllFramable(chunks: seq<string>) { forall i :: 0 <= i < |chunks| ==> Framable(chunks[i]) }

  function Pow16(k: nat): nat { if k == 0 then 1 else 16 * Pow16(k - 1) }

  lemma {:induction false} Pow16AtLeast(k: nat)
    requires k >= 1
    ensures Pow16(k) >= 16
  {
    if k > 1 { Pow16AtLeast(k - 1); }
  }

  lemma {:induction false} HexLength(n: nat, k: nat)
    requires k >= 1
    ensures |Hex(n)| <= k <==> n < Pow16(k)
  {
    if n < 16 {
      Pow16AtLeast(k);
    } else if k == 1 {
      assert Pow16(1) == 16;
    } else {
      HexLength(n / 16, k - 1);
      assert n / 16 < Pow16(k - 1) <==> n < 16 * Pow16(k - 1);
    }
  }

  /** The digits, CR, LF and sprintf's NUL fit the ten-octet buffer exactly for sizes below 2^28. */
  lemma SizeLineFits(n: nat)
    ensures |Hex(n) + CRLF| + 1 <= LENGTH_BUFFER <==> n < CHUNK_LIMIT
  {
    HexLength(n, 7);
    assert Pow16(7) == 16 * Pow16(6) && Pow16(6) == 16 * Pow16(5) && Pow16(5) == 16 * Pow16(4);
    assert Pow16(4) == 16 * Pow16(3) && Pow16(3) == 16 * Pow16(2) && Pow16(2) == 16 * Pow16(1);
  }

  // The client's decoder

  function HexValue(s: string): nat
    requires forall c :: c in s ==> HexDigitValue(c) >= 0
  {
    if s == "" then 0
    else
      assert HexDigitValue(s[|s| - 1]) >= 0;
      HexValue(s[..|s| - 1]) * 16 + HexDigitValue(s[|s| - 1])
  }

  function UpTo(s: string, c: char): string {
    if s == "" || s[0] == c then "" else [s[0]] + UpTo(s[1..], c)
  }

  /** chunk-size = 1*HEXDIG; a chunk extension starts with ';' and is ignored. */
  function ChunkSize(line: string): Option<nat> {
    var digits := UpTo(line, ';');
    if digits != "" && forall c :: c in digits ==> HexDigitValue(c) >= 0
    then Some(HexValue(digits)) else None
  }

  function PrependBody(a: string, r: Parse<string>): Parse<string> {
    if r.Done? then Done(a + r.value, r.rest) else r
  }

  /** A whole chunked body: chunks, the last chunk, trailer fields, the empty line. */
  function DecodeChunked(s: string): (r: Parse<string>)
    ensures r.Done? ==> |r.rest| < |s|
    decreases |s|
  {
    match TakeLine(s)
    case None => More
    case Some((line, rest)) =>
      match ChunkSize(line)
      case None => Bad
      case Some(n) => DecodeSized(n, rest)
  }

  /** Behind the size line: the trailer for size 0, otherwise the data, its CRLF and the next chunk. */
  function DecodeSized(n: nat, rest: string): (r: Parse<string>)
    ensures r.Done? ==> |r.rest| <= |rest|
    decreases |rest|
  {
    if n == 0 then
      match ParseFields(rest)
      case Done(_, r) => Done("", r)
      case More => More
      case Bad => Bad
    else if |rest| < n + 2 then More
    else if rest[n..n + 2] != CRLF then Bad
    else PrependBody(rest[..n], DecodeChunked(rest[n + 2..]))
  }

  lemma ChunkDataStays(rest: string, t: string, n: nat)
    requires n + 2 <= |rest|
    ensures (rest + t)[n..n + 2] == rest[n..n + 2]
    ensures (rest + t)[..n] == rest[..n]
    ensures (rest + t)[n + 2..] == rest[n + 2..] + t
  {
  }

  /** A decided answer of the decoder survives further octets. */
  lemma {:induction false} DecodeChunkedStable(s: string, t: string)
    ensures Stable(DecodeChunked(s), DecodeChunked(s + t), t)
    decreases |s|
  {
    if TakeLine(s).Some? {
      TakeLineExtends(s, t);
      var line, rest := TakeLine(s).value.0, TakeLine(s).value.1;
      if ChunkSize(line).Some? {
        DecodeSizedStable(ChunkSize(line).value, rest, t);
      }
    }
  }

  lemma {:induction false} DecodeSizedStable(n: nat, rest: string, t: string)
    ensures Stable(DecodeSized(n, rest), DecodeSized(n, rest + t), t)
    decreases |rest|
  {
    if n == 0 {
      ParseFieldsStable(rest, t);
    } else if |rest| >= n + 2 {
      ChunkDataStays(rest, t, n);
      DecodeChunkedStable(rest[n + 2..], t);
    }
  }

  /** No proper prefix of a complete encoding is a complete encoding, with or without octets to spare. */
  lemma NoProperPrefixIsComplete(s: string, k: nat)
    requires DecodeChunked(s).Done? && DecodeChunked(s).rest == ""
    requires k < |s|
    ensures DecodeChunked(s[..k]).More?
  {
    assert s == s[..k] + s[k..];
    DecodeChunkedStable(s[..k], s[k..]);
  }

  // Hexadecimal sizes read back

  lemma {:induction false} HexReadsBack(n: nat)
    ensures forall c :: c in Hex(n) ==> HexDigitValue(c) >= 0 && c != ';' && c != '\r'
    ensures HexValue(Hex(n)) == n
  {
    if n >= 16 {
      HexReadsBack(n / 16);
      var s := Hex(n);
      assert s[..|s| - 1] == Hex(n / 16);
    }
  }

  lemma {:induction false} UpToAbsent(s: string, c: char)
    requires c !in s
    ensures UpTo(s, c) == s
  {
    if s != "" {
      assert s[0] in s;
      assert forall d :: d in s[1..] ==> d in s;
      UpToAbsent(s[1..], c);
    }
  }

  lemma ChunkSizeOfHex(n: nat)
    ensures NoCR(Hex(n)) && ChunkSize(Hex(n)) == Some(n)
  {
    HexReadsBack(n);
    UpToAbsent(Hex(n), ';');
  }

  lemma DecodeTerminator(rest: string)
    ensures DecodeChunked(TERMINATOR + rest) == Done("", rest)
  {
    ChunkSizeOfHex(0);
    assert Hex(0) == "0";
    TakeLineOf("0", CRLF + rest);
    assert TERMINATOR + rest == "0" + CRLF + (CRLF + rest);
    assert CRLF + rest == "" + CRLF + rest;
    TakeLineOf("", rest);
  }

  lemma DecodeFrame(chunk: string, s: string)
    requires Framable(chunk)
    ensures DecodeChunked(Frame(chunk) + s) == PrependBody(chunk, DecodeChunked(s))
  {
    var n := |chunk|;
    ChunkSizeOfHex(n);
    var behind := chunk + CRLF + s;
    assert Frame(chunk) + s == Hex(n) + CRLF + behind;
    TakeLineOf(Hex(n), behind);
    assert behind[n..n + 2] == CRLF && behind[..n] == chunk && behind[n + 2..] == s;
  }

  /** Decoding the server's frames and terminator gives back the chunks and uses up every octet. */
  lemma {:induction false} DecodeFrames(chunks: seq<string>, rest: string)
    requires AllFramable(chunks)
    ensures DecodeChunked(Frames(chunks) + TERMINATOR + rest) == Done(Flatten(chunks), rest)
  {
    if chunks == [] {
      assert Frames(chunks) + TERMINATOR + rest == TERMINATOR + rest;
      DecodeTerminator(rest);
    } else {
      var s := Frames(chunks[1..]) + TERMINATOR + rest;
      assert Frames(chunks) + TERMINATOR + rest == Frame(chunks[0]) + s;
      assert Framable(chunks[0]);
      DecodeFrame(chunks[0], s);
      DecodeFrames(chunks[1..], rest);
    }
  }

  /** wrap_http_chunk_cruft_around. Both buffers have the source's sizes, so the bounds
      checks of Put say that neither is overrun; the output is filled to its last octet. */
  method WrapHttpChunkCruftAround(chunk: string) returns (newChunk: string)
    requires Framable(chunk)
    ensures newChunk == Frame(chunk)
    ensures DecodeChunked(newChunk + TERMINATOR) == Done(chunk, "")
  {
    var chunklen := |chunk|;
    var buf := new char[LENGTH_BUFFER];
    SizeLineFits(chunklen);
    var line := Hex(chunklen % UINT_SIZE) + CRLF;
    var n := Put(buf, 0, line);
    var _ := Put(buf, n, "\0");
    assert buf[..n] == line by {
      assert buf[..n] == buf[..n + 1][..n];
    }
    var out := new char[n + chunklen + 2];
    var p := Put(out, 0, buf[..n]);
    p := Put(out, p, chunk);
    p := Put(out, p, CRLF);
    assert p == out.Length;
    newChunk := out[..];
    assert newChunk == out[..p] == line + chunk + CRLF;
    assert newChunk + TERMINATOR == Frames([chunk]) + TERMINATOR + "" by {
      assert [chunk][1..] == [];
      assert Frames([chunk]) == Frame(chunk) + "";
    }
    DecodeFrames([chunk], "");
    FlattenSingle(chunk);
  }

  /** Why empty items must be skipped: framed, the empty chunk is the end of the body,
      whatever follows it, and the chunks behind it are lost. */
  lemma EmptyFrameEndsBody(chunks: seq<string>, rest: string)
    requires AllFramable(chunks)
    ensures DecodeChunked(Frames(chunks) + Frame("") + rest) == Done(Flatten(chunks), rest)
  {
    assert Frame("") == TERMINATOR by {
      assert Hex(0) == "0";
      assert "0" + CRLF + "" + CRLF == TERMINATOR;
    }
    DecodeFrames(chunks, rest);
  }
}
