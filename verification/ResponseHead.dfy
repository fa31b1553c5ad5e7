/** bjoern/wsgi.c, wsgi_getheaders: the response head, written through a moving pointer
    into a buffer whose size was computed beforehand. */
module ResponseHead {
  import opened Octets
  import opened MessageSyntax

  const VERSION := "HTTP/1.1 "
  const KEEP_ALIVE_LINE := "\r\nConnection: Keep-Alive"
  const CHUNKED_LINE := "\r\nTransfer-Encoding: chunked"
  const CLOSE_LINE := "\r\nConnection: close"

  /** The fields the server adds itself. */
  function OwnFields(keepAlive: bool, chunked: bool): seq<Field> {
    if !keepAlive then [Field("Connection", "close")]
    else if chunked then [Field("Connection", "Keep-Alive"), Field("Transfer-Encoding", "chunked")]
    else [Field("Connection", "Keep-Alive")]
  }

  /** The head as RFC 7230 lays it out: a status line, the field lines, an empty line. */
  function Render(status: string, headers: seq<Field>, keepAlive: bool, chunked: bool): string {
    VERSION + status + CRLF + FieldLines(headers + OwnFields(keepAlive, chunked)) + CRLF
  }

  function Room(f: Field): nat { |CRLF| + |f.name| + |": "| + |f.value| }

  function FieldRoom(headers: seq<Field>): nat {
    if headers == [] then 0
    else FieldRoom(headers[..|headers| - 1]) + Room(headers[|headers| - 1])
  }

  /** What the first pass adds up. */
  function UpperBound(status: string, headers: seq<Field>): nat {
    |VERSION| + |status| + |KEEP_ALIVE_LINE| + |CHUNKED_LINE| + |"\r\n\r\n"| + FieldRoom(headers)
  }

  /** Octets of the buffer left unused. */
  function Slack(keepAlive: bool, chunked: bool): nat {
    if !keepAlive then 33 else if chunked then 0 else 28
  }

  // The second pass writes the line break in front of each field, not behind it

  function BreakLines(fs: seq<Field>): string {
    if fs == [] then "" else BreakLines(fs[..|fs| - 1]) + CRLF + FieldLine(fs[|fs| - 1])
  }

  lemma {:induction false} BreaksAppend(a: seq<Field>, b: seq<Field>)
    ensures BreakLines(a + b) == BreakLines(a) + BreakLines(b)
  {
    if b == [] {
      assert a + b == a;
    } else {
      var c, b' := a + b, b[..|b| - 1];
      assert c[..|c| - 1] == a + b';
      BreaksAppend(a, b');
      var line := FieldLine(b[|b| - 1]);
      Regrouped(BreakLines(a) + BreakLines(b'), CRLF, line);
      Regrouped(BreakLines(a), BreakLines(b'), CRLF + line);
      Regrouped(BreakLines(b'), CRLF, line);
    }
  }

  lemma BreakInFront(cr: string, line: string, lines: string, breaks: string)
    requires cr + lines == breaks + cr
    ensures cr + (line + cr + lines) == cr + line + breaks + cr
  {
    assert cr + (line + cr + lines) == cr + line + (cr + lines);
    assert cr + line + (breaks + cr) == cr + line + breaks + cr;
  }

  lemma BreaksOfOne(f: Field)
    ensures BreakLines([f]) == CRLF + FieldLine(f)
  {
    assert [f][..0] == [];
    assert BreakLines([]) == "";
    assert "" + CRLF + FieldLine(f) == CRLF + FieldLine(f);
  }

  lemma {:induction false} BreaksAreLines(fs: seq<Field>)
    ensures CRLF + FieldLines(fs) == BreakLines(fs) + CRLF
  {
    if fs != [] {
      BreaksAreLines(fs[1..]);
      BreaksAppend([fs[0]], fs[1..]);
      assert [fs[0]] + fs[1..] == fs;
      BreaksOfOne(fs[0]);
      BreakInFront(CRLF, FieldLine(fs[0]), FieldLines(fs[1..]), BreakLines(fs[1..]));
    }
  }

  lemma {:induction false} BreaksLength(fs: seq<Field>)
    ensures |BreakLines(fs)| == FieldRoom(fs)
  {
    if fs != [] { BreaksLength(fs[..|fs| - 1]); }
  }

  lemma OwnLine(name: string, value: string, line: string)
    requires line == CRLF + FieldLine(Field(name, value))
    ensures BreakLines([Field(name, value)]) == line
  {
    BreaksOfOne(Field(name, value));
  }

  lemma CloseBreak()
    ensures BreakLines([Field("Connection", "close")]) == CLOSE_LINE
  {
    OwnLine("Connection", "close", CLOSE_LINE);
  }

  lemma KeepAliveBreak()
    ensures BreakLines([Field("Connection", "Keep-Alive")]) == KEEP_ALIVE_LINE
  {
    OwnLine("Connection", "Keep-Alive", KEEP_ALIVE_LINE);
  }

  lemma ChunkedBreak()
    ensures BreakLines([Field("Transfer-Encoding", "chunked")]) == CHUNKED_LINE
  {
    OwnLine("Transfer-Encoding", "chunked", CHUNKED_LINE);
  }

  lemma OwnBreaks(keepAlive: bool, chunked: bool)
    ensures BreakLines(OwnFields(keepAlive, chunked))
      == if !keepAlive then CLOSE_LINE else if chunked then KEEP_ALIVE_LINE + CHUNKED_LINE else KEEP_ALIVE_LINE
  {
    CloseBreak();
    KeepAliveBreak();
    if chunked {
      ChunkedBreak();
      BreaksAppend([Field("Connection", "Keep-Alive")], [Field("Transfer-Encoding", "chunked")]);
    }
  }

  lemma Regroup(a: string, b: string, c: string, lines: string, x: string, y: string)
    requires c + lines == x + y + c
    ensures a + b + c + lines + c == a + b + x + y + c + c
  {
    assert a + b + c + lines + c == a + b + (c + lines) + c;
    assert a + b + (x + y + c) + c == a + b + x + y + c + c;
  }

  lemma OwnBreaksLength(keepAlive: bool, chunked: bool)
    ensures |BreakLines(OwnFields(keepAlive, chunked))| + Slack(keepAlive, chunked)
            == |KEEP_ALIVE_LINE| + |CHUNKED_LINE|
  {
    OwnBreaks(keepAlive, chunked);
    assert |KEEP_ALIVE_LINE| == 24 && |CHUNKED_LINE| == 28 && |CLOSE_LINE| == 19;
  }

  /** The two layouts are one head, and the bound is missed by exactly the slack. */
  lemma RenderInBreaks(status: string, headers: seq<Field>, keepAlive: bool, chunked: bool)
    ensures Render(status, headers, keepAlive, chunked)
         == VERSION + status + BreakLines(headers) + BreakLines(OwnFields(keepAlive, chunked)) + CRLF + CRLF
    ensures |Render(status, headers, keepAlive, chunked)| + Slack(keepAlive, chunked) == UpperBound(status, headers)
  {
    var own := OwnFields(keepAlive, chunked);
    BreaksAreLines(headers + own);
    BreaksAppend(headers, own);
    Regroup(VERSION, status, CRLF, FieldLines(headers + own), BreakLines(headers), BreakLines(own));
    BreaksLength(headers);
    OwnBreaksLength(keepAlive, chunked);
  }

  lemma FieldRoomGrows(headers: seq<Field>, i: nat)
    requires i < |headers|
    ensures FieldRoom(headers[..i + 1]) == FieldRoom(headers[..i]) + Room(headers[i])
    ensures BreakLines(headers[..i + 1]) == BreakLines(headers[..i]) + CRLF + FieldLine(headers[i])
  {
    assert headers[..i + 1][..i] == headers[..i];
  }

  lemma {:induction false} FieldRoomMonotone(headers: seq<Field>, i: nat)
    requires i <= |headers|
    ensures FieldRoom(headers[..i]) <= FieldRoom(headers)
    decreases |headers| - i
  {
    if i == |headers| {
      assert headers[..i] == headers;
    } else {
      FieldRoomGrows(headers, i);
      FieldRoomMonotone(headers, i + 1);
    }
  }

  /** First pass: add up the room. */
  method SumRoom(status: string, headers: seq<Field>) returns (upper: nat)
    ensures upper == UpperBound(status, headers)
  {
    upper := |VERSION| + |status| + |KEEP_ALIVE_LINE| + |CHUNKED_LINE| + |"\r\n\r\n"|;
    var i := 0;
    while i < |headers|
      invariant 0 <= i <= |headers|
      invariant upper == UpperBound(status, headers[..i])
    {
      FieldRoomGrows(headers, i);
      upper := upper + |CRLF| + |headers[i].name| + |": "| + |headers[i].value|;
      i := i + 1;
    }
    assert headers[..|headers|] == headers;
  }

  method WriteField(buf: array<char>, p: nat, f: Field) returns (q: nat)
    requires p + Room(f) <= buf.Length
    modifies buf
    ensures q == p + Room(f)
    ensures buf[..q] == old(buf[..p]) + (CRLF + FieldLine(f))
  {
    q := Put(buf, p, CRLF);
    q := Put(buf, q, f.name);
    q := Put(buf, q, ": ");
    q := Put(buf, q, f.value);
  }

  /** Second pass, the loop over the headers. */
  method WriteFields(buf: array<char>, p: nat, headers: seq<Field>) returns (q: nat)
    requires p + FieldRoom(headers) <= buf.Length
    modifies buf
    ensures q == p + FieldRoom(headers)
    ensures buf[..q] == old(buf[..p]) + BreakLines(headers)
  {
    ghost var front := buf[..p];
    q := p;
    var i := 0;
    while i < |headers|
      invariant 0 <= i <= |headers|
      invariant q == p + FieldRoom(headers[..i]) <= buf.Length
      invariant buf[..q] == front + BreakLines(headers[..i])
    {
      FieldRoomGrows(headers, i);
      FieldRoomMonotone(headers, i + 1);
      q := WriteField(buf, q, headers[i]);
      Regrouped(BreakLines(headers[..i]), CRLF, FieldLine(headers[i]));
      Regrouped(front, BreakLines(headers[..i]), CRLF + FieldLine(headers[i]));
      i := i + 1;
    }
    assert headers[..|headers|] == headers;
  }

  method WriteStatusLine(buf: array<char>, status: string) returns (p: nat)
    requires |VERSION| + |status| <= buf.Length
    modifies buf
    ensures p == |VERSION| + |status| && buf[..p] == VERSION + status
  {
    p := Put(buf, 0, VERSION);
    p := Put(buf, p, status);
  }

  method WriteOwnFields(buf: array<char>, p: nat, keepAlive: bool, chunked: bool) returns (q: nat)
    requires p + |BreakLines(OwnFields(keepAlive, chunked))| <= buf.Length
    modifies buf
    ensures q == p + |BreakLines(OwnFields(keepAlive, chunked))|
    ensures buf[..q] == old(buf[..p]) + BreakLines(OwnFields(keepAlive, chunked))
  {
    OwnBreaks(keepAlive, chunked);
    if keepAlive {
      q := Put(buf, p, KEEP_ALIVE_LINE);
      if chunked {
        q := Put(buf, q, CHUNKED_LINE);
        Regrouped(old(buf[..p]), KEEP_ALIVE_LINE, CHUNKED_LINE);
      }
    } else {
      q := Put(buf, p, CLOSE_LINE);
    }
  }

  lemma RoomIsExact(status: string, headers: seq<Field>, keepAlive: bool, chunked: bool)
    ensures |VERSION| + |status| + FieldRoom(headers) + |BreakLines(OwnFields(keepAlive, chunked))| + |"\r\n\r\n"|
         == UpperBound(status, headers) - Slack(keepAlive, chunked)
  {
    OwnBreaksLength(keepAlive, chunked);
  }

  lemma SplitEnd(s: string)
    ensures s + "\r\n\r\n" == s + CRLF + CRLF
  {
  }

  lemma HeadIsComplete(status: string, headers: seq<Field>, keepAlive: bool, chunked: bool)
    ensures VERSION + status + BreakLines(headers) + BreakLines(OwnFields(keepAlive, chunked)) + "\r\n\r\n"
         == Render(status, headers, keepAlive, chunked)
  {
    RenderInBreaks(status, headers, keepAlive, chunked);
    SplitEnd(VERSION + status + BreakLines(headers) + BreakLines(OwnFields(keepAlive, chunked)));
  }

  /** The bounds checks of Put say that no write goes past `length_upperbound`. */
  method GetHeaders(status: string, headers: seq<Field>, keepAlive: bool, chunked: bool)
    returns (buf: array<char>, length: nat)
    ensures length <= buf.Length
    ensures buf[..length] == Render(status, headers, keepAlive, chunked)
    ensures buf.Length == length + Slack(keepAlive, chunked)
  {
    var upper := SumRoom(status, headers);
    RoomIsExact(status, headers, keepAlive, chunked);
    buf := new char[upper];
    var p := WriteStatusLine(buf, status);
    p := WriteFields(buf, p, headers);
    p := WriteOwnFields(buf, p, keepAlive, chunked);
    length := Put(buf, p, "\r\n\r\n");
    HeadIsComplete(status, headers, keepAlive, chunked);
  }

  // Print and parse

  lemma OwnFieldPrintable(name: string, value: string)
    requires IsToken(name) && NoCR(value)
    requires value != "" && !IsBlank(value[0]) && !IsBlank(value[|value| - 1])
    ensures Printable(Field(name, value)) && Received(Field(name, value)) == Field(name, value)
  {
  }

  lemma ConnectionPrintable(value: string)
    requires value == "close" || value == "Keep-Alive"
    ensures Printable(Field("Connection", value)) && Received(Field("Connection", value)) == Field("Connection", value)
  {
    OwnFieldPrintable("Connection", value);
  }

  lemma CodingPrintable()
    ensures Printable(Field("Transfer-Encoding", "chunked"))
    ensures Received(Field("Transfer-Encoding", "chunked")) == Field("Transfer-Encoding", "chunked")
  {
    OwnFieldPrintable("Transfer-Encoding", "chunked");
  }

  lemma OwnFieldsPrintable(keepAlive: bool, chunked: bool)
    ensures AllPrintable(OwnFields(keepAlive, chunked))
    ensures AllReceived(OwnFields(keepAlive, chunked)) == OwnFields(keepAlive, chunked)
  {
    ConnectionPrintable(if keepAlive then "Keep-Alive" else "close");
    CodingPrintable();
  }

  lemma VersionLine(status: string)
    requires IsStatus(status) && NoCR(status)
    ensures IsStatusLine(VERSION + status) && (VERSION + status)[9..] == status && NoCR(VERSION + status)
  {
    assert (VERSION + status)[..7] == "HTTP/1.";
  }

  lemma {:induction false} ReceivedAppend(a: seq<Field>, b: seq<Field>)
    ensures AllReceived(a + b) == AllReceived(a) + AllReceived(b)
  {
  }

  lemma ParseRenderedHead(status: string, fs: seq<Field>, rest: string)
    requires IsStatus(status) && NoCR(status) && AllPrintable(fs)
    ensures ParseHead(VERSION + status + CRLF + FieldLines(fs) + CRLF + rest)
            == Done(Head(status, AllReceived(fs)), rest)
  {
    VersionLine(status);
    var line, behind := VERSION + status, FieldLines(fs) + CRLF + rest;
    assert line + CRLF + FieldLines(fs) + CRLF + rest == line + CRLF + behind;
    TakeLineOf(line, behind);
    ParseRenderedFields(fs, rest);
  }

  /** Parsing a rendered head recovers the status, the application's fields in order,
      then exactly the server's own, and stops at the first octet of the body. */
  lemma ParseRendered(status: string, headers: seq<Field>, keepAlive: bool, chunked: bool, rest: string)
    requires IsStatus(status) && NoCR(status) && AllPrintable(headers)
    ensures ParseHead(Render(status, headers, keepAlive, chunked) + rest)
         == Done(Head(status, AllReceived(headers) + OwnFields(keepAlive, chunked)), rest)
  {
    var own := OwnFields(keepAlive, chunked);
    var fs := headers + own;
    OwnFieldsPrintable(keepAlive, chunked);
    ReceivedAppend(headers, own);
    ParseRenderedHead(status, fs, rest);
  }
}
