/** A client that splits the octets of a connection into responses (RFC 7230, section 3.3.3),
    and the round trips between it and the server's replies. */
module Client {
  import opened Octets
  import opened MessageSyntax
  import opened ChunkedCoding
  import opened StartResponse
  import opened Reply
  import ResponseHead

  datatype Message = Message(status: string, fields: seq<Field>, body: string)

  // Message body length

  const TRANSFER_ENCODING := "Transfer-Encoding"

  predicate IsTransferEncoding(name: string) { EqualIgnoringCase(name, TRANSFER_ENCODING) }

  /** The last Transfer-Encoding field. */
  function TransferCoding(fs: seq<Field>): Option<string> {
    if fs == [] then None
    else if IsTransferEncoding(fs[|fs| - 1].name) then Some(fs[|fs| - 1].value)
    else TransferCoding(fs[..|fs| - 1])
  }

  /** The last element of a comma-separated list. */
  function FinalCoding(list: string): string {
    if ',' in list then FinalCoding(list[1..]) else Trim(list)
  }

  datatype Declared = Undeclared | Length(n: nat) | Conflict

  function DeclaredLength(fs: seq<Field>): Declared {
    if fs == [] then Undeclared
    else
      var more := DeclaredLength(fs[1..]);
      if !IsContentLength(fs[0].name) then more
      else
        match ParseDecimal(fs[0].value)
        case None => Conflict
        case Some(n) => if more == Undeclared || more == Length(n) then Length(n) else Conflict
  }

  datatype Framing = NoBody | InChunks | Sized(n: nat) | ToClose | Unusable

  /** What the fields alone say: a transfer coding overrides a length. */
  function FieldFraming(coding: Option<string>, declared: Declared): Framing {
    if coding.Some? then
      if EqualIgnoringCase(FinalCoding(coding.value), "chunked") then InChunks else ToClose
    else
      match declared
      case Undeclared => ToClose
      case Length(n) => Sized(n)
      case Conflict => Unusable
  }

  /** The informational class, section 6.2 of RFC 7231. */
  predicate IsInterimStatus(status: string)
    requires IsStatus(status)
  {
    100 <= StatusCode(status) < 200
  }

  /** 204 (No Content) and 304 (Not Modified). */
  predicate IsEmptyStatus(status: string)
    requires IsStatus(status)
  {
    StatusCode(status) == 204 || StatusCode(status) == 304
  }

  /** The rules of section 3.3.3 in their order, for a request that is neither HEAD nor CONNECT. */
  function FramingOf(h: Head): Framing
    requires IsStatus(h.status)
  {
    if IsInterimStatus(h.status) || IsEmptyStatus(h.status) then NoBody
    else FieldFraming(TransferCoding(h.fields), DeclaredLength(h.fields))
  }

  /** `OpenEnded` is a message that ends where the connection does. */
  datatype Response = Whole(m: Message, rest: string) | OpenEnded(m: Message) | Partial | Garbled

  function ReadResponse(s: string): (r: Response)
    ensures r.Whole? ==> |r.rest| < |s| && IsStatus(r.m.status)
  {
    match ParseHead(s)
    case More => Partial
    case Bad => Garbled
    case Done(h, rest) =>
      match FramingOf(h)
      case NoBody => Whole(Message(h.status, h.fields, ""), rest)
      case InChunks =>
        (match DecodeChunked(rest)
         case Done(body, r) => Whole(Message(h.status, h.fields, body), r)
         case More => Partial
         case Bad => Garbled)
      case Sized(n) => if n <= |rest| then Whole(Message(h.status, h.fields, rest[..n]), rest[n..]) else Partial
      case ToClose => OpenEnded(Message(h.status, h.fields, rest))
      case Unusable => Garbled
  }

  lemma ReadResponseStable(s: string, t: string)
    ensures match ReadResponse(s)
            case Whole(m, rest) => ReadResponse(s + t) == Whole(m, rest + t)
            case OpenEnded(m) => ReadResponse(s + t) == OpenEnded(m.(body := m.body + t))
            case Garbled => ReadResponse(s + t) == Garbled
            case Partial => true
  {
    ParseHeadStable(s, t);
    if ParseHead(s).Done? {
      var h, rest := ParseHead(s).value, ParseHead(s).rest;
      DecodeChunkedStable(rest, t);
      if FramingOf(h).Sized? && FramingOf(h).n <= |rest| {
        var n := FramingOf(h).n;
        assert (rest + t)[..n] == rest[..n] && (rest + t)[n..] == rest[n..] + t;
      }
    }
  }

  /** A response cut short anywhere is seen to be cut short. */
  lemma PrefixIsPartial(s: string, k: nat)
    requires ReadResponse(s).Whole? && ReadResponse(s).rest == ""
    requires k < |s|
    ensures ReadResponse(s[..k]) == Partial
  {
    assert s == s[..k] + s[k..];
    ReadResponseStable(s[..k], s[k..]);
  }

  // The whole connection

  datatype Verdict = Clean | CutShort | Nonsense

  datatype Transcript = Transcript(messages: seq<Message>, verdict: Verdict)

  predicate IsInterim(m: Message)
    requires IsStatus(m.status)
  {
    IsInterimStatus(m.status)
  }

  function Add(ms: seq<Message>, t: Transcript): Transcript { t.(messages := ms + t.messages) }

  /** Everything received so far; `closed` says that the server has closed. Interim responses are dropped. */
  function ReadAll(s: string, closed: bool): Transcript
    decreases |s|
  {
    if s == "" then Transcript([], Clean)
    else
      match ReadResponse(s)
      case Whole(m, rest) => Add(if IsInterim(m) then [] else [m], ReadAll(rest, closed))
      case OpenEnded(m) => if closed then Transcript([m], Clean) else Transcript([], CutShort)
      case Partial => Transcript([], CutShort)
      case Garbled => Transcript([], Nonsense)
  }

  // Persistence (RFC 7230, section 6.3)

  function CommaAt(list: string): (i: nat)
    ensures i <= |list|
  {
    if list == "" || list[0] == ',' then 0 else 1 + CommaAt(list[1..])
  }

  /** An element of a comma-separated list. */
  predicate Lists(list: string, token: string) {
    var i := CommaAt(list);
    EqualIgnoringCase(Trim(list[..i]), token) || (i < |list| && Lists(list[i + 1..], token))
  }

  const CONNECTION := "Connection"

  predicate AsksToClose(f: Field) { EqualIgnoringCase(f.name, CONNECTION) && Lists(f.value, "close") }

  predicate SomeAsksToClose(fs: seq<Field>) { exists i :: 0 <= i < |fs| && AsksToClose(fs[i]) }

  /** An HTTP/1.1 connection goes on behind a message that does not list the option "close". */
  predicate Persists(m: Message) { !SomeAsksToClose(m.fields) }

  // What a reply must satisfy to be told apart

  predicate HasContentLength(fs: seq<Field>) {
    exists i :: 0 <= i < |fs| && IsContentLength(fs[i].name)
  }

  predicate LengthsAre(fs: seq<Field>, n: nat) {
    forall i :: 0 <= i < |fs| && IsContentLength(fs[i].name) ==> ParseDecimal(Trim(fs[i].value)) == Some(n)
  }

  predicate NoTransferEncoding(fs: seq<Field>) {
    forall i :: 0 <= i < |fs| ==> !IsTransferEncoding(fs[i].name)
  }

  /** Obligations of the application: a printable head, a final status, no framing of its own
      except a Content-Length of `n`, no body behind 204 and 304. */
  predicate Decent(s: Started, n: nat) {
    && IsStatus(s.status) && NoCR(s.status) && !IsInterimStatus(s.status)
    && AllPrintable(s.headers) && NoTransferEncoding(s.headers)
    && (if IsEmptyStatus(s.status) then n == 0 else LengthsAre(s.headers, n))
  }

  /** What PlanOf makes of `chunked` and `keepAlive` if the two sendfile tests agree. */
  predicate Coherent(p: Plan) {
    && |p.started.status| >= 3
    && (p.chunked ==> p.keepAlive && !LengthFound(p.started.headers) && !Bodiless(p.started.status))
    && (p.keepAlive && !p.chunked ==> LengthFound(p.started.headers) || Bodiless(p.started.status))
    && (p.chunked ==> p.content.Pieces? && AllFramable(p.content.chunks))
  }

  /** The client can find the end of the body without waiting for the connection to close. */
  predicate SelfDelimiting(p: Plan)
    requires IsStatus(p.started.status)
  {
    p.chunked || IsEmptyStatus(p.started.status) || HasContentLength(p.started.headers)
  }

  function Expected(p: Plan): Message {
    Message(p.started.status,
            AllReceived(p.started.headers) + ResponseHead.OwnFields(p.keepAlive, p.chunked),
            p.content.Data())
  }

  lemma PlanIsCoherent(asked: Asked, app: Application)
    requires InScope(asked, app) && TestsAgree(app) && PlanOf(asked, app).Some?
    ensures Coherent(PlanOf(asked, app).value)
  {
  }

  /** The server's test on three octets finds the statuses that have no body for the client, and no others. */
  lemma BodilessIff(status: string)
    requires IsStatus(status)
    ensures Bodiless(status) <==> IsEmptyStatus(status)
  {
    assert status[..3] == [status[0], status[1], status[2]];
  }

  /** Persistence and framing: a connection is kept if the client wants that and the end of the body can be
      told, by a length, by the status or by chunks, which HTTP/1.0 does not have. */
  lemma DecidedIff(asked: Asked, app: Application)
    requires PlanOf(asked, app).Some? && IsStatus(PlanOf(asked, app).value.started.status)
    ensures var p := PlanOf(asked, app).value;
            var told := LengthFound(p.started.headers) || IsEmptyStatus(p.started.status);
            && (p.keepAlive <==> asked.shouldKeepAlive && (told || (asked.major >= 1 && asked.minor >= 1)))
            && (p.chunked <==> p.keepAlive && !told)
  {
    BodilessIff(PlanOf(asked, app).value.started.status);
  }

  lemma NothingToTrim(s: string)
    requires s != "" && !IsBlank(s[0]) && !IsBlank(s[|s| - 1])
    ensures Trim(s) == s
  {
  }

  lemma {:induction false} NoCommaAt(s: string)
    requires ',' !in s
    ensures CommaAt(s) == |s|
  {
    if s != "" {
      assert s[0] in s;
      NoCommaAt(s[1..]);
    }
  }

  lemma LoneElement(s: string)
    requires s != "" && !IsBlank(s[0]) && !IsBlank(s[|s| - 1]) && ',' !in s
    ensures CommaAt(s) == |s| && Trim(s[..CommaAt(s)]) == s
  {
    NoCommaAt(s);
    NothingToTrim(s);
    assert s[..|s|] == s;
  }

  lemma CloseAsks()
    ensures AsksToClose(Field("Connection", "close"))
  {
    var close := "close";
    assert close[0] == 'c' && close[4] == 'e';
    LoneElement(close);
  }

  lemma KeepAliveDoesNot()
    ensures !AsksToClose(Field("Connection", "Keep-Alive")) && !AsksToClose(Field("Transfer-Encoding", "chunked"))
  {
    var value := "Keep-Alive";
    assert value[0] == 'K' && value[9] == 'e';
    LoneElement(value);
  }

  lemma OwnPersistence(keepAlive: bool, chunked: bool)
    ensures SomeAsksToClose(ResponseHead.OwnFields(keepAlive, chunked)) <==> !keepAlive
  {
    CloseAsks();
    KeepAliveDoesNot();
    assert !keepAlive ==> ResponseHead.OwnFields(keepAlive, chunked)[0] == Field("Connection", "close");
  }

  lemma SomeAsksTogether(a: seq<Field>, b: seq<Field>)
    ensures SomeAsksToClose(a + b) <==> SomeAsksToClose(a) || SomeAsksToClose(b)
  {
    if i :| 0 <= i < |a| && AsksToClose(a[i]) { assert AsksToClose((a + b)[i]); }
    if i :| 0 <= i < |b| && AsksToClose(b[i]) { assert AsksToClose((a + b)[|a| + i]); }
  }

  /** A Connection field of the application lists "close". */
  predicate ClosesItself(headers: seq<Field>) { SomeAsksToClose(AllReceived(headers)) }

  /** The client expects the connection to go on exactly if the server keeps it, unless the application
      itself sends a Connection field with "close" on a connection that is kept. */
  lemma KeepingAgreesIff(p: Plan)
    ensures (Persists(Expected(p)) <==> p.keepAlive) <==> !(p.keepAlive && ClosesItself(p.started.headers))
  {
    OwnPersistence(p.keepAlive, p.chunked);
    SomeAsksTogether(AllReceived(p.started.headers), ResponseHead.OwnFields(p.keepAlive, p.chunked));
  }

  // How the client frames a reply

  lemma {:induction false} DeclaredWhenHonest(fs: seq<Field>, n: nat)
    requires forall i :: 0 <= i < |fs| && IsContentLength(fs[i].name) ==> ParseDecimal(fs[i].value) == Some(n)
    ensures DeclaredLength(fs) == if HasContentLength(fs) then Length(n) else Undeclared
  {
    if fs != [] {
      assert forall i :: 0 <= i < |fs[1..]| ==> fs[1..][i] == fs[i + 1];
      DeclaredWhenHonest(fs[1..], n);
      if HasContentLength(fs) && !IsContentLength(fs[0].name) {
        var i :| 0 <= i < |fs| && IsContentLength(fs[i].name);
        assert IsContentLength(fs[1..][i - 1].name);
      }
    }
  }

  lemma {:induction false} NoCoding(fs: seq<Field>)
    requires NoTransferEncoding(fs)
    ensures TransferCoding(fs) == None
  {
    if fs != [] { NoCoding(fs[..|fs| - 1]); }
  }

  lemma OwnNames()
    ensures !IsTransferEncoding("Connection") && IsTransferEncoding("Transfer-Encoding")
    ensures !IsContentLength("Connection") && !IsContentLength("Transfer-Encoding")
  {
  }

  /** The server's own fields decide the transfer coding and leave the declared length alone. */
  lemma CodingOfReply(headers: seq<Field>, keepAlive: bool, chunked: bool)
    requires NoTransferEncoding(headers)
    ensures TransferCoding(AllReceived(headers) + ResponseHead.OwnFields(keepAlive, chunked))
         == if keepAlive && chunked then Some("chunked") else None
  {
    OwnNames();
    var fs := AllReceived(headers) + ResponseHead.OwnFields(keepAlive, chunked);
    if !(keepAlive && chunked) {
      assert NoTransferEncoding(fs);
      NoCoding(fs);
    }
  }

  lemma LengthOfReply(headers: seq<Field>, keepAlive: bool, chunked: bool, n: nat)
    requires LengthsAre(headers, n)
    ensures DeclaredLength(AllReceived(headers) + ResponseHead.OwnFields(keepAlive, chunked))
         == if HasContentLength(headers) then Length(n) else Undeclared
  {
    OwnNames();
    var fs := AllReceived(headers) + ResponseHead.OwnFields(keepAlive, chunked);
    if HasContentLength(headers) {
      var i :| 0 <= i < |headers| && IsContentLength(headers[i].name);
      assert IsContentLength(fs[i].name);
    }
    DeclaredWhenHonest(fs, n);
  }

  lemma ChunkedIsFinal()
    ensures FinalCoding("chunked") == "chunked"
  {
    var name := "chunked";
    assert ',' !in name;
    assert name[0] == 'c' && name[6] == 'd';
    NothingToTrim(name);
  }

  lemma FramedBy(coding: Option<string>, declared: Declared, chunked: bool, counted: bool, n: nat)
    requires coding == if chunked then Some("chunked") else None
    requires declared == if counted then Length(n) else Undeclared
    ensures FieldFraming(coding, declared) == if chunked then InChunks else if counted then Sized(n) else ToClose
  {
    ChunkedIsFinal();
  }

  lemma FramingOfReply(p: Plan, n: nat)
    requires Coherent(p) && Decent(p.started, n)
    ensures FramingOf(Head(p.started.status, Expected(p).fields))
         == if IsEmptyStatus(p.started.status) then NoBody
            else if p.chunked then InChunks
            else if HasContentLength(p.started.headers) then Sized(n)
            else ToClose
  {
    BodilessIff(p.started.status);
    if !IsEmptyStatus(p.started.status) {
      var fields := Expected(p).fields;
      CodingOfReply(p.started.headers, p.keepAlive, p.chunked);
      LengthOfReply(p.started.headers, p.keepAlive, p.chunked, n);
      FramedBy(TransferCoding(fields), DeclaredLength(fields), p.chunked, HasContentLength(p.started.headers), n);
    }
  }

  lemma HeadOfReply(p: Plan, n: nat, rest: string)
    requires Coherent(p) && Decent(p.started, n)
    ensures ParseHead(PlanBytes(p) + rest)
         == Done(Head(p.started.status, Expected(p).fields), p.content.Coded(p.chunked) + rest)
  {
    var coded := p.content.Coded(p.chunked);
    var head := ResponseHead.Render(p.started.status, p.started.headers, p.keepAlive, p.chunked);
    assert PlanBytes(p) + rest == head + (coded + rest);
    ResponseHead.ParseRendered(p.started.status, p.started.headers, p.keepAlive, p.chunked, coded + rest);
  }

  /** Without chunked coding the octets of the body are its data. */
  lemma PlainIsData(c: Content)
    ensures c.Coded(false) == c.Data()
  {
  }

  /** Round trip of one reply: status, fields and body come back, and not an octet more is used. */
  lemma ReplyReadsBack(p: Plan, rest: string)
    requires Coherent(p) && Decent(p.started, |p.content.Data()|) && !p.content.Broken()
    requires SelfDelimiting(p)
    ensures ReadResponse(PlanBytes(p) + rest) == Whole(Expected(p), rest)
  {
    var coded := p.content.Coded(p.chunked);
    BodilessIff(p.started.status);
    FramingOfReply(p, |p.content.Data()|);
    HeadOfReply(p, |p.content.Data()|, rest);
    if p.chunked {
      DecodeFrames(p.content.chunks, rest);
      assert p.content.Data() == Flatten(p.content.chunks);
    } else {
      PlainIsData(p.content);
      assert (coded + rest)[..|coded|] == coded && (coded + rest)[|coded|..] == rest;
      assert IsEmptyStatus(p.started.status) ==> coded == "" && coded + rest == rest;
    }
  }

  /** With a descriptor and a known length the client receives the file from the position found,
      whatever the application may have read of it before. */
  lemma FileReplyReadsBack(asked: Asked, app: Application, rest: string)
    requires app.answer.FileWrapper? && app.answer.fd.Some? && app.answer.file.position.Some?
    requires OnRecord(app.calls).Some? && LengthFound(OnRecord(app.calls).value.headers)
    requires var file := app.answer.file.content[Min(app.answer.file.position.value, |app.answer.file.content|)..];
             Decent(OnRecord(app.calls).value, |file|)
    requires IsEmptyStatus(OnRecord(app.calls).value.status) || HasContentLength(OnRecord(app.calls).value.headers)
    ensures PlanOf(asked, app).Some?
    ensures var p := PlanOf(asked, app).value;
            var file := app.answer.file.content[Min(app.answer.file.position.value, |app.answer.file.content|)..];
            ReadResponse(PlanBytes(p) + rest)
            == Whole(Message(OnRecord(app.calls).value.status, Expected(p).fields, file), rest)
  {
    var p := PlanOf(asked, app).value;
    assert p.content == ThenFile([], app.answer.file) && p.content.Data() == FileBody(app.answer.file);
    PlanIsCoherent(asked, app);
    ReplyReadsBack(p, rest);
  }

  lemma ReplyToCloseReadsBack(p: Plan)
    requires Coherent(p) && Decent(p.started, |p.content.Data()|) && !p.content.Broken()
    requires !SelfDelimiting(p)
    ensures ReadResponse(PlanBytes(p)) == OpenEnded(Expected(p))
  {
    var coded := p.content.Coded(p.chunked);
    FramingOfReply(p, |p.content.Data()|);
    HeadOfReply(p, |p.content.Data()|, "");
    PlainIsData(p.content);
    assert PlanBytes(p) + "" == PlanBytes(p) && coded + "" == coded;
  }

  /** A kept-alive reply reads back whatever follows it exactly when the client can delimit it:
      the server's prefix test on header names is what can be wrong. */
  lemma KeptAliveReadsBackIff(p: Plan)
    requires Coherent(p) && Decent(p.started, |p.content.Data()|) && !p.content.Broken() && p.keepAlive
    ensures (forall rest :: ReadResponse(PlanBytes(p) + rest) == Whole(Expected(p), rest))
      <==> (LengthFound(p.started.headers) && !IsEmptyStatus(p.started.status) ==> HasContentLength(p.started.headers))
  {
    BodilessIff(p.started.status);
    if SelfDelimiting(p) {
      forall rest ensures ReadResponse(PlanBytes(p) + rest) == Whole(Expected(p), rest) {
        ReplyReadsBack(p, rest);
      }
    } else {
      ReplyToCloseReadsBack(p);
      assert PlanBytes(p) + "" == PlanBytes(p);
    }
  }

  /** A proper prefix of the name counts for the server and not for the client. */
  lemma PrefixCounts(name: string)
    requires |name| < |LENGTH_FIELD| && name == LENGTH_FIELD[..|name|]
    ensures CountsAsLength(name) && !IsContentLength(name) && !IsTransferEncoding(name)
  {
    SameUpToLengthIff(name, LENGTH_FIELD);
    assert |TRANSFER_ENCODING| == 17 && |LENGTH_FIELD| == 14;
  }

  lemma ContentIsToken()
    ensures IsToken("Content")
  {
    var name := "Content";
    assert forall i :: 0 <= i < |name| ==> IsTokenChar(name[i]);
  }

  /** The failing family: a header counts as a length for the server and not for the client, so
      the connection is kept open behind a body whose end the client cannot see. */
  lemma MisleadingLength(asked: Asked, s: Started, body: string)
    requires asked.shouldKeepAlive && Decent(s, |body|) && !IsEmptyStatus(s.status)
    requires LengthFound(s.headers) && !HasContentLength(s.headers)
    ensures var p := Decide(asked, s, Pieces([body], false));
            p.keepAlive && ReadResponse(PlanBytes(p)) == OpenEnded(Expected(p))
  {
    FlattenSingle(body);
    assert body + "" == body;
    ReplyToCloseReadsBack(Decide(asked, s, Pieces([body], false)));
  }

  lemma OkIsFinal()
    ensures IsStatus("200 OK") && NoCR("200 OK") && StatusCode("200 OK") == 200
  {
    var ok := "200 OK";
    assert ok[0] == '2' && ok[1] == '0' && ok[2] == '0' && ok[3] == ' ';
  }

  lemma LoneHeader(f: Field, n: nat)
    requires Printable(f) && CountsAsLength(f.name) && !IsContentLength(f.name) && !IsTransferEncoding(f.name)
    ensures AllPrintable([f]) && NoTransferEncoding([f]) && LengthsAre([f], n)
    ensures LengthFound([f]) && !HasContentLength([f])
  {
    assert CountsAsLength([f][0].name);
  }

  /** It is not empty: "Content" is such a header. */
  lemma ContentMisleads(value: string, n: nat)
    requires NoCR(value)
    ensures var s := Started("200 OK", [Field("Content", value)]);
            Decent(s, n) && !IsEmptyStatus(s.status) && LengthFound(s.headers) && !HasContentLength(s.headers)
  {
    assert LENGTH_FIELD[..7] == "Content";
    PrefixCounts("Content");
    ContentIsToken();
    LoneHeader(Field("Content", value), n);
    OkIsFinal();
  }

  /** A response never carries both a Content-Length and a chunked body. */
  lemma NeverBoth(p: Plan)
    requires Coherent(p) && p.chunked
    ensures !HasContentLength(p.started.headers)
  {
    forall i | 0 <= i < |p.started.headers|
      ensures !IsContentLength(p.started.headers[i].name)
    {
      assert !CountsAsLength(p.started.headers[i].name);
      if IsContentLength(p.started.headers[i].name) { ContentLengthCounts(p.started.headers[i].name); }
    }
  }

  /** The reply as it would be if the iterator had ended where it broke off. */
  function Mended(p: Plan): Plan
    requires p.content.Pieces?
  {
    p.(content := p.content.(breaks := false))
  }

  lemma TerminatorMissing(p: Plan)
    requires p.chunked && p.content.Pieces? && p.content.breaks
    ensures PlanBytes(Mended(p)) == PlanBytes(p) + TERMINATOR
  {
    var head := ResponseHead.Render(p.started.status, p.started.headers, p.keepAlive, p.chunked);
    var frames := Frames(p.content.chunks);
    assert frames + "" == frames;
    Regrouped(head, frames, TERMINATOR);
  }

  /** A body that breaks off inside chunked framing never reads as a complete message. */
  lemma BrokenChunkedIsPartial(p: Plan, k: nat)
    requires Coherent(p) && Decent(p.started, |p.content.Data()|) && p.content.Broken() && p.chunked
    requires k <= |PlanBytes(p)|
    ensures ReadResponse(PlanBytes(p)[..k]) == Partial
  {
    var whole := Mended(p);
    assert whole.content.Data() == p.content.Data();
    ReplyReadsBack(whole, "");
    assert PlanBytes(whole) + "" == PlanBytes(whole);
    TerminatorMissing(p);
    PrefixIsPartial(PlanBytes(whole), k);
    assert PlanBytes(whole)[..k] == PlanBytes(p)[..k];
  }

  predicate Announces(s: Started, n: nat) {
    Decent(s, n) && !IsEmptyStatus(s.status) && HasContentLength(s.headers)
  }

  /** So does one that stops before an announced Content-Length. */
  lemma BrokenSizedIsPartial(p: Plan, n: nat, k: nat)
    requires Coherent(p) && Announces(p.started, n) && p.content.Broken() && !p.chunked && |p.content.Data()| < n
    requires k <= |PlanBytes(p)|
    ensures ReadResponse(PlanBytes(p)[..k]) == Partial
  {
    FramingOfReply(p, n);
    HeadOfReply(p, n, "");
    PlainIsData(p.content);
    var s := PlanBytes(p);
    assert s + "" == s && p.content.Data() + "" == p.content.Data();
    assert ReadResponse(s) == Partial;
    assert s == s[..k] + s[k..];
    ReadResponseStable(s[..k], s[k..]);
  }

  /** A broken body whose incompleteness the framing shows: chunked, or short of its announced length. */
  ghost predicate VisiblyBroken(p: Plan) {
    && Coherent(p) && p.content.Broken()
    && if p.chunked then Decent(p.started, |p.content.Data()|)
       else exists n: nat :: |p.content.Data()| < n && Announces(p.started, n)
  }

  /** The framing itself tells the client whether the reply is complete. */
  ghost predicate Delimited(p: Plan) {
    VisiblyBroken(p)
    || (Coherent(p) && !p.content.Broken() && Decent(p.started, |p.content.Data()|) && SelfDelimiting(p))
  }

  lemma VisiblyBrokenIsPartial(p: Plan, k: nat)
    requires VisiblyBroken(p) && k <= |PlanBytes(p)|
    ensures ReadResponse(PlanBytes(p)[..k]) == Partial
  {
    if p.chunked {
      BrokenChunkedIsPartial(p, k);
    } else {
      var n: nat :| |p.content.Data()| < n && Announces(p.started, n);
      BrokenSizedIsPartial(p, n, k);
    }
  }

  /** Any part of a delimited reply is seen to be a part, whatever becomes of the connection behind it. */
  lemma PartOfDelimited(p: Plan, k: nat)
    requires Delimited(p) && k < |PlanBytes(p)|
    ensures ReadResponse(PlanBytes(p)[..k]) == Partial
  {
    if VisiblyBroken(p) {
      VisiblyBrokenIsPartial(p, k);
    } else {
      ReplyReadsBack(p, "");
      assert PlanBytes(p) + "" == PlanBytes(p);
      PrefixIsPartial(PlanBytes(p), k);
    }
  }

  // Replies that no application wrote

  lemma LiteralHead(status: string, rest: string)
    requires IsStatus(status) && NoCR(status)
    ensures ParseHead(ResponseHead.VERSION + status + CRLF + CRLF + rest) == Done(Head(status, []), rest)
  {
    ResponseHead.ParseRenderedHead(status, [], rest);
    assert ResponseHead.VERSION + status + CRLF + FieldLines([]) + CRLF + rest
        == ResponseHead.VERSION + status + CRLF + CRLF + rest;
  }

  lemma ContinueLiteral()
    ensures CONTINUE == ResponseHead.VERSION + "100 Continue" + CRLF + CRLF
  {
  }

  lemma ContinueReadsBack(rest: string)
    ensures ReadResponse(CONTINUE + rest) == Whole(Message("100 Continue", [], ""), rest)
  {
    ContinueLiteral();
    var status := "100 Continue";
    assert status[0] == '1' && status[1] == '0' && status[2] == '0' && status[3] == ' ';
    LiteralHead(status, rest);
  }

  lemma ErrorIsFinal(code: nat)
    requires 1 <= code <= 4
    ensures IsStatus(ErrorStatus(code))
    ensures StatusCode(ErrorStatus(code)) == match code case 1 => 400 case 2 => 406 case 3 => 417 case _ => 500
  {
  }

  predicate IsPlain(c: char) { 'a' <= c <= 'z' || 'A' <= c <= 'Z' || IsDigit(c) || c == ' ' }

  predicate AllPlain(s: string) { forall i :: 0 <= i < |s| ==> IsPlain(s[i]) }

  lemma RequestErrorsArePlain()
    ensures AllPlain("400 Bad Request") && AllPlain("406 Length Required")
  {
  }

  lemma OtherErrorsArePlain()
    ensures AllPlain("417 Expectation Failed") && AllPlain("500 Internal Server Error")
  {
  }

  lemma ErrorIsPlain(code: nat)
    requires 1 <= code <= 4
    ensures AllPlain(ErrorStatus(code))
  {
    RequestErrorsArePlain();
    OtherErrorsArePlain();
  }

  lemma PlainHasNone(s: string)
    requires AllPlain(s)
    ensures NoCR(s) && '\n' !in s && ':' !in s
  {
  }

  lemma ErrorHead(status: string)
    requires IsStatus(status) && NoCR(status) && 400 <= StatusCode(status) <= 500
    ensures ReadResponse(ResponseHead.VERSION + status + CRLF + CRLF) == OpenEnded(Message(status, [], ""))
  {
    LiteralHead(status, "");
    var s := ResponseHead.VERSION + status + CRLF + CRLF;
    assert s + "" == s;
  }

  /** The client gets the status that belongs to the error, and nothing else. */
  lemma ErrorReadsBack(code: nat)
    requires 1 <= code <= 4
    ensures ReadResponse(ErrorMessage(code)) == OpenEnded(Message(ErrorStatus(code), [], ""))
    ensures IsStatus(ErrorStatus(code))
    ensures StatusCode(ErrorStatus(code)) == match code case 1 => 400 case 2 => 406 case 3 => 417 case _ => 500
  {
    ErrorIsFinal(code);
    ErrorIsPlain(code);
    PlainHasNone(ErrorStatus(code));
    ErrorHead(ErrorStatus(code));
  }

  lemma ErrorIsReceived(code: nat)
    requires 1 <= code <= 4
    ensures ReadAll(ErrorMessage(code), true) == Transcript([Message(ErrorStatus(code), [], "")], Clean)
    ensures IsStatus(ErrorStatus(code))
    ensures StatusCode(ErrorStatus(code)) == match code case 1 => 400 case 2 => 406 case 3 => 417 case _ => 500
  {
    ErrorReadsBack(code);
  }
}
