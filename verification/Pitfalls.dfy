/** Where bjoern does not keep its side of the bargain, and exactly when: an interim response that is cut
    short, a header that only the server takes for a length, and a file whose length is not announced. */
module Pitfalls {
  import opened Octets
  import opened MessageSyntax
  import opened ChunkedCoding
  import opened StartResponse
  import opened Reply
  import opened Client
  import opened Sending
  import opened Session
  import opened Connection
  import ResponseHead

  // The final reply behind an interim response of which only `k` octets were sent

  /** A final reply as its status line and what is behind it. */
  function Behind(p: Plan): string {
    FieldLines(p.started.headers + ResponseHead.OwnFields(p.keepAlive, p.chunked)) + CRLF + p.content.Coded(p.chunked)
  }

  lemma ReplyInTwo(p: Plan)
    ensures PlanBytes(p) == ResponseHead.VERSION + p.started.status + CRLF + Behind(p)
  {
    var line := ResponseHead.VERSION + p.started.status + CRLF;
    var fields := FieldLines(p.started.headers + ResponseHead.OwnFields(p.keepAlive, p.chunked));
    Regrouped(line, fields, CRLF);
    Regrouped(line, fields + CRLF, p.content.Coded(p.chunked));
  }

  lemma FieldsBehind(p: Plan)
    requires AllPrintable(p.started.headers)
    ensures ParseFields(Behind(p)).Done? && ParseFields(Behind(p)).rest == p.content.Coded(p.chunked)
  {
    var own := ResponseHead.OwnFields(p.keepAlive, p.chunked);
    ResponseHead.OwnFieldsPrintable(p.keepAlive, p.chunked);
    ParseRenderedFields(p.started.headers + own, p.content.Coded(p.chunked));
  }

  /** Where a CR in the line can only be. */
  lemma InThree(a: string, b: string, c: string, i: nat)
    requires i < |a + b + c| && (a + b + c)[i] == '\r' && NoCR(b) && NoCR(c) && b != ""
    ensures i < |a| && a[i] == '\r'
    ensures (a + b + c)[i + 1] == if i + 1 < |a| then a[i + 1] else b[0]
  {
  }

  /** The first line that a client finds. */
  lemma FirstLine(cut: string, status: string, behind: string)
    requires forall i :: 0 <= i < |cut| - 1 ==> cut[i] != '\r'
    requires NoCR(status)
    ensures TakeLine(cut + (ResponseHead.VERSION + status + CRLF + behind))
            == Some((cut + ResponseHead.VERSION + status, behind))
  {
    var line := cut + ResponseHead.VERSION + status;
    assert cut + (ResponseHead.VERSION + status + CRLF + behind) == line + CRLF + behind;
    assert ResponseHead.VERSION[0] == 'H' && NoCR(ResponseHead.VERSION);
    forall i | 0 <= i < |line| && line[i] == '\r'
      ensures i + 1 < |line| && line[i + 1] != '\n'
    {
      InThree(cut, ResponseHead.VERSION, status, i);
    }
    TakeLineWithin(line, behind);
  }

  lemma ContinueParts()
    ensures CONTINUE[..7] == "HTTP/1." && CONTINUE[7] == '1' && CONTINUE[8] == ' ' && CONTINUE[9] == '1'
    ensures IsDigit(CONTINUE[10]) && IsDigit(CONTINUE[11]) && CONTINUE[12] == ' ' && |CONTINUE| == 25
    ensures NoCR(CONTINUE[..21]) && CONTINUE[21..] == CRLF + CRLF
  {
    var line := "HTTP/1.1 100 Continue";
    assert CONTINUE[..21] == line;
  }

  lemma NotAtStatus(line: string, k: nat)
    requires 0 < k <= 12 && k < |line| && line[k] == 'H'
    ensures !IsStatusLine(line)
  {
    if k < 7 <= |line| {
      var version := "HTTP/1.";
      assert version[k] != 'H';
      assert line[..7][k] == line[k];
    } else if k >= 9 && |line| >= 13 {
      assert line[9..][k - 9] == 'H';
    }
  }

  /** Cut within "HTTP/1.1 100": no status line. */
  lemma CutInVersion(p: Plan, k: nat)
    requires 0 < k <= 12 && NoCR(p.started.status)
    ensures ReadResponse(CONTINUE[..k] + PlanBytes(p)) == Garbled
  {
    ContinueParts();
    var cut := CONTINUE[..k];
    assert forall i :: 0 <= i < k ==> cut[i] == CONTINUE[..21][i];
    ReplyInTwo(p);
    FirstLine(cut, p.started.status, Behind(p));
    NotAtStatus(cut + ResponseHead.VERSION + p.started.status, k);
  }

  /** Cut within " Continue" or behind its CR: the interim response swallows the head of the final one. */
  lemma CutInPhrase(p: Plan, k: nat)
    requires 13 <= k <= 22 && NoCR(p.started.status) && AllPrintable(p.started.headers)
    ensures ReadResponse(CONTINUE[..k] + PlanBytes(p)).Whole?
    ensures ReadResponse(CONTINUE[..k] + PlanBytes(p)).rest == p.content.Coded(p.chunked)
    ensures IsInterim(ReadResponse(CONTINUE[..k] + PlanBytes(p)).m)
  {
    ContinueParts();
    var cut := CONTINUE[..k];
    assert cut[..|cut| - 1] == CONTINUE[..21][..k - 1];
    assert forall i :: 0 <= i < k - 1 ==> cut[..|cut| - 1][i] == CONTINUE[..21][i];
    ReplyInTwo(p);
    FieldsBehind(p);
    FirstLine(cut, p.started.status, Behind(p));
    var line := cut + ResponseHead.VERSION + p.started.status;
    assert line[..7] == CONTINUE[..7];
    assert forall i :: 7 <= i < 13 ==> line[i] == CONTINUE[i];
    assert IsStatus(line[9..]);
  }

  lemma NotAField(line: string, k: nat)
    requires k + 4 < |line| && line[k + 4] == '/' && forall i :: 0 <= i <= k + 4 ==> line[i] != ':'
    ensures ParseField(line) == None
  {
    var i := ColonAt(line);
    assert i > k + 4;
    assert line[..i][k + 4] == '/' && !IsTokenChar('/');
    assert line[k + 4] in line[..i];
  }

  lemma StatusLineIsNoField(cut: string, status: string)
    requires |cut| <= 1 && forall i :: 0 <= i < |cut| ==> cut[i] == '\r'
    ensures cut + ResponseHead.VERSION + status != "" && ParseField(cut + ResponseHead.VERSION + status) == None
  {
    var line, version := cut + ResponseHead.VERSION + status, ResponseHead.VERSION;
    assert version[4] == '/' && forall i :: 0 <= i <= 4 ==> version[i] != ':';
    assert forall i :: 0 <= i <= 4 ==> line[|cut| + i] == version[i];
    NotAField(line, |cut|);
  }

  /** A status line stands where a field should. */
  lemma NoFieldBehind(first: string, cut: string, p: Plan)
    requires NoCR(first) && IsStatusLine(first) && NoCR(p.started.status)
    requires |cut| <= 1 && forall i :: 0 <= i < |cut| ==> cut[i] == '\r'
    ensures ReadResponse(first + CRLF + (cut + PlanBytes(p))) == Garbled
  {
    TakeLineOf(first, cut + PlanBytes(p));
    ReplyInTwo(p);
    FirstLine(cut, p.started.status, Behind(p));
    StatusLineIsNoField(cut, p.started.status);
  }

  lemma EndOfContinue(k: nat)
    requires 23 <= k <= 24
    ensures CONTINUE[..k] == CONTINUE[..21] + CRLF + CONTINUE[23..k]
    ensures |CONTINUE[23..k]| == k - 23 && forall i :: 0 <= i < k - 23 ==> CONTINUE[23..k][i] == '\r'
  {
    ContinueParts();
    assert CONTINUE[21..][0] == '\r' && CONTINUE[21..][1] == '\n' && CONTINUE[21..][2] == '\r';
  }

  lemma FirstOfContinue()
    ensures NoCR(CONTINUE[..21]) && IsStatusLine(CONTINUE[..21])
  {
    ContinueParts();
    var line := CONTINUE[..21];
    assert line[..7] == CONTINUE[..7];
    assert forall i :: 0 <= i < 21 ==> line[i] == CONTINUE[i];
    assert line[9..][0] == line[9] && line[9..][1] == line[10] && line[9..][2] == line[11] && line[9..][3] == line[12];
  }

  /** Cut in the empty line: the interim response never ends. */
  lemma CutInEnd(p: Plan, k: nat)
    requires 23 <= k <= 24 && NoCR(p.started.status)
    ensures ReadResponse(CONTINUE[..k] + PlanBytes(p)) == Garbled
  {
    var first, cut := CONTINUE[..21], CONTINUE[23..k];
    FirstOfContinue();
    EndOfContinue(k);
    Regrouped(first + CRLF, cut, PlanBytes(p));
    NoFieldBehind(first, cut, p);
  }

  // A body is no reply

  lemma {:induction false} DecodedIsShorter(s: string)
    ensures DecodeChunked(s).Done? ==> |DecodeChunked(s).value| < |s|
    decreases |s|
  {
    if TakeLine(s).Some? && ChunkSize(TakeLine(s).value.0).Some? {
      var n, rest := ChunkSize(TakeLine(s).value.0).value, TakeLine(s).value.1;
      if 0 < n && n + 2 <= |rest| { DecodedIsShorter(rest[n + 2..]); }
    }
  }

  lemma BodyShorter(s: string)
    ensures ReadResponse(s).Whole? || ReadResponse(s).OpenEnded? ==> |ReadResponse(s).m.body| < |s|
  {
    if ParseHead(s).Done? { DecodedIsShorter(ParseHead(s).rest); }
  }

  /** Every message read is shorter than what it is read from. */
  lemma {:induction false} MessagesShorter(s: string, closed: bool, m: Message)
    requires m in ReadAll(s, closed).messages
    ensures |m.body| < |s|
    decreases |s|
  {
    BodyShorter(s);
    if ReadResponse(s).Whole? && m != ReadResponse(s).m {
      MessagesShorter(ReadResponse(s).rest, closed, m);
    }
  }

  lemma StartsWithVersion(line: string)
    ensures IsStatusLine(line) ==> line[0] == 'H'
  {
    if IsStatusLine(line) { assert line[..7][0] == line[0]; }
  }

  lemma NotAResponse(s: string, closed: bool)
    requires s != "" && s[0] != 'H'
    ensures ReadAll(s, closed).verdict != Clean
  {
    if TakeLine(s).Some? {
      var line := TakeLine(s).value.0;
      assert line != "" ==> line[0] == s[0];
      StartsWithVersion(line);
    }
  }

  lemma FirstDigit(n: nat)
    ensures Hex(n) != "" && Hex(n)[0] != 'H'
  {
    HexReadsBack(n);
    assert Hex(n)[0] in Hex(n);
    assert HexDigitValue('H') == -1;
  }

  lemma FirstStays(a: string, b: string)
    requires a != ""
    ensures (a + b)[0] == a[0]
  {
  }

  lemma FrameStart(chunk: string, s: string)
    ensures Frame(chunk) + s != "" && (Frame(chunk) + s)[0] != 'H'
  {
    var digits := Hex(|chunk| % UINT_SIZE);
    FirstDigit(|chunk| % UINT_SIZE);
    FirstStays(digits, CRLF);
    FirstStays(digits + CRLF, chunk);
    FirstStays(digits + CRLF + chunk, CRLF);
    FirstStays(Frame(chunk), s);
  }

  lemma CodedIsNoHead(chunks: seq<string>)
    ensures var s := Frames(chunks) + TERMINATOR;
            s != "" && s[0] != 'H'
  {
    if chunks == [] {
      assert Frames(chunks) + TERMINATOR == TERMINATOR;
    } else {
      FrameStart(chunks[0], Frames(chunks[1..]) + TERMINATOR);
      Regrouped(Frame(chunks[0]), Frames(chunks[1..]), TERMINATOR);
    }
  }

  lemma BodyIsNotTheReply(p: Plan, closed: bool)
    requires Coherent(p) && !p.content.Broken()
    ensures ReadAll(p.content.Coded(p.chunked), closed) != Transcript([Expected(p)], Clean)
  {
    var coded := p.content.Coded(p.chunked);
    if p.chunked {
      CodedIsNoHead(p.content.chunks);
      NotAResponse(coded, closed);
    } else {
      PlainIsData(p.content);
      if ReadAll(coded, closed).messages == [Expected(p)] {
        MessagesShorter(coded, closed, Expected(p));
      }
    }
  }

  lemma WholeReplyReads(p: Plan, closed: bool)
    requires Coherent(p) && Decent(p.started, |p.content.Data()|) && !p.content.Broken()
    requires SelfDelimiting(p) || closed
    ensures ReadAll(PlanBytes(p), closed) == Transcript([Expected(p)], Clean)
  {
    var s := PlanBytes(p);
    ReplyInTwo(p);
    assert s != "" && s + "" == s;
    if SelfDelimiting(p) {
      ReplyReadsBack(p, "");
      assert ReadAll("", closed) == Transcript([], Clean);
    } else {
      ReplyToCloseReadsBack(p);
    }
  }

  lemma CutIsHarmful(p: Plan, k: nat, closed: bool)
    requires Coherent(p) && Decent(p.started, |p.content.Data()|) && !p.content.Broken() && 0 < k < |CONTINUE|
    ensures ReadAll(CONTINUE[..k] + PlanBytes(p), closed) != Transcript([Expected(p)], Clean)
  {
    ContinueParts();
    if k <= 12 {
      CutInVersion(p, k);
    } else if k <= 22 {
      CutInPhrase(p, k);
      BodyIsNotTheReply(p, closed);
    } else {
      CutInEnd(p, k);
    }
  }

  // An error message behind a cut interim response starts where that one stopped

  lemma ErrorIsLonger(code: nat)
    requires 1 <= code <= 4
    ensures |ErrorStatus(code)| >= 15
  {
  }

  lemma VersionIsCommon(k: nat)
    requires k <= |ResponseHead.VERSION|
    ensures k <= |CONTINUE| && CONTINUE[..k] == ResponseHead.VERSION[..k]
  {
  }

  /** What is left of an error message behind the first `k` octets, but for its end. */
  function ErrorTail(code: nat, k: nat): string
    requires 1 <= code <= 4 && |ResponseHead.VERSION| <= k <= |ResponseHead.VERSION| + |ErrorStatus(code)|
  {
    ErrorStatus(code)[k - |ResponseHead.VERSION|..]
  }

  lemma ErrorFrom(code: nat, k: nat)
    requires 1 <= code <= 4 && |ResponseHead.VERSION| <= k <= |ResponseHead.VERSION| + |ErrorStatus(code)|
    ensures k <= |ErrorMessage(code)| && ErrorMessage(code)[k..] == ErrorTail(code, k) + CRLF + CRLF
  {
  }

  lemma TailIsPlain(code: nat, k: nat)
    requires 1 <= code <= 4 && |ResponseHead.VERSION| <= k <= |ResponseHead.VERSION| + |ErrorStatus(code)|
    ensures '\r' !in ErrorTail(code, k) && '\n' !in ErrorTail(code, k) && ':' !in ErrorTail(code, k)
  {
    ErrorIsPlain(code);
    PlainHasNone(ErrorTail(code, k));
  }

  /** A CR can only stand at the end of the cut, and no LF comes behind it. */
  lemma PlainBehind(cut: string, tail: string)
    requires (forall i :: 0 <= i < |cut| - 1 ==> cut[i] != '\r') && '\r' !in tail && '\n' !in tail
    ensures NoBreak(cut + tail)
  {
    assert forall c :: c in tail ==> c != '\r' && c != '\n';
    forall i | 0 <= i < |cut + tail| - 1 && (cut + tail)[i] == '\r'
      ensures (cut + tail)[i + 1] != '\n'
    {
      assert i + 1 >= |cut| ==> (cut + tail)[i + 1] in tail;
    }
  }

  /** A head of one line that claims an interim status, or none at all, is no message. */
  lemma LoneLine(line: string, closed: bool)
    requires NoBreak(line) && |line| > 9 && line[9] == '1'
    ensures ReadAll(line + CRLF + CRLF, closed).messages == []
  {
    var s := line + CRLF + CRLF;
    TakeLineWithin(line, CRLF);
    assert CRLF == "" + CRLF + "";
    TakeLineOf("", "");
    if IsStatusLine(line) {
      assert ParseHead(s) == Done(Head(line[9..], []), "");
      assert ReadResponse(s) == Whole(Message(line[9..], [], ""), "");
      assert [] + ReadAll("", closed).messages == [];
    }
  }

  lemma NoColonNoField(line: string)
    requires ':' !in line
    ensures ParseField(line) == None
  {
  }

  /** A status line and then a line that is no field. */
  lemma LoneField(first: string, line: string, closed: bool)
    requires NoCR(first) && IsStatusLine(first) && NoBreak(line) && line != "" && ':' !in line
    ensures ReadAll(first + CRLF + (line + CRLF + CRLF), closed).messages == []
  {
    TakeLineOf(first, line + CRLF + CRLF);
    TakeLineWithin(line, CRLF);
    NoColonNoField(line);
  }

  /** In the status code or behind it. */
  lemma ErrorInPhrase(code: nat, k: nat, closed: bool)
    requires 1 <= code <= 4 && 10 <= k <= 22
    ensures ReadAll(CONTINUE[..k] + ErrorMessage(code)[k..], closed).messages == []
  {
    ContinueParts();
    ErrorIsLonger(code);
    ErrorFrom(code, k);
    TailIsPlain(code, k);
    var cut, tail := CONTINUE[..k], ErrorTail(code, k);
    assert forall i :: 0 <= i < k - 1 ==> cut[i] == CONTINUE[..21][i];
    PlainBehind(cut, tail);
    assert (cut + tail)[9] == cut[9] == '1';
    assert cut + (tail + CRLF + CRLF) == (cut + tail) + CRLF + CRLF;
    LoneLine(cut + tail, closed);
  }

  lemma FieldCutInTwo(first: string, cut: string, tail: string, closed: bool)
    requires NoCR(first) && IsStatusLine(first) && (tail != "" || cut != "")
    requires |cut| <= 1 && (forall i :: 0 <= i < |cut| ==> cut[i] == '\r')
    requires '\r' !in tail && '\n' !in tail && ':' !in tail
    ensures ReadAll((first + CRLF + cut) + (tail + CRLF + CRLF), closed).messages == []
  {
    PlainBehind(cut, tail);
    assert (first + CRLF + cut) + (tail + CRLF + CRLF) == first + CRLF + ((cut + tail) + CRLF + CRLF);
    LoneField(first, cut + tail, closed);
  }

  /** In the empty line. */
  lemma ErrorInEnd(code: nat, k: nat, closed: bool)
    requires 1 <= code <= 4 && 23 <= k <= 24
    ensures ReadAll(CONTINUE[..k] + ErrorMessage(code)[k..], closed).messages == []
  {
    FirstOfContinue();
    EndOfContinue(k);
    ErrorIsLonger(code);
    ErrorFrom(code, k);
    TailIsPlain(code, k);
    FieldCutInTwo(CONTINUE[..21], CONTINUE[23..k], ErrorTail(code, k), closed);
  }

  lemma ErrorBehindCut(code: nat, k: nat)
    requires 1 <= code <= 4 && k < |CONTINUE|
    ensures k <= |ErrorMessage(code)|
    ensures ReadAll(CONTINUE[..k] + ErrorMessage(code)[k..], true)
            == Transcript([Message(ErrorStatus(code), [], "")], Clean)
       <==> k <= |ResponseHead.VERSION|
  {
    ErrorIsLonger(code);
    if k <= |ResponseHead.VERSION| {
      VersionIsCommon(k);
      ErrorIsReceived(code);
      assert ErrorMessage(code)[..k] == ResponseHead.VERSION[..k];
      assert ErrorMessage(code)[..k] + ErrorMessage(code)[k..] == ErrorMessage(code);
    } else if k <= 22 {
      ErrorInPhrase(code, k, true);
    } else {
      ErrorInEnd(code, k, true);
    }
  }

  // Both kinds of reply

  /** Where the final reply starts if `k` octets of the interim response were sent. */
  function OffsetBehind(k: nat): nat { if k == |CONTINUE| then 0 else k }

  /** The final reply alone is what it should be. */
  lemma WholeReplyReadsBack(x: Exchange, closed: bool)
    requires WellScoped(x) && !x.Interim? && Honest(x) && ReplyTo(x).ending != Abort
    requires closed || Stays(ReplyTo(x).ending)
    ensures ReadAll(ReplyTo(x).bytes, closed) == Transcript(Delivered(x), Clean)
  {
    if closed {
      LastReplyReadsBack(x);
    } else {
      var s := ReplyTo(x).bytes;
      StayingReplyReadsBack(x, "", closed);
      assert s + "" == s && Delivered(x) + [] == Delivered(x);
      assert ReadAll("", closed) == Transcript([], Clean);
    }
  }

  lemma PlanBehindCut(x: Exchange, k: nat, closed: bool)
    requires WellScoped(x) && SetsOffset(x) && Honest(x) && ReplyTo(x).ending != Abort
    requires 0 < k < |CONTINUE|
    ensures ReadAll(CONTINUE[..k] + ReplyTo(x).bytes, closed) != Transcript(Delivered(x), Clean)
  {
    PlanIsCoherent(x.asked, x.app);
    CutIsHarmful(PlanOf(x.asked, x.app).value, k, closed);
  }

  /** The code of the error message that a reply without plan consists of. */
  lemma NoPlanIsError(x: Exchange) returns (code: nat)
    requires WellScoped(x) && !x.Interim? && Honest(x) && !SetsOffset(x)
    ensures 1 <= code <= 4 && ReplyTo(x).bytes == ErrorMessage(code)
    ensures Delivered(x) == [Message(ErrorStatus(code), [], "")]
    ensures ReplyTo(x).ending == Close
  {
    if x.Rejected? {
      code := x.code;
    } else {
      code := 4;
      NoFileBehindError(x.asked, x.app);
    }
  }

  /** After one write the connection is read again. If the final reply then follows, the client gets it
      exactly if the interim response was sent whole, or not at all, or, in front of an error message,
      not beyond the version. */
  lemma CutInterimIsHarmlessIff(x: Exchange, k: nat, closed: bool)
    requires WellScoped(x) && !x.Interim? && Honest(x) && ReplyTo(x).ending != Abort
    requires k <= |CONTINUE| && (closed || Stays(ReplyTo(x).ending))
    ensures ReadAll(CONTINUE[..k] + ReplyFrom(x, OffsetBehind(k)), closed) == Transcript(Delivered(x), Clean)
       <==> k == |CONTINUE| || k <= (if SetsOffset(x) then 0 else |ResponseHead.VERSION|)
  {
    var s := ReplyTo(x).bytes;
    WholeReplyReadsBack(x, closed);
    if k == 0 {
      assert CONTINUE[..0] + s == s;
    } else if k == |CONTINUE| {
      ContinueReadsBack(s);
      assert CONTINUE[..k] == CONTINUE;
    } else if SetsOffset(x) {
      PlanBehindCut(x, k, closed);
    } else {
      var code := NoPlanIsError(x);
      ErrorBehindCut(code, k);
    }
  }

  // The objects do just that

  /** What is accepted of an interim response. */
  function Taken(w: SysResult): nat { if w.Accepts? then Min(w.cap, |CONTINUE|) else 0 }

  /** The read behind it completes the request, or finds an error in it. */
  predicate IsFinal(input: ReadInput) {
    input.Data? && InputInScope(input) && !input.parsed.expectContinue
      && (input.parsed.errorCode != 0 || input.parsed.finished)
  }

  lemma ReplyFromIsShort(x: Exchange, k: nat)
    requires WellScoped(x)
    ensures |ReplyFrom(x, k)| <= |ReplyTo(x).bytes|
  {
  }

  method InterimWanted(input: ReadInput) returns (r: Request)
    requires IsFinal(input)
    ensures fresh(r) && r.Valid() && r.health.Sound? && r.watcher == ForWrite && r.state.Interim()
    ensures r.View() == Session(Replying(CONTINUE, Resume, false, true), "") && r.Now().Owed() == CONTINUE
  {
    r := new Request();
    r.EvIoOnRead(Data(Parsed(0, false, true), input.asked, input.app));
  }

  /** The first half: the interim response, sent as far as `w` goes. */
  method InterimSent(w: SysResult, input: ReadInput) returns (r: Request)
    requires IsFinal(input)
    ensures fresh(r) && r.Valid() && r.health.Sound? && r.watcher == ForRead
    ensures r.View() == Session(ReadingAt(OffsetBehind(Taken(w))), CONTINUE[..Taken(w)])
  {
    r := InterimWanted(input);
    ghost var l := r.EvIoOnWrite(w);
    InterimStep(CONTINUE, "", Taken(w));
    assert "" + CONTINUE[..Taken(w)] == CONTINUE[..Taken(w)];
  }

  /** The second half begins: the rest of the request has been read, and the final reply is at hand. */
  method FinalWanted(w: SysResult, input: ReadInput) returns (r: Request)
    requires IsFinal(input)
    ensures fresh(r) && r.Valid() && r.health.Sound? && r.watcher == ForWrite && !r.state.expectContinue
    ensures var x := ReadLabel(input).x;
            && WellScoped(x) && !x.Interim?
            && r.View().phase
               == Replying(ReplyFrom(x, OffsetBehind(Taken(w))), ReplyTo(x).ending, ReplyTo(x).probe, false)
            && r.wire == CONTINUE[..Taken(w)]
  {
    r := InterimSent(w, input);
    r.EvIoOnRead(input);
  }

  /** A fresh connection sends an interim response in one write that meets `w`, reads the rest of the
      request, and sends the final reply to its end. What it then has on its wire, and whether the client
      can read it. A fatal errno in that first write, too, lets the connection be used again. */
  method ThroughInterim(w: SysResult, input: ReadInput, caps: seq<nat>) returns (r: Request)
    requires IsFinal(input)
    requires forall i :: 0 <= i < |caps| ==> caps[i] > 0
    requires |caps| > |ReplyTo(ReadLabel(input).x).bytes|
    ensures var x := ReadLabel(input).x;
            && r.Valid()
            && r.View() == Session(Settled(ReplyTo(x).ending),
                 CONTINUE[..Taken(w)] + ReplyFrom(x, OffsetBehind(Taken(w))))
            && (Honest(x) && ReplyTo(x).ending != Abort ==>
                  (ReadAll(r.wire, !r.open) == Transcript(Delivered(x), Clean)
                   <==> Taken(w) == |CONTINUE| || Taken(w) <= (if SetsOffset(x) then 0 else |ResponseHead.VERSION|)))
  {
    r := FinalWanted(w, input);
    ghost var x := ReadLabel(input).x;
    ReplyFromIsShort(x, OffsetBehind(Taken(w)));
    Flush(r, caps);
    if Honest(x) && ReplyTo(x).ending != Abort {
      CutInterimIsHarmlessIff(x, Taken(w), !r.open);
    }
  }

  /** Of all writes that meet a fatal errno, those of an interim response alone leave a connection that is
      read again. */
  lemma ErrnoIsSurvivedIff(s: Session, l: Label)
    requires s.phase.Replying? && Enabled(s, l) && WriteAnswers(s.phase, Errno, l)
    ensures After(s, l).phase.Parses() <==> s.phase.overridden && s.phase.ending == Resume
  {
  }

  // A header that counts as a length for the server only

  /** A kept-alive reply whose body the client cannot delimit. */
  predicate Misleading(asked: Asked, s: Started, body: string) {
    asked.shouldKeepAlive && Decent(s, |body|) && !IsEmptyStatus(s.status) && LengthFound(s.headers)
      && !HasContentLength(s.headers)
  }

  /** What the client takes such a reply for. */
  function Swallower(s: Started, body: string): Message {
    Message(s.status, AllReceived(s.headers) + ResponseHead.OwnFields(true, false), body)
  }

  lemma MisleadingReply(asked: Asked, app: Application, s: Started, body: string)
    requires Misleading(asked, s, body) && body != ""
    requires app.answer == ByteString(body) && OnRecord(app.calls) == Some(s)
    ensures var x := Answered(asked, app);
            && WellScoped(x) && ReplyTo(x).ending == Reuse && !ReplyTo(x).probe && ReplyTo(x).bytes != ""
            && ReadResponse(ReplyTo(x).bytes) == OpenEnded(Swallower(s, body))
  {
    var content := Pieces([body], false);
    MisleadingLength(asked, s, body);
    FlattenSingle(body);
    assert content.Data() == body;
    assert PlanOf(asked, app) == Some(Decide(asked, s, content));
    ReplyNotEmpty(Answered(asked, app));
  }

  /** The whole of a reply in one write. */
  lemma OneExchange(ls: seq<Label>, x: Exchange)
    requires Run(ls).Some? && Run(ls).value.phase.Reading? && WellScoped(x) && !x.Interim? && !ReplyTo(x).probe
    ensures var both := ls + [Begin(x, false), Transmit(|ReplyTo(x).bytes|)];
            Run(both) == Some(Session(Settled(ReplyTo(x).ending), Run(ls).value.wire + ReplyTo(x).bytes))
  {
    var bytes := ReplyTo(x).bytes;
    RunSnoc(ls, Begin(x, false));
    RunSnoc(ls + [Begin(x, false)], Transmit(|bytes|));
    assert ls + [Begin(x, false)] + [Transmit(|bytes|)] == ls + [Begin(x, false), Transmit(|bytes|)];
    assert bytes[..|bytes|] == bytes;
  }

  /** Two exchanges on a fresh connection, each sent in one write. */
  function TwoExchanges(x: Exchange, y: Exchange): seq<Label>
    requires WellScoped(x) && WellScoped(y)
  {
    [Begin(x, false), Transmit(|ReplyTo(x).bytes|), Begin(y, false), Transmit(|ReplyTo(y).bytes|)]
  }

  lemma TwoBegun(x: Exchange, y: Exchange)
    requires WellScoped(x) && WellScoped(y)
    ensures Undisturbed(TwoExchanges(x, y)) && Begun(TwoExchanges(x, y)) == [x, y]
  {
    var l0, l1, l2, l3 := Begin(x, false), Transmit(|ReplyTo(x).bytes|), Begin(y, false), Transmit(|ReplyTo(y).bytes|);
    assert [l0, l1, l2, l3][..3] == [l0, l1, l2] && [l0, l1, l2][..2] == [l0, l1] && [l0, l1][..1] == [l0]
      && [l0][..0] == [];
    assert Begun([l0]) == [x];
    assert Begun([l0, l1, l2]) == [x, y];
  }

  lemma TwoExchangesRun(x: Exchange, y: Exchange)
    requires WellScoped(x) && !x.Interim? && !ReplyTo(x).probe && ReplyTo(x).ending == Reuse
    requires WellScoped(y) && !y.Interim? && !ReplyTo(y).probe
    ensures Run(TwoExchanges(x, y)).Some? && Run(TwoExchanges(x, y)).value.wire == ReplyTo(x).bytes + ReplyTo(y).bytes
  {
    var a, b := ReplyTo(x).bytes, ReplyTo(y).bytes;
    var first, second := [Begin(x, false), Transmit(|a|)], [Begin(y, false), Transmit(|b|)];
    OneExchange([], x);
    assert [] + first == first;
    OneExchange(first, y);
    assert first + second == TwoExchanges(x, y) && "" + a == a;
  }

  lemma Swallows(a: string, m: Message, b: string)
    requires a != "" && ReadResponse(a) == OpenEnded(m)
    ensures ReadAll(a + b, true) == Transcript([m.(body := m.body + b)], Clean)
  {
    ReadResponseStable(a, b);
  }

  /** Every octet of two replies is sent on one connection, and the client has one message. */
  ghost predicate OneForTwo(x: Exchange, y: Exchange, m: Message)
    requires WellScoped(x) && WellScoped(y)
  {
    var ls := TwoExchanges(x, y);
    && Run(ls).Some? && Undisturbed(ls) && Begun(ls) == [x, y]
    && Run(ls).value.wire == ReplyTo(x).bytes + ReplyTo(y).bytes
    && ReadAll(Run(ls).value.wire, true) == Transcript([m], Clean)
  }

  lemma OpenEndedSwallows(x: Exchange, y: Exchange, m: Message)
    requires WellScoped(x) && !x.Interim? && !ReplyTo(x).probe && ReplyTo(x).ending == Reuse
    requires ReplyTo(x).bytes != "" && ReadResponse(ReplyTo(x).bytes) == OpenEnded(m)
    requires WellScoped(y) && !y.Interim? && !ReplyTo(y).probe
    ensures OneForTwo(x, y, m.(body := m.body + ReplyTo(y).bytes))
  {
    TwoExchangesRun(x, y);
    TwoBegun(x, y);
    Swallows(ReplyTo(x).bytes, m, ReplyTo(y).bytes);
  }

  /** The second reply goes into the body of the first. */
  lemma NextReplyIsSwallowed(asked: Asked, app: Application, s: Started, body: string, y: Exchange)
    requires Misleading(asked, s, body) && body != ""
    requires app.answer == ByteString(body) && OnRecord(app.calls) == Some(s)
    requires WellScoped(y) && !y.Interim? && !ReplyTo(y).probe
    ensures WellScoped(Answered(asked, app))
    ensures OneForTwo(Answered(asked, app), y, Swallower(s, body + ReplyTo(y).bytes))
  {
    MisleadingReply(asked, app, s, body);
    OpenEndedSwallows(Answered(asked, app), y, Swallower(s, body));
  }

  // An application that announces its length by "Content"

  const CONTENT_HEADER := Pair(Str("Content"), Str("5"))

  const MISLED := Application([Call(Str("200 OK"), Entries([CONTENT_HEADER]), Absent)], ByteString("hello"), [], false)

  lemma LiteralsAreLatin1()
    ensures Latin1(Str("200 OK")) == Some("200 OK") && Latin1(Str("Content")) == Some("Content")
    ensures Latin1(Str("5")) == Some("5")
  {
  }

  lemma MisledIsOnRecord()
    ensures OnRecord(MISLED.calls) == Some(Started("200 OK", [Field("Content", "5")]))
  {
    LiteralsAreLatin1();
    var c := MISLED.calls[0];
    assert Cleaned(c.headers) == [Field("Content", "5")];
    FailuresDoNotCount([], c);
    assert [] + [c] == MISLED.calls;
  }

  /** It meets the conditions under which the next reply is swallowed. */
  lemma MisledIsMisleading()
    ensures OnRecord(MISLED.calls) == Some(Started("200 OK", [Field("Content", "5")]))
    ensures MISLED.answer == ByteString("hello")
    ensures Misleading(Asked(true, 1, 1), Started("200 OK", [Field("Content", "5")]), "hello")
  {
    MisledIsOnRecord();
    ContentMisleads("5", |"hello"|);
  }

  // A file with a descriptor but no length

  /** Without a header that counts as a length, the length of the body does not matter. */
  lemma NeverCounted(s: Started)
    requires !LengthFound(s.headers)
    ensures forall n: nat :: LengthsAre(s.headers, n)
  {
    forall i | 0 <= i < |s.headers|
      ensures !IsContentLength(s.headers[i].name)
    {
      assert !CountsAsLength(s.headers[i].name);
      if IsContentLength(s.headers[i].name) { ContentLengthCounts(s.headers[i].name); }
    }
  }

  /** Why the two sendfile tests must agree: a chunked head with nothing left in the file behind
      it lacks its terminator, so the client waits on a connection that the server is reading. */
  lemma DisagreeingTestsNeverEnd(asked: Asked, app: Application)
    requires InScope(asked, app) && !TestsAgree(app) && PlanOf(asked, app).Some?
    requires PlanOf(asked, app).value.chunked && Decent(PlanOf(asked, app).value.started, 0)
    requires app.answer.file.position.Some? && FileBody(app.answer.file) == ""
    ensures var p := PlanOf(asked, app).value;
            EndingOf(p.content, p.keepAlive) == Reuse && ReadResponse(PlanBytes(p)) == Partial
  {
    var p := PlanOf(asked, app).value;
    var broken := p.(content := Pieces(p.content.chunks, true));
    NeverCounted(p.started);
    BrokenChunkedIsPartial(broken, |PlanBytes(broken)|);
    assert PlanBytes(broken) == PlanBytes(p) && PlanBytes(p)[..|PlanBytes(p)|] == PlanBytes(p);
  }

  lemma {:induction false} DecodedIsNotAll(chunks: seq<string>, file: string)
    requires AllFramable(chunks)
    ensures DecodeChunked(Frames(chunks) + file).Done? ==>
              |DecodeChunked(Frames(chunks) + file).value| < |Flatten(chunks) + file|
  {
    if chunks == [] {
      DecodedIsShorter(file);
      assert Frames(chunks) + file == file && Flatten(chunks) + file == file;
    } else {
      var c, more := chunks[0], chunks[1..];
      assert Framable(c) && AllFramable(more);
      Regrouped(Frame(c), Frames(more), file);
      DecodeFrame(c, Frames(more) + file);
      DecodedIsNotAll(more, file);
    }
  }

  /** The client's view of a chunked head with plain octets of a file behind the frames. */
  lemma FramesThenFile(p: Plan)
    requires p.content.ThenFile? && p.chunked && p.keepAlive && AllFramable(p.content.chunks)
    requires Decent(p.started, |p.content.Data()|) && !IsEmptyStatus(p.started.status)
    requires !LengthFound(p.started.headers)
    ensures ParseHead(PlanBytes(p)) == Done(Head(p.started.status, Expected(p).fields),
                                            Frames(p.content.chunks) + FileBody(p.content.file))
    ensures FramingOf(Head(p.started.status, Expected(p).fields)) == InChunks
  {
    var file, frames := FileBody(p.content.file), Frames(p.content.chunks);
    var broken := p.(content := Pieces(p.content.chunks, true));
    NeverCounted(p.started);
    FramingOfReply(broken, 0);
    HeadOfReply(broken, 0, file);
    Regrouped(ResponseHead.Render(p.started.status, p.started.headers, p.keepAlive, p.chunked), frames, file);
    assert frames + "" == frames;
  }

  lemma FileBehindFrames(p: Plan)
    requires p.content.ThenFile? && p.chunked && p.keepAlive && AllFramable(p.content.chunks)
    requires Decent(p.started, |p.content.Data()|) && !IsEmptyStatus(p.started.status)
    requires !LengthFound(p.started.headers)
    ensures ReadAll(PlanBytes(p), true) != Transcript([Expected(p)], Clean)
  {
    var s := PlanBytes(p);
    FramesThenFile(p);
    DecodedIsNotAll(p.content.chunks, FileBody(p.content.file));
    assert s != "" && !ReadResponse(s).OpenEnded?;
    if ReadResponse(s).Whole? {
      assert ReadAll(s, true).messages[0] == ReadResponse(s).m;
    }
  }

  /** Of all applications for which the tests disagree, the client receives the reply exactly if it is not
      chunked. */
  lemma DisagreeingTestsReadBackIff(asked: Asked, app: Application)
    requires InScope(asked, app) && !TestsAgree(app) && PlanOf(asked, app).Some?
    requires var p := PlanOf(asked, app).value;
             && Decent(p.started, |p.content.Data()|) && !p.content.Broken()
             && (LengthFound(p.started.headers) && !IsEmptyStatus(p.started.status) ==>
                   HasContentLength(p.started.headers))
    ensures var p := PlanOf(asked, app).value;
            ReadAll(PlanBytes(p), true) == Transcript([Expected(p)], Clean) <==> !p.chunked
  {
    var p := PlanOf(asked, app).value;
    if p.chunked {
      FileBehindFrames(p);
    } else {
      WholeReplyReads(p, true);
    }
  }

  /** A wsgi.file_wrapper over a file of five octets, read to its end by the iterator, and no length. */
  const UNANNOUNCED := Application(
    [Call(Str("200 OK"), Entries([]), Absent)],
    FileWrapper(Some(3), File("hello", Some(5)), [Chunk("hello")]), [], false)

  lemma UnannouncedOnRecord()
    ensures OnRecord(UNANNOUNCED.calls) == Some(Started("200 OK", []))
    ensures UNANNOUNCED.calls + UNANNOUNCED.lateCalls == UNANNOUNCED.calls
  {
    LiteralsAreLatin1();
    var c := UNANNOUNCED.calls[0];
    assert Cleaned(c.headers) == [];
    FailuresDoNotCount([], c);
    assert [] + [c] == UNANNOUNCED.calls;
  }

  /** It is such an application, and its reply is chunked. */
  lemma UnannouncedDisagrees()
    ensures !TestsAgree(UNANNOUNCED)
    ensures PlanOf(Asked(true, 1, 1), UNANNOUNCED)
         == Some(Plan(Started("200 OK", []), true, true, ThenFile(["hello"], File("hello", Some(5)))))
    ensures InScope(Asked(true, 1, 1), UNANNOUNCED) && Decent(Started("200 OK", []), 5)
  {
    UnannouncedOnRecord();
    OkIsFinal();
    assert Chunks([Chunk("hello")]) == ["hello"];
  }
}
