/** One read's worth of a request: the parser's callbacks point into a buffer that they share, and
    that on_path overwrites (bjoern/request.c, Request_parse). */
module Parsing {
  import opened Octets
  import opened HeaderLog
  import opened PercentDecoding
  import opened Environ

  /** One callback: what it is for, and which octets of the read buffer it points at. */
  datatype Mark = Mark(kind: Kind, off: nat, len: nat)
  {
    function End(): nat { off + len }
  }

  /** The parser goes through the octets once, from left to right. */
  predicate Ordered(marks: seq<Mark>, n: nat) {
    && (forall i :: 0 <= i < |marks| ==> marks[i].End() <= n)
    && (forall i, j :: 0 <= i < j < |marks| ==> marks[i].End() <= marks[j].off)
  }

  /** It delivers no value without a field, `begun` telling whether there was one before, and nothing
      behind the end of the message. */
  predicate InTurn(begun: bool, marks: seq<Mark>)
    decreases |marks|
  {
    marks == []
    || (&& (marks[0].kind.FieldValue? ==> begun)
        && (marks[0].kind.Complete? ==> |marks| == 1)
        && InTurn(begun || marks[0].kind.FieldName?, marks[1..]))
  }

  function NoticeOf(m: Mark, octets: string): Notice
    requires m.End() <= |octets|
  {
    Notice(m.kind, octets[m.off..m.End()])
  }

  lemma OrderedTail(marks: seq<Mark>, n: nat)
    requires marks != [] && Ordered(marks, n)
    ensures Ordered(marks[1..], n)
  {
    assert forall i :: 0 <= i < |marks[1..]| ==> marks[1..][i] == marks[i + 1];
  }

  /** What the callbacks make of the octets, one by one. */
  function Feed(p: Progress, marks: seq<Mark>, octets: string): Progress
    requires Ordered(marks, |octets|) && InTurn(p.got.log != [], marks) && (marks != [] ==> p.completed == None)
    decreases |marks|
  {
    if marks == [] then p
    else
      OrderedTail(marks, |octets|);
      Feed(Take(p, NoticeOf(marks[0], octets)), marks[1..], octets)
  }

  /** A parser that stops before the end of the octets makes a bad request of them. */
  function ParseOf(p: Progress, marks: seq<Mark>, octets: string, whole: bool): Progress
    requires Ordered(marks, |octets|) && InTurn(p.got.log != [], marks) && (marks != [] ==> p.completed == None)
  {
    var q := Feed(p, marks, octets);
    if whole then q else q.(flags := q.flags.(errorCode := HTTP_BAD_REQUEST))
  }

  /** on_path returns 1. */
  predicate Refused(m: Mark, octets: string)
    requires m.End() <= |octets|
  {
    m.kind.Path? && (m.len == 0 || !WellFormed(octets[m.off..m.End()]))
  }

  /** http_parser stops where on_path returns 1, and reports the octets from there on as not parsed. */
  predicate StopsAtRefusal(marks: seq<Mark>, octets: string, whole: bool)
    requires Ordered(marks, |octets|)
  {
    forall i :: 0 <= i < |marks| && Refused(marks[i], octets) ==> i == |marks| - 1 && !whole
  }

  /** The callbacks still to be made at `p` lead to `q`. */
  predicate LeadsTo(p: Progress, left: seq<Mark>, octets: string, q: Progress) {
    && Ordered(left, |octets|) && InTurn(p.got.log != [], left) && (left != [] ==> p.completed == None)
    && Feed(p, left, octets) == q
  }

  /** One callback and what is left behind it. */
  lemma FeedStep(p: Progress, left: seq<Mark>, octets: string, q: Progress)
    requires left != [] && LeadsTo(p, left, octets, q)
    ensures Proper(p, NoticeOf(left[0], octets)) && LeadsTo(Take(p, NoticeOf(left[0], octets)), left[1..], octets, q)
    ensures |left| > 1 ==> left[0].End() <= left[1].off
  {
    OrderedTail(left, |octets|);
  }

  // What the callbacks of a message leave on record

  function Notices(marks: seq<Mark>, octets: string): seq<Notice>
    requires Ordered(marks, |octets|)
  {
    seq(|marks|, i requires 0 <= i < |marks| => NoticeOf(marks[i], octets))
  }

  function PathParts(ns: seq<Notice>): seq<string> {
    if ns == [] then []
    else PathParts(ns[..|ns| - 1]) + (if ns[|ns| - 1].kind.Path? then [ns[|ns| - 1].s] else [])
  }

  function QueryParts(ns: seq<Notice>): seq<string> {
    if ns == [] then []
    else QueryParts(ns[..|ns| - 1]) + (if ns[|ns| - 1].kind.Query? then [ns[|ns| - 1].s] else [])
  }

  function BodyParts(ns: seq<Notice>): seq<string> {
    if ns == [] then []
    else BodyParts(ns[..|ns| - 1]) + (if ns[|ns| - 1].kind.Body? then [ns[|ns| - 1].s] else [])
  }

  function HeaderParts(ns: seq<Notice>): seq<Callback> {
    if ns == [] then []
    else
      var before, n := HeaderParts(ns[..|ns| - 1]), ns[|ns| - 1];
      before
      + (if n.kind.FieldName? then [FieldPart(n.s)] else if n.kind.FieldValue? then [ValuePart(n.s)] else [])
  }

  /** A message in which nothing is refused, kind by kind. */
  function Recorded(ns: seq<Notice>): Delivered {
    Delivered(LogOf([], HeaderParts(ns)), PathParts(ns), Whole(QueryParts(ns)), Whole(BodyParts(ns)))
  }

  /** The length that the parser knew when the first part of the body came. */
  function FirstLength(ns: seq<Notice>): (r: Option<nat>)
    ensures r == None <==> BodyParts(ns) == []
  {
    if ns == [] then None
    else if FirstLength(ns[..|ns| - 1]).Some? then FirstLength(ns[..|ns| - 1])
    else if ns[|ns| - 1].kind.Body? then Some(ns[|ns| - 1].kind.contentLength) else None
  }

  predicate PathsGood(ns: seq<Notice>) {
    forall i :: 0 <= i < |ns| && ns[i].kind.Path? ==> ns[i].s != "" && WellFormed(ns[i].s)
  }

  /** The record is that of the callbacks `ns`. A body whose first part has no length shows in the error code, and
      every other body is taken. */
  predicate Records(p: Progress, ns: seq<Notice>) {
    && (HeaderParts(ns) == [] || HeaderParts(ns)[0].FieldPart?)
    && (HeaderParts(ns) == [] <==> p.got.log == [])
    && p.got.log == LogOf([], HeaderParts(ns)) && p.got.query == Whole(QueryParts(ns))
    && (PathsGood(ns) ==> p.got.pieces == PathParts(ns))
    && (if FirstLength(ns) == Some(0) then p.flags.errorCode != 0 else p.got.body == Whole(BodyParts(ns)))
  }

  lemma WholeMore(parts: seq<string>, s: string)
    ensures Whole(parts + [s]) == Some((if Whole(parts).Some? then Whole(parts).value else "") + s)
  {
    WholeSnoc(parts + [s], |parts|);
    assert (parts + [s])[..|parts|] == parts && (parts + [s])[..|parts| + 1] == parts + [s];
  }

  lemma PathsGoodSnoc(ns: seq<Notice>, n: Notice)
    ensures PathsGood(ns + [n]) <==> PathsGood(ns) && (n.kind.Path? ==> n.s != "" && WellFormed(n.s))
  {
    assert forall i :: 0 <= i < |ns| ==> (ns + [n])[i] == ns[i];
    if PathsGood(ns + [n]) { assert (ns + [n])[|ns|] == n; }
  }

  lemma PartsSnoc(ns: seq<Notice>, n: Notice)
    ensures PathParts(ns + [n]) == if n.kind.Path? then PathParts(ns) + [n.s] else PathParts(ns)
    ensures QueryParts(ns + [n]) == if n.kind.Query? then QueryParts(ns) + [n.s] else QueryParts(ns)
    ensures FirstLength(ns + [n])
         == if FirstLength(ns).Some? || !n.kind.Body? then FirstLength(ns) else Some(n.kind.contentLength)
    ensures BodyParts(ns + [n]) == if n.kind.Body? then BodyParts(ns) + [n.s] else BodyParts(ns)
    ensures HeaderParts(ns + [n])
         == if n.kind.FieldName? then HeaderParts(ns) + [FieldPart(n.s)]
            else if n.kind.FieldValue? then HeaderParts(ns) + [ValuePart(n.s)] else HeaderParts(ns)
  {
    assert (ns + [n])[..|ns|] == ns;
    assert PathParts(ns) + [] == PathParts(ns) && QueryParts(ns) + [] == QueryParts(ns);
    assert BodyParts(ns) + [] == BodyParts(ns)
      && HeaderParts(ns) + [] == HeaderParts(ns);
  }

  lemma LogOfOne(log: seq<Header>, cb: Callback)
    requires cb.FieldPart? || log != []
    ensures LogOf(log, [cb]) == if cb.FieldPart? then AddField(log, cb.s) else AddValue(log, cb.s)
  {
    assert [cb][1..] == [];
  }

  lemma LogSnoc(cbs: seq<Callback>, cb: Callback)
    requires if cbs == [] then cb.FieldPart? else cbs[0].FieldPart?
    requires cb.FieldPart? || LogOf([], cbs) != []
    ensures var log := LogOf([], cbs);
            && LogOf([], cbs + [cb]) == (if cb.FieldPart? then AddField(log, cb.s) else AddValue(log, cb.s))
            && LogOf([], cbs + [cb]) != []
  {
    LogOfAppend([], cbs, [cb]);
    LogOfOne(LogOf([], cbs), cb);
  }

  lemma HeaderRecorded(p: Progress, ns: seq<Notice>, n: Notice)
    requires Proper(p, n) && Records(p, ns) && (n.kind.FieldName? || n.kind.FieldValue?)
    ensures Records(Take(p, n), ns + [n])
  {
    PartsSnoc(ns, n);
    PathsGoodSnoc(ns, n);
    LogSnoc(HeaderParts(ns), if n.kind.FieldName? then FieldPart(n.s) else ValuePart(n.s));
  }

  lemma PathRecorded(p: Progress, ns: seq<Notice>, n: Notice)
    requires Proper(p, n) && Records(p, ns) && n.kind.Path?
    ensures Records(Take(p, n), ns + [n])
  {
    PartsSnoc(ns, n);
    PathsGoodSnoc(ns, n);
    assert Take(p, n) == TakePath(p, n.s);
  }

  lemma QueryRecorded(p: Progress, ns: seq<Notice>, n: Notice)
    requires Proper(p, n) && Records(p, ns) && n.kind.Query?
    ensures Records(Take(p, n), ns + [n])
  {
    PartsSnoc(ns, n);
    PathsGoodSnoc(ns, n);
    WholeMore(QueryParts(ns), n.s);
    assert Take(p, n) == TakeQuery(p, n.s);
  }

  lemma BodyRecorded(p: Progress, ns: seq<Notice>, n: Notice)
    requires Proper(p, n) && Records(p, ns) && n.kind.Body?
    ensures Records(Take(p, n), ns + [n])
  {
    PartsSnoc(ns, n);
    PathsGoodSnoc(ns, n);
    WholeMore(BodyParts(ns), n.s);
    assert Take(p, n) == TakeBody(p, n.s, n.kind.contentLength);
  }

  lemma EndRecorded(p: Progress, ns: seq<Notice>, n: Notice)
    requires Proper(p, n) && Records(p, ns) && n.kind.Complete?
    ensures Records(Take(p, n), ns + [n])
  {
    PartsSnoc(ns, n);
    PathsGoodSnoc(ns, n);
  }

  lemma NoticesStep(ns: seq<Notice>, marks: seq<Mark>, octets: string)
    requires marks != [] && Ordered(marks, |octets|)
    ensures Ordered(marks[1..], |octets|)
    ensures (ns + [NoticeOf(marks[0], octets)]) + Notices(marks[1..], octets) == ns + Notices(marks, octets)
  {
    OrderedTail(marks, |octets|);
  }

  lemma NoNotices(ns: seq<Notice>, octets: string)
    ensures ns + Notices([], octets) == ns
  {
  }

  lemma NoticeRecorded(p: Progress, ns: seq<Notice>, n: Notice)
    requires Proper(p, n) && Records(p, ns)
    ensures Records(Take(p, n), ns + [n])
  {
    match n.kind
    case Path => PathRecorded(p, ns, n);
    case Query => QueryRecorded(p, ns, n);
    case Body(_) => BodyRecorded(p, ns, n);
    case Complete(_) => EndRecorded(p, ns, n);
    case _ => HeaderRecorded(p, ns, n);
  }

  /** The callbacks of one read go on record behind those before. */
  lemma {:induction false} FeedRecords(p: Progress, ns: seq<Notice>, left: seq<Mark>, octets: string, q: Progress)
    requires LeadsTo(p, left, octets, q) && Records(p, ns)
    ensures Records(q, ns + Notices(left, octets))
    decreases |left|
  {
    if left == [] {
      NoNotices(ns, octets);
    } else {
      FeedStep(p, left, octets, q);
      NoticesStep(ns, left, octets);
      var n := NoticeOf(left[0], octets);
      NoticeRecorded(p, ns, n);
      FeedRecords(Take(p, n), ns + [n], left[1..], octets, q);
    }
  }

  /** error_code has two bits. */
  lemma {:induction false} ErrorCodeFits(p: Progress, marks: seq<Mark>, octets: string)
    requires Ordered(marks, |octets|) && InTurn(p.got.log != [], marks) && (marks != [] ==> p.completed == None)
    requires p.flags.errorCode <= 3
    ensures Feed(p, marks, octets).flags.errorCode <= 3
    decreases |marks|
  {
    if marks != [] {
      OrderedTail(marks, |octets|);
      ErrorCodeFits(Take(p, NoticeOf(marks[0], octets)), marks[1..], octets);
    }
  }

  /** The parser's state tells whether a header field was seen. */
  lemma FieldTellsBegun(b: EnvironBuilder)
    requires b.Filling()
    ensures b.field != "" <==> b.NowAt().got.log != []
  {
  }

  /** A callback that only reads its octets. */
  method ReadingCallback(b: EnvironBuilder, c: Notice)
    requires b.Filling() && Proper(b.NowAt(), c) && !c.kind.Path? && !c.kind.Complete?
    modifies b
    ensures b.Filling() && b.NowAt() == Take(old(b.NowAt()), c)
  {
    match c.kind {
      case Query => b.OnQueryString(c.s);
      case FieldName => b.OnHeaderField(c.s);
      case FieldValue(major, minor) => b.OnHeaderValue(c.s, major, minor);
      case Body(contentLength) => var _ := b.OnBody(c.s, contentLength);
      case _ =>
    }
  }

  /** A callback other than the last. */
  method Callback(b: EnvironBuilder, buf: array<char>, m: Mark)
    requires b.Filling() && m.End() <= buf.Length && Proper(b.NowAt(), Notice(m.kind, buf[m.off..m.End()]))
    requires !m.kind.Complete?
    modifies b, buf
    ensures b.Filling() && b.NowAt() == Take(old(b.NowAt()), Notice(m.kind, old(buf[m.off..m.End()])))
    ensures forall k :: 0 <= k < m.off || m.End() <= k < buf.Length ==> buf[k] == old(buf[k])
  {
    if m.kind.Path? {
      var _ := b.OnPath(buf, m.off, m.len);
    } else {
      ReadingCallback(b, Notice(m.kind, buf[m.off..m.End()]));
    }
  }

  /** The callbacks that come before the end of the message. on_path decodes in the buffer, and still
      each of them sees the octets as they were read. */
  method Callbacks(b: EnvironBuilder, buf: array<char>, n: nat, marks: seq<Mark>, ghost q: Progress)
      returns (left: seq<Mark>)
    requires b.Filling() && n <= buf.Length && LeadsTo(b.NowAt(), marks, buf[..n], q)
    modifies b, buf
    ensures b.Filling() && LeadsTo(b.NowAt(), left, old(buf[..n]), q)
    ensures left == [] || left[0].kind.Complete?
  {
    ghost var octets := buf[..n];
    left := marks;
    while left != [] && !left[0].kind.Complete?
      invariant b.Filling() && LeadsTo(b.NowAt(), left, octets, q)
      invariant left != [] ==> forall k :: left[0].off <= k < n ==> buf[k] == octets[k]
      decreases |left|
    {
      var m := left[0];
      FeedStep(b.NowAt(), left, octets, q);
      assert buf[m.off..m.End()] == octets[m.off..m.End()];
      Callback(b, buf, m);
      left := left[1..];
    }
  }

  /** Request_parse. */
  method RequestParse(b: EnvironBuilder, buf: array<char>, n: nat, marks: seq<Mark>, whole: bool)
    requires b.Filling() && 0 < n <= buf.Length
    requires Ordered(marks, n) && InTurn(b.NowAt().got.log != [], marks)
    modifies b, buf
    ensures b.Valid() && b.NowAt() == ParseOf(old(b.NowAt()), marks, old(buf[..n]), whole)
  {
    ghost var octets := buf[..n];
    ghost var q := Feed(b.NowAt(), marks, octets);
    var left := Callbacks(b, buf, n, marks, q);
    if left != [] {
      FeedStep(b.NowAt(), left, octets, q);
      b.OnMessageComplete(left[0].kind.line);
    }
    if !whole {
      b.errorCode := HTTP_BAD_REQUEST;
    }
  }
}
