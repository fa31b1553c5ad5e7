/** What the server owes a client for one request, said without reference to how it is
    assembled: bjoern/wsgi.c, wsgi_call_application, and the error paths of bjoern/server.c. */
module Reply {
  import opened Octets
  import opened MessageSyntax
  import opened ChunkedCoding
  import opened StartResponse
  import ResponseHead

  // The application's side

  /** One step of a Python iterator. What lies behind a bad item is never asked for. */
  datatype Item = Chunk(data: string) | NotBytes | Raises

  /** The file behind a wsgi.file_wrapper; `position` is what lseek(fd, 0, SEEK_CUR) answers, None for -1. */
  datatype File = File(content: string, position: Option<nat>)

  datatype Answer =
    | Raised
    | ByteString(data: string)
    | OneItemList(data: string)
    | FileWrapper(fd: Option<nat>, file: File, blocks: seq<Item>)
    | Iterable(iter: Option<seq<Item>>)

  /** `calls` are the start_response calls made before the application returns, `lateCalls`
      those made while the first non-empty item is computed. */
  datatype Application = Application(calls: seq<Call>, answer: Answer, lateCalls: seq<Call>, closable: bool)

  /** What the parser knows of the request when the response starts. */
  datatype Asked = Asked(shouldKeepAlive: bool, major: nat, minor: nat)

  /** The non-empty items up to the first bad one. */
  function Chunks(items: seq<Item>): (r: seq<string>)
    ensures forall c :: c in r ==> c != ""
  {
    if items == [] || !items[0].Chunk? then []
    else if items[0].data == "" then Chunks(items[1..])
    else [items[0].data] + Chunks(items[1..])
  }

  predicate Breaks(items: seq<Item>) {
    exists i :: 0 <= i < |items| && !items[i].Chunk?
  }

  /** The data of all items, the empty ones included. */
  function AllData(items: seq<Item>): string {
    if items == [] then "" else (if items[0].Chunk? then items[0].data else "") + AllData(items[1..])
  }

  /** `k` items are good, and the next one, if there is one, is not. */
  predicate GoodUpTo(items: seq<Item>, k: nat) {
    && k <= |items| && (forall i :: 0 <= i < k ==> items[i].Chunk?)
    && (k < |items| ==> !items[k].Chunk?)
  }

  /** Skipping empty items loses nothing of what comes before the first bad one. */
  lemma {:induction false} SkippingLosesNothing(items: seq<Item>, k: nat)
    requires GoodUpTo(items, k)
    ensures Flatten(Chunks(items)) == AllData(items[..k])
    ensures Breaks(items) <==> k < |items|
  {
    if k == 0 {
      assert items[..0] == [];
    } else {
      var more := items[1..];
      assert forall i :: 0 <= i < |more| ==> more[i] == items[i + 1];
      SkippingLosesNothing(more, k - 1);
      assert items[..k][1..] == more[..k - 1];
      if items[0].data == "" {
        assert "" + AllData(more[..k - 1]) == AllData(more[..k - 1]);
      } else {
        assert Chunks(items)[1..] == Chunks(more);
      }
      if Breaks(more) {
        var i :| 0 <= i < |more| && !more[i].Chunk?;
        assert !items[i + 1].Chunk?;
      }
    }
  }

  /** The sendfile test of wsgi_call_application; ev_io_on_write makes only its second half. */
  predicate SendsFile(app: Application) {
    app.answer.FileWrapper? && app.answer.fd.Some? && !LengthUnknown(app.calls)
  }

  // The response that was decided on

  /** HTTP 204 and 304, decided on the first three octets of the status. */
  predicate Bodiless(status: string)
    requires |status| >= 3
  {
    status[..3] == "204" || status[..3] == "304"
  }

  function FileBody(f: File): string {
    if f.position.Some? && f.position.value < |f.content| then f.content[f.position.value..] else ""
  }

  function Parts(chunked: bool, chunks: seq<string>): string {
    if chunked then Frames(chunks) else Flatten(chunks)
  }

  /** A body in the pieces it will be sent in: the chunks of an iterator, `breaks` if an error
      ends it, or what was taken from an iterator already and then a file through sendfile. */
  datatype Content =
    | Pieces(chunks: seq<string>, breaks: bool)
    | ThenFile(chunks: seq<string>, file: File)
  {
    function Data(): string {
      Flatten(chunks) + if ThenFile? then FileBody(file) else ""
    }

    /** It stops before its end, because of an iterator or because the file has no position. */
    predicate Broken() { if ThenFile? then file.position.None? else breaks }

    /** The end is found by one more, empty, sendfile. */
    predicate Probed() { ThenFile? && file.position.Some? }

    function Coded(chunked: bool): string {
      Parts(chunked, chunks)
      + if ThenFile? then FileBody(file) else if chunked && !breaks then TERMINATOR else ""
    }
  }

  datatype Plan = Plan(started: Started, keepAlive: bool, chunked: bool, content: Content)

  function Decide(asked: Asked, started: Started, content: Content): Plan
    requires |started.status| >= 3
  {
    var unknown := !LengthFound(started.headers) && !Bodiless(started.status);
    var persistent := asked.major > 0 && asked.minor > 0;
    Plan(started, asked.shouldKeepAlive && (unknown ==> persistent),
         asked.shouldKeepAlive && unknown && persistent, content)
  }

  /** Where the body comes from, and the start_response calls made until that is known. */
  datatype Source = Source(content: Content, calls: seq<Call>)

  /** The generic path. With a descriptor the first chunk is the only one taken from the
      iterator, because ev_io_on_write then goes on with sendfile. */
  function FromIterator(items: Option<seq<Item>>, file: Option<File>, calls: seq<Call>): Option<Source> {
    if items == None || (Chunks(items.value) == [] && Breaks(items.value)) then None
    else if file.Some? then
      Some(Source(ThenFile(if Chunks(items.value) == [] then [] else [Chunks(items.value)[0]], file.value), calls))
    else Some(Source(Pieces(Chunks(items.value), Breaks(items.value)), calls))
  }

  /** The file that ev_io_on_write will find behind the iterable. */
  function AttachedFile(app: Application): Option<File> {
    if app.answer.FileWrapper? && app.answer.fd.Some? then Some(app.answer.file) else None
  }

  function SourceOf(app: Application): Option<Source> {
    match app.answer
    case Raised => None
    case ByteString(data) => Some(Source(Pieces(if data == "" then [] else [data], false), app.calls))
    case OneItemList(data) => Some(Source(Pieces(if data == "" then [] else [data], false), app.calls))
    case FileWrapper(_, file, blocks) =>
      if SendsFile(app) then Some(Source(ThenFile([], file), app.calls))
      else FromIterator(Some(blocks), AttachedFile(app), app.calls + app.lateCalls)
    case Iterable(iter) => FromIterator(iter, None, app.calls + app.lateCalls)
  }

  /** None where the client gets a 500 instead. */
  function PlanOf(asked: Asked, app: Application): (r: Option<Plan>)
    ensures r.Some? ==> |r.value.started.status| >= 3
  {
    match SourceOf(app)
    case None => None
    case Some(b) =>
      match OnRecord(b.calls)
      case None => None
      case Some(s) => Some(Decide(asked, s, b.content))
  }

  lemma NoDataNoChunks(chunks: seq<string>)
    requires forall c :: c in chunks ==> c != ""
    ensures Flatten(chunks) == "" <==> chunks == []
  {
    if chunks != [] { assert chunks[0] in chunks; }
  }

  /** What an iterator, or a wsgi.file_wrapper without a descriptor, gives: a 500 if it fails before its first
      octet, otherwise all its octets up to the failure, and the body breaks off there. */
  lemma IteratorReply(asked: Asked, app: Application, items: seq<Item>, k: nat)
    requires app.answer == Iterable(Some(items))
             || (app.answer.FileWrapper? && app.answer.fd == None && app.answer.blocks == items)
    requires GoodUpTo(items, k)
    ensures PlanOf(asked, app).Some?
       <==> OnRecord(app.calls + app.lateCalls).Some? && (k < |items| ==> AllData(items[..k]) != "")
    ensures PlanOf(asked, app).Some? ==>
              var p := PlanOf(asked, app).value;
              && Some(p.started) == OnRecord(app.calls + app.lateCalls)
              && p.content.Data() == AllData(items[..k]) && (p.content.Broken() <==> k < |items|)
  {
    SkippingLosesNothing(items, k);
    NoDataNoChunks(Chunks(items));
    assert Flatten(Chunks(items)) + "" == Flatten(Chunks(items));
  }

  /** The two sendfile tests give one answer. */
  predicate TestsAgree(app: Application) { AttachedFile(app).Some? ==> SendsFile(app) }

  /** No chunk that must be framed reaches 2^28 octets. */
  predicate InScope(asked: Asked, app: Application) {
    PlanOf(asked, app).Some? && PlanOf(asked, app).value.chunked ==>
      AllFramable(PlanOf(asked, app).value.content.chunks)
  }

  function PlanBytes(p: Plan): string {
    ResponseHead.Render(p.started.status, p.started.headers, p.keepAlive, p.chunked) + p.content.Coded(p.chunked)
  }

  lemma PartsOfMore(chunked: bool, first: string, more: seq<string>)
    ensures Parts(chunked, [first] + more) == Parts(chunked, [first]) + Parts(chunked, more)
    ensures Parts(chunked, [first]) == if chunked then Frame(first) else first
  {
    var all := [first] + more;
    assert all[0] == first && all[1..] == more && [first][1..] == [];
    FlattenSingle(first);
    assert Frames([first]) == Frame(first) + Frames([]) == Frame(first);
  }

  // The reply

  const CONTINUE := "HTTP/1.1 100 Continue\r\n\r\n"
  function ErrorStatus(code: nat): string
    requires 1 <= code <= 4
  {
    if code == 1 then "400 Bad Request" else if code == 2 then "406 Length Required"
    else if code == 3 then "417 Expectation Failed" else "500 Internal Server Error"
  }

  /** http_error_messages; the two-bit error_code field holds the first three. */
  function ErrorMessage(code: nat): string
    requires 1 <= code <= 4
  {
    ResponseHead.VERSION + ErrorStatus(code) + CRLF + CRLF
  }

  const SERVER_ERROR := ErrorMessage(4)

  /** The 500, and behind it the file if one is attached already. */
  function ErrorContent(app: Application): Content {
    if AttachedFile(app).Some? then ThenFile([SERVER_ERROR], AttachedFile(app).value) else Pieces([SERVER_ERROR], false)
  }

  datatype Exchange = Interim | Rejected(code: nat) | Answered(asked: Asked, app: Application)

  predicate WellScoped(x: Exchange) {
    match x
    case Interim => true
    case Rejected(code) => 1 <= code <= 3
    case Answered(asked, app) => InScope(asked, app)
  }

  /** What becomes of the connection behind the last octet: the next request, the rest of this
      request, the close, or the close in the middle of a body. */
  datatype Ending = Reuse | Resume | Close | Abort

  datatype Owed = Owed(bytes: string, ending: Ending, probe: bool)

  function EndingOf(content: Content, keepAlive: bool): Ending {
    if content.Broken() then Abort else if keepAlive then Reuse else Close
  }

  function ReplyTo(x: Exchange): Owed
    requires WellScoped(x)
  {
    match x
    case Interim => Owed(CONTINUE, Resume, false)
    case Rejected(code) => Owed(ErrorMessage(code), Close, false)
    case Answered(asked, app) =>
      match PlanOf(asked, app)
      case None => var c := ErrorContent(app); Owed(c.Coded(false), EndingOf(c, false), c.Probed())
      case Some(p) => Owed(PlanBytes(p), EndingOf(p.content, p.keepAlive), p.content.Probed())
  }

  lemma ReplyNotEmpty(x: Exchange)
    requires WellScoped(x)
    ensures ReplyTo(x).bytes != ""
  {
    FlattenSingle(SERVER_ERROR);
  }

  /** wsgi_call_application sets the offset back when it succeeds; nothing else does. */
  predicate SetsOffset(x: Exchange) { x.Answered? && PlanOf(x.asked, x.app).Some? }

  /** What is sent for `x` if `k` octets of an interim response were sent before and the offset stayed there. */
  function ReplyFrom(x: Exchange, k: nat): string
    requires WellScoped(x)
  {
    var bytes := ReplyTo(x).bytes;
    if k == 0 || SetsOffset(x) then bytes else if k <= |bytes| then bytes[k..] else ""
  }

  /** The shortcuts for a byte string and for a list of one change nothing: the client is owed
      what the generic path would owe it for the iterator over that one item. */
  lemma ShortcutsAgree(asked: Asked, calls: seq<Call>, data: string, closable: bool)
    ensures var bytes := Application(calls, ByteString(data), [], closable);
            var list := Application(calls, OneItemList(data), [], closable);
            var iter := Application(calls, Iterable(Some([Chunk(data)])), [], closable);
            PlanOf(asked, bytes) == PlanOf(asked, list) == PlanOf(asked, iter)
  {
    var items := [Chunk(data)];
    assert items[1..] == [];
    assert Chunks(items) == if data == "" then [] else [data];
    assert !Breaks(items);
    assert calls + [] == calls;
  }
}
