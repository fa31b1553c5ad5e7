/** The fields of a Request from which a reply is sent, as one value: what is still owed, and
    what a single write makes of it (bjoern/server.c, on_write_chunk and on_write_sendfile). */
module Sending {
  import opened Octets
  import opened MessageSyntax
  import opened ChunkedCoding
  import opened Reply
  import ResponseHead

  /** What a write or sendfile call meets: room for `cap` octets, EAGAIN, or another errno. */
  datatype SysResult = Accepts(cap: nat) | Again | Errno

  datatype WriteState = NotYetDone | Finished | Aborted

  /** request_state. */
  datatype State = State(
    errorCode: nat,
    parseFinished: bool,
    startResponseCalled: bool,
    wsgiCallDone: bool,
    keepAlive: bool,
    responseLengthUnknown: bool,
    chunkedResponse: bool,
    expectContinue: bool)
  {
    /** As Request_reset leaves it, but for what the parser sets. */
    predicate Untouched() {
      !startResponseCalled && !wsgiCallDone && !keepAlive && responseLengthUnknown && !chunkedResponse
    }

    /** ev_io_on_read took the branch of the interim response. */
    predicate Interim() { expectContinue && errorCode == 0 && !parseFinished }
  }

  const CLEARED := State(0, false, false, false, false, true, false, false)

  datatype Iterable = NoIterable | Plain(closable: bool) | Wrapped(fd: Option<nat>, file: File, closable: bool)

  const SENDFILE_CHUNK_SIZE := 16 * 1024

  /** How many octets sendfile moves; none at the end of the file and nowhere else. */
  function SendfileCount(content: string, p: nat, cap: nat): (n: nat)
    requires cap > 0
    ensures n <= cap
    ensures p < |content| ==> 1 <= n && p + n <= |content|
    ensures p >= |content| ==> n == 0
  {
    if p >= |content| then 0 else Min(cap, Min(SENDFILE_CHUNK_SIZE, |content| - p))
  }

  /** `pending` is the iterator: None for NULL, otherwise the items it will still yield. */
  datatype Sending = Sending(
    chunk: Option<string>,
    p: int,
    iterable: Iterable,
    pending: Option<seq<Item>>,
    state: State)
  {
    /** The test of ev_io_on_write. */
    predicate FromFile() { iterable.Wrapped? && iterable.fd.Some? }

    function Items(): seq<Item> { if pending.Some? then pending.value else [] }

    /** What comes behind the current chunk. */
    function Rest(): Content {
      if FromFile() then ThenFile([], iterable.file) else Pieces(Chunks(Items()), Breaks(Items()))
    }

    function Tail(): string { Rest().Coded(state.chunkedResponse) }

    function Owed(): string {
      if chunk.Some? then (if 0 <= p <= |chunk.value| then chunk.value[p..] else "") + Tail()
      else if FromFile() && 0 <= p < |iterable.file.content| then iterable.file.content[p..]
      else ""
    }

    function Ending(): Ending {
      if Rest().Broken() then Abort
      else if state.Interim() then Resume
      else if state.keepAlive then Reuse
      else Close
    }

    /** Every chunk that will be framed fits the length buffer. */
    predicate ChunksFit() { state.chunkedResponse && !FromFile() ==> AllFramable(Chunks(Items())) }

    /** A message that no application had a part in, the last of its reply. */
    predicate IsLiteral() {
      chunk.Some? && iterable == NoIterable && pending == None && state.Untouched()
    }

    /** A reply is under way. */
    predicate Flowing() {
      && (chunk.Some? ==> 0 <= p < |chunk.value|)
      && (chunk.None? ==> FromFile() && iterable.file.position.Some? && 0 <= p)
      && ChunksFit()
      && (pending.Some? ==> iterable != NoIterable)
      && (state.chunkedResponse || state.keepAlive ==> state.wsgiCallDone)
      && (state.Interim() ==> IsLiteral() && chunk == Some(CONTINUE))
    }

    /** Nothing that outlives the reply is left but the offset; the chunk is replaced by the next one. */
    predicate Vacant() { iterable == NoIterable && pending == None && state.Untouched() }
  }

  // One write

  /** The octets a write may move. */
  predicate Reached(w: SysResult, owed: string, n: nat) {
    && n <= |owed|
    && match w
       case Accepts(cap) => n <= cap && (cap > 0 && owed != "" ==> n > 0)
       case _ => n == 0
  }

  /** What one event without fatal errno does to a reply: `n` of the octets owed go to the wire,
      and the reply goes on with the others, or is over, or must be aborted. */
  predicate Moved(before: Sending, after: Sending, w: SysResult, n: nat, st: WriteState) {
    && Reached(w, before.Owed(), n)
    && (w.Again? ==> st == NotYetDone)
    && (w.Accepts? ==> (st != NotYetDone <==> n == |before.Owed()| && (before.Rest().Probed() ==> before.Owed() == "")))
    && (st == NotYetDone ==>
          && after.Flowing() && after.Owed() == before.Owed()[n..]
          && after.Rest().Broken() == before.Rest().Broken()
          && (after.Rest().Probed() || after.Owed() != ""))
    && (st != NotYetDone ==> (st == Aborted <==> before.Rest().Broken()))
    && after.Rest().Probed() == before.Rest().Probed()
    && after.state == before.state.(chunkedResponse := after.state.chunkedResponse)
  }

  predicate GivenUp(before: State, after: State) {
    after == before.(keepAlive := false, chunkedResponse := after.chunkedResponse)
  }

  /** The fields after a write, whatever it met: they are vacant exactly if a literal message was under way,
      which one write sends as far as it can. */
  predicate Clears(before: Sending, after: Sending, w: SysResult, n: nat) {
    && (after.Vacant() <==> before.IsLiteral())
    && (before.IsLiteral() ==>
          && after.p == (if n == |before.Owed()| then 0 else before.p + n)
          && n == if w.Accepts? then Min(w.cap, |before.Owed()|) else 0)
  }

  /** Writing `n` octets of the current chunk is writing the first `n` octets owed. */
  lemma ChunkPart(s: Sending, n: nat)
    requires s.chunk.Some? && 0 <= s.p && s.p + n <= |s.chunk.value|
    ensures n <= |s.Owed()| && s.Owed()[..n] == s.chunk.value[s.p..s.p + n]
    ensures s.Owed()[n..] == s.chunk.value[s.p + n..] + s.Tail()
    ensures s.p + n == |s.chunk.value| ==> s.Owed()[n..] == s.Tail() && (n == |s.Owed()| <==> s.Tail() == "")
  {
    var left, tail := s.chunk.value[s.p..], s.Tail();
    assert (left + tail)[..n] == left[..n] && (left + tail)[n..] == left[n..] + tail;
  }

  // An iterator, or nothing, behind the chunk

  /** What the current chunk becomes when it is finished. */
  predicate Loaded(before: Sending, after: Sending, st: WriteState) {
    && (if st == NotYetDone
        then after.chunk.Some? && after.chunk.value != "" && after.Owed() == before.Tail()
             && after.Rest().Broken() == before.Rest().Broken() && after.ChunksFit()
        else after.chunk == None && before.Tail() == "" && (st == Aborted <==> before.Rest().Broken()))
    && after.p == 0 && after.iterable == before.iterable
    && (after.pending.Some? ==> before.pending.Some?)
    && after.state == before.state.(chunkedResponse := after.state.chunkedResponse)
    && (after.state.chunkedResponse ==> before.state.chunkedResponse)
  }

  lemma FramableSplit(data: string, more: seq<string>)
    requires AllFramable([data] + more)
    ensures Framable(data) && AllFramable(more)
  {
    var all := [data] + more;
    assert all[0] == data && forall i :: 0 <= i < |more| ==> more[i] == all[i + 1];
  }

  lemma NextIsLoaded(before: Sending, after: Sending, data: string)
    requires before.chunk == None && before.p == 0 && !before.FromFile() && before.pending.Some? && after.pending.Some?
    requires before.ChunksFit() && data != ""
    requires Chunks(before.pending.value) == [data] + Chunks(after.pending.value)
    requires Breaks(before.pending.value) == Breaks(after.pending.value)
    requires after == before.(chunk := Some(if before.state.chunkedResponse then Frame(data) else data),
             pending := after.pending)
    ensures Loaded(before, after, NotYetDone)
  {
    var chunked, more := before.state.chunkedResponse, Chunks(after.Items());
    PartsOfMore(chunked, data, more);
    Regrouped(after.chunk.value, Parts(chunked, more), if chunked && !Breaks(after.Items()) then TERMINATOR else "");
    assert after.chunk.value[0..] == after.chunk.value;
    if chunked { FramableSplit(data, more); }
  }

  lemma EndIsLoaded(before: Sending, after: Sending, st: WriteState)
    requires before.chunk == None && before.p == 0 && !before.FromFile() && before.pending == None
    requires if before.state.chunkedResponse
             then after == before.(chunk := Some(TERMINATOR), state := before.state.(chunkedResponse := false))
               && st == NotYetDone
             else after == before && st == Finished
    ensures Loaded(before, after, st)
  {
    assert TERMINATOR[0..] == TERMINATOR && TERMINATOR + "" == TERMINATOR;
  }

  /** The three ways an event leaves a chunk: as it is, in part, or done and replaced. */
  predicate ChunkOutcome(before: Sending, after: Sending, w: SysResult, n: nat, st: WriteState)
    requires before.chunk.Some?
  {
    && n == (if w.Accepts? then Min(w.cap, |before.chunk.value| - before.p) else 0)
    && if before.p + n < |before.chunk.value| then after == before.(p := before.p + n) && st == NotYetDone
       else Loaded(before.(chunk := None, p := 0), after, st)
  }

  lemma ChunkDone(before: Sending, between: Sending, after: Sending, w: SysResult, n: nat, st: WriteState)
    requires before.Flowing() && !before.FromFile() && w.Accepts? && n == |before.chunk.value| - before.p <= w.cap
    requires between == before.(chunk := None, p := 0) && Loaded(between, after, st)
    ensures Moved(before, after, w, n, st)
  {
    ChunkPart(before, n);
    assert between.Tail() == before.Tail() && between.Rest() == before.Rest();
  }

  lemma ChunkOutcomeMoves(before: Sending, after: Sending, w: SysResult, n: nat, st: WriteState)
    requires before.Flowing() && !before.FromFile() && !w.Errno? && ChunkOutcome(before, after, w, n, st)
    ensures Moved(before, after, w, n, st) && before.chunk.value[before.p..before.p + n] == before.Owed()[..n]
  {
    ChunkPart(before, n);
    if before.p + n < |before.chunk.value| {
      assert before.Owed()[n..] != "";
      assert after.Rest() == before.Rest();
    } else {
      ChunkDone(before, before.(chunk := None, p := 0), after, w, n, st);
    }
  }

  lemma ChunkOutcomeClears(before: Sending, after: Sending, w: SysResult, n: nat, st: WriteState)
    requires before.Flowing() && !before.FromFile() && !w.Errno? && ChunkOutcome(before, after, w, n, st)
    ensures Clears(before, after, w, n)
  {
    ChunkPart(before, n);
  }

  // A file behind the chunk

  function Written(s: Sending, n: nat): string
    requires s.FromFile() && s.p >= 0
    requires s.p + n <= if s.chunk.Some? then |s.chunk.value| else Max(|s.iterable.file.content|, s.p)
  {
    if n == 0 then "" else if s.chunk.Some? then s.chunk.value[s.p..s.p + n] else s.iterable.file.content[s.p..s.p + n]
  }

  /** Phase A writes the chunk and then looks up the file position. */
  predicate HeadOutcome(before: Sending, after: Sending, w: SysResult, n: nat, st: WriteState)
    requires before.FromFile() && before.p >= 0 && before.chunk.Some?
  {
    && n == (if w.Accepts? then Min(w.cap, |before.chunk.value| - before.p) else 0)
    && if before.p + n < |before.chunk.value| then after == before.(p := before.p + n) && st == NotYetDone
       else
         match before.iterable.file.position
         case Some(p) => after == before.(chunk := None, p := p) && st == NotYetDone
         case None => after == before.(chunk := None, p := -1) && st == Aborted
  }

  /** Phase B runs to the end of the file. */
  predicate BodyOutcome(before: Sending, after: Sending, w: SysResult, n: nat, st: WriteState)
    requires before.FromFile() && before.p >= 0 && before.chunk.None?
  {
    var left := |before.iterable.file.content| - before.p;
    && after == before.(p := before.p + n)
    && n <= Max(left, 0)
    && match w
       case Accepts(cap) => n <= cap && (left > 0 && cap > 0 ==> n > 0)
         && st == (if left <= 0 then Finished else NotYetDone)
       case _ => n == 0 && st == NotYetDone
  }

  predicate FileOutcome(before: Sending, after: Sending, w: SysResult, n: nat, st: WriteState)
    requires before.FromFile() && before.p >= 0
  {
    if before.chunk.Some? then HeadOutcome(before, after, w, n, st) else BodyOutcome(before, after, w, n, st)
  }

  lemma TailIsFile(s: Sending)
    requires s.FromFile()
    ensures s.Tail() == FileBody(s.iterable.file)
  {
    assert "" + FileBody(s.iterable.file) == FileBody(s.iterable.file);
  }

  lemma HeadUnfinished(before: Sending, after: Sending, w: SysResult, n: nat, st: WriteState)
    requires before.Flowing() && before.FromFile() && before.chunk.Some? && !w.Errno?
    requires HeadOutcome(before, after, w, n, st)
    requires before.p + n < |before.chunk.value|
    ensures Moved(before, after, w, n, st)
  {
    ChunkPart(before, n);
    assert after.Rest() == before.Rest();
  }

  lemma HeadFinished(before: Sending, after: Sending, w: SysResult, n: nat, st: WriteState)
    requires before.Flowing() && before.FromFile() && before.chunk.Some? && !w.Errno?
    requires HeadOutcome(before, after, w, n, st)
    requires before.p + n == |before.chunk.value|
    ensures Moved(before, after, w, n, st)
  {
    ChunkPart(before, n);
    TailIsFile(before);
    assert after.Rest() == before.Rest();
  }

  lemma HeadOutcomeMoves(before: Sending, after: Sending, w: SysResult, n: nat, st: WriteState)
    requires before.Flowing() && before.FromFile() && before.chunk.Some? && !w.Errno?
    requires HeadOutcome(before, after, w, n, st)
    ensures Moved(before, after, w, n, st) && Written(before, n) == before.Owed()[..n]
  {
    if before.p + n < |before.chunk.value| {
      HeadUnfinished(before, after, w, n, st);
    } else {
      HeadFinished(before, after, w, n, st);
    }
    ChunkPart(before, n);
  }

  lemma BodyOutcomeMoves(before: Sending, after: Sending, w: SysResult, n: nat, st: WriteState)
    requires before.Flowing() && before.FromFile() && before.chunk.None? && !w.Errno?
    requires BodyOutcome(before, after, w, n, st)
    ensures Moved(before, after, w, n, st) && Written(before, n) == before.Owed()[..n]
  {
    var content := before.iterable.file.content;
    if before.p < |content| {
      assert before.Owed() == content[before.p..];
      assert content[before.p..][n..] == content[before.p + n..];
    }
    assert after.Rest() == before.Rest();
  }

  lemma FileOutcomeMoves(before: Sending, after: Sending, w: SysResult, n: nat, st: WriteState)
    requires before.Flowing() && before.FromFile() && !w.Errno? && FileOutcome(before, after, w, n, st)
    ensures Moved(before, after, w, n, st) && Written(before, n) == before.Owed()[..n] && Clears(before, after, w, n)
  {
    if before.chunk.Some? {
      HeadOutcomeMoves(before, after, w, n, st);
    } else {
      BodyOutcomeMoves(before, after, w, n, st);
    }
  }

  // A reply that has just been put together

  function Joined(first: Option<string>, rest: Content): Content {
    if first.Some? then rest.(chunks := [first.value] + rest.chunks) else rest
  }

  function FirstPart(first: Option<string>, chunked: bool): string {
    if first == None then "" else if chunked then Frame(first.value) else first.value
  }

  lemma CodedJoined(first: Option<string>, rest: Content, chunked: bool)
    ensures Joined(first, rest).Coded(chunked) == FirstPart(first, chunked) + rest.Coded(chunked)
  {
    if first.Some? {
      PartsOfMore(chunked, first.value, rest.chunks);
      Regrouped(FirstPart(first, chunked), Parts(chunked, rest.chunks),
                if rest.ThenFile? then FileBody(rest.file) else if chunked && !rest.breaks then TERMINATOR else "");
    } else {
      assert "" + rest.Coded(chunked) == rest.Coded(chunked);
    }
  }

  /** The fields hold the whole reply `r` and nothing of it is sent. */
  predicate Holds(s: Sending, r: Owed) {
    && s.Flowing() && s.Owed() == r.bytes && s.Ending() == r.ending && s.Rest().Probed() == r.probe
  }

  /** The first buffer, head and first chunk, with the rest of the body behind it, is the plan. */
  lemma PlanIsHeld(s: Sending, p: Plan, first: Option<string>)
    requires s.chunk == Some(
               ResponseHead.Render(p.started.status, p.started.headers, p.keepAlive, p.chunked)
                 + FirstPart(first, p.chunked))
    requires s.p == 0 && s.state.keepAlive == p.keepAlive && s.state.chunkedResponse == p.chunked
    requires s.state.wsgiCallDone
    requires p.content == Joined(first, s.Rest()) && !s.state.Interim()
    requires p.chunked ==> AllFramable(p.content.chunks)
    requires s.pending.Some? ==> s.iterable != NoIterable
    ensures Holds(s, Owed(PlanBytes(p), EndingOf(p.content, p.keepAlive), p.content.Probed()))
  {
    var head := ResponseHead.Render(p.started.status, p.started.headers, p.keepAlive, p.chunked);
    var part := FirstPart(first, p.chunked);
    CodedJoined(first, s.Rest(), p.chunked);
    Regrouped(head, part, s.Tail());
    assert s.chunk.value[0..] == s.chunk.value;
    assert head != "" && |s.chunk.value| > 0;
    if p.chunked && first.Some? { FramableSplit(first.value, s.Rest().chunks); }
  }

  /** A message of the server's own, with the attached file behind it if there is one. */
  function LiteralContent(s: Sending, message: string): Content {
    if s.FromFile() then ThenFile([message], s.iterable.file) else Pieces([message], false)
  }

  lemma LiteralCoded(s: Sending, message: string)
    requires s.pending == None && !s.state.chunkedResponse
    ensures LiteralContent(s, message).Coded(false) == message + s.Tail()
    ensures !s.FromFile() ==> s.Tail() == "" && message + s.Tail() == message
  {
    CodedJoined(Some(message), s.Rest(), false);
    assert [message] + [] == [message];
  }

  /** What is left of it behind the offset is owed. */
  lemma LiteralIsHeld(s: Sending, message: string)
    requires s.chunk == Some(message) && 0 <= s.p < |message| && s.pending == None
    requires !s.state.chunkedResponse && !s.state.keepAlive
    requires s.state.Interim() ==> s.IsLiteral() && message == CONTINUE
    ensures var c := LiteralContent(s, message);
            && s.p <= |c.Coded(false)|
            && Holds(s, Owed(c.Coded(false)[s.p..],
                             if s.state.Interim() then Resume else EndingOf(c, false), c.Probed()))
            && (!s.FromFile() ==> c.Coded(false) == message)
  {
    LiteralCoded(s, message);
    assert (message + s.Tail())[s.p..] == message[s.p..] + s.Tail();
  }
}
