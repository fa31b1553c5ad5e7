/** bjoern's Request object and the handlers that update it step by step: bjoern/server.c,
    the request half of bjoern/wsgi.c and bjoern/request.c. Each handler is proved to take
    one step of the abstract session. */
module Connection {
  import opened Octets
  import opened MessageSyntax
  import opened ChunkedCoding
  import opened StartResponse
  import opened Reply
  import opened Sending
  import opened Session
  import ResponseHead
  import Client

  /** What the parser callbacks left in request->state after one read. */
  datatype Parsed = Parsed(errorCode: nat, finished: bool, expectContinue: bool)

  datatype ReadInput = Eof | WouldBlock | ReadError | Data(parsed: Parsed, asked: Asked, app: Application)

  /** Behind a fatal errno the source goes on with a chunk it no longer owns, and behind a reply left
      half sent it parses into fields that are still in use; the environment then decides what its
      routines return, what reaches the wire, and how many iterables lose their place to another one. */
  datatype Afterwards = Afterwards(state: WriteState, bytes: string, overwritten: nat)

  /** What the environment has in store for the next event, whichever watcher it meets. */
  datatype Event = Event(input: ReadInput, w: SysResult, afterwards: Afterwards)

  datatype Watcher = Stopped | ForRead | ForWrite

  datatype NextChunk = Next(data: string) | Exhausted | Failed

  /** `Ruined` behind a fatal errno, `Lost` behind a final reply left half sent. */
  datatype Health = Sound | Ruined | Lost

  predicate InputInScope(input: ReadInput) {
    input.Data? ==> input.parsed.errorCode <= 3 && InScope(input.asked, input.app)
  }

  // Which step an event calls for

  function ReadLabel(input: ReadInput): Label {
    match input
    case Eof => HangUp
    case WouldBlock => Idle
    case ReadError => HangUp
    case Data(parsed, asked, app) =>
      if parsed.errorCode != 0 then Begin(Rejected(parsed.errorCode), parsed.expectContinue)
      else if parsed.finished then Begin(Answered(asked, app), parsed.expectContinue)
      else if parsed.expectContinue then Begin(Interim, true)
      else Idle
  }

  /** The octets of a reply that a step puts on the wire. */
  function Sent(l: Label): nat { if l.Transmit? || l.Stray? || l.Cut? then l.n else 0 }

  function OverriddenLabel(p: Phase, n: nat): Label
    requires p.Replying? && p.overridden && n <= |p.owed|
  {
    if p.ending != Resume then Stray(n)
    else if n == |p.owed| then Transmit(n)
    else if n == 0 then Forgo
    else Cut(n)
  }

  /** The steps a write may cause: never more octets than the kernel took, at least one if it took
      any, and none for EAGAIN or another errno. */
  predicate WriteAnswers(p: Phase, w: SysResult, l: Label)
    requires p.Replying?
  {
    && Reached(w, p.owed, Sent(l))
    && if p.overridden then l == OverriddenLabel(p, Sent(l))
       else
         match w
         case Again => l == Idle
         case Errno => l.Fail?
         case Accepts(_) => l.Transmit?
  }

  predicate Answers(s: Session, e: Event, l: Label) {
    match s.phase
    case Reading => l == ReadLabel(e.input)
    case Behind(_) => l == ReadLabel(e.input)
    case Replying(_, _, _, _) => WriteAnswers(s.phase, e.w, l)
    case Closed => false
    case _ => l == Wreck(e.afterwards.bytes, e.afterwards.state != NotYetDone)
  }

  lemma BreaksTail(items: seq<Item>)
    requires items != []
    ensures Breaks(items) <==> !items[0].Chunk? || Breaks(items[1..])
  {
    if Breaks(items) && items[0].Chunk? {
      var i :| 0 <= i < |items| && !items[i].Chunk?;
      assert !items[1..][i - 1].Chunk?;
    }
  }

  /** Without an iterator behind it a chunk is never empty, so something is owed. */
  lemma FlowingOwes(s: Sending)
    requires s.Flowing()
    ensures s.Rest().Probed() || s.Owed() != ""
  {
  }

  /** The fields after a fatal errno. */
  predicate BrokenOff(before: Sending, after: Sending) {
    && after.pending == None && after.iterable == before.iterable && GivenUp(before.state, after.state)
    && (!before.FromFile() ==> after.p == before.p)
    && (after.state.chunkedResponse ==> before.state.chunkedResponse)
  }

  lemma BrokenOffClears(before: Sending, after: Sending)
    requires before.Flowing() && BrokenOff(before, after)
    ensures Clears(before, after, Errno, 0)
  {
    assert before.IsLiteral() ==> before.Owed() != "";
  }

  lemma FileWriteMoves(before: Sending, after: Sending, w: SysResult, n: nat, st: WriteState)
    requires before.Flowing() && before.FromFile()
    requires if w.Errno? then n == 0 && BrokenOff(before, after) else FileOutcome(before, after, w, n, st)
    ensures Clears(before, after, w, n)
    ensures !w.Errno? ==> Moved(before, after, w, n, st) && Written(before, n) == before.Owed()[..n]
  {
    if w.Errno? {
      BrokenOffClears(before, after);
    } else {
      FileOutcomeMoves(before, after, w, n, st);
    }
  }

  lemma ChunkWriteMoves(before: Sending, after: Sending, w: SysResult, n: nat, st: WriteState)
    requires before.Flowing() && !before.FromFile()
    requires if w.Errno? then n == 0 && BrokenOff(before, after) else ChunkOutcome(before, after, w, n, st)
    ensures Clears(before, after, w, n)
    ensures !w.Errno? ==>
              Moved(before, after, w, n, st) && before.chunk.value[before.p..before.p + n] == before.Owed()[..n]
  {
    if w.Errno? {
      BrokenOffClears(before, after);
    } else {
      ChunkOutcomeMoves(before, after, w, n, st);
      ChunkOutcomeClears(before, after, w, n, st);
    }
  }

  function PhaseOf(s: Sending): Phase { Replying(s.Owed(), s.Ending(), s.Rest().Probed(), s.state.expectContinue) }

  /** Waiting for octets, with the offset at `p`. */
  function ReadingAt(p: int): Phase { if p <= 0 then Reading else Behind(p) }

  lemma InterimOwes(s: Sending)
    requires s.Flowing() && s.state.Interim()
    ensures s.IsLiteral() && PhaseOf(s) == Replying(CONTINUE[s.p..], Resume, false, true)
  {
    assert s.Tail() == "" && CONTINUE[s.p..] + "" == CONTINUE[s.p..];
  }

  function OwedFrom(x: Exchange, k: int): Owed
    requires WellScoped(x)
  {
    ReplyTo(x).(bytes := ReplyFrom(x, Max(k, 0)))
  }

  lemma FromStart(s: string)
    ensures s[0..] == s
  {
  }

  /** Every error message is longer than an interim response. */
  lemma ErrorIsLong(code: nat)
    requires 1 <= code <= 4
    ensures |ErrorMessage(code)| > |CONTINUE|
  {
  }

  lemma LiteralIsLong(x: Exchange)
    requires WellScoped(x) && !x.Answered?
    ensures |ReplyTo(x).bytes| >= |CONTINUE|
  {
    if x.Rejected? { ErrorIsLong(x.code); }
  }

  /** One write of an interim response of which `owed` is left. */
  lemma InterimStep(owed: string, wire: string, n: nat)
    requires n <= |owed| && 0 < |owed| <= |CONTINUE|
    ensures var p := Replying(owed, Resume, false, true);
            var l := OverriddenLabel(p, n);
            && Sent(l) == n && !l.Stray? && Enabled(Session(p, wire), l)
            && After(Session(p, wire), l)
               == Session(ReadingAt(if n == |owed| then 0 else |CONTINUE| - |owed| + n), wire + owed[..n])
  {
    assert n == 0 ==> wire + owed[..n] == wire;
  }

  /** One overridden write, from the fields to the session. */
  lemma OverriddenStep(before: Sending, after: Sending, wire: string, w: SysResult, n: nat)
    requires before.Flowing() && before.state.expectContinue && n <= |before.Owed()| && Clears(before, after, w, n)
    ensures var l := OverriddenLabel(PhaseOf(before), n);
            && Sent(l) == n && (l.Stray? <==> !before.state.Interim()) && Enabled(Session(PhaseOf(before), wire), l)
            && After(Session(PhaseOf(before), wire), l)
               == Session(if before.state.Interim() then ReadingAt(after.p) else Astray, wire + before.Owed()[..n])
    ensures before.state.Interim() ==> after.Vacant() && 0 <= after.p < |CONTINUE|
  {
    if before.state.Interim() {
      InterimOwes(before);
      InterimStep(CONTINUE[before.p..], wire, n);
    }
  }

  /** What is on record for the client after the write routine has returned. */
  function Settling(after: Sending, st: WriteState): Phase {
    match st
    case NotYetDone => PhaseOf(after)
    case Finished => if after.state.keepAlive then Reading else Closed
    case Aborted => Closed
  }

  lemma MovedIsTransmit(before: Sending, after: Sending, wire: string, w: SysResult, n: nat, st: WriteState)
    requires before.Flowing() && !before.state.expectContinue && !w.Errno? && Moved(before, after, w, n, st)
    ensures Enabled(Session(PhaseOf(before), wire), Transmit(n))
    ensures w.Accepts? ==>
              After(Session(PhaseOf(before), wire), Transmit(n))
                == Session(Settling(after, st), wire + before.Owed()[..n])
    ensures w.Again? ==>
              st == NotYetDone && n == 0 && PhaseOf(after) == PhaseOf(before) && wire + before.Owed()[..n] == wire
  {
  }

  function FirstOf(next: NextChunk): Option<string> { if next.Next? then Some(next.data) else None }

  /** What wsgi_iterable_get_next_chunk makes of the items. */
  predicate Taken(items: seq<Item>, next: NextChunk, left: seq<Item>) {
    match next
    case Next(data) => data != "" && Chunks(items) == [data] + Chunks(left) && Breaks(items) == Breaks(left)
    case Exhausted => Chunks(items) == [] && !Breaks(items) && left == []
    case Failed => Chunks(items) == [] && Breaks(items)
  }

  lemma TakenIsSource(items: seq<Item>, file: Option<File>, calls: seq<Call>, next: NextChunk, left: seq<Item>)
    requires Taken(items, next, left)
    ensures FromIterator(Some(items), file, calls)
         == if next.Failed? then None
            else
              var rest := if file.Some? then ThenFile([], file.value) else Pieces(Chunks(left), Breaks(left));
              Some(Source(Joined(FirstOf(next), rest), calls))
  {
    if next.Next? { assert [next.data] + [] == [next.data] && Chunks(items)[0] == next.data; }
  }

  lemma CallsSnoc(before: seq<Call>, cs: seq<Call>, i: nat)
    requires i < |cs|
    ensures before + cs[..i] + [cs[i]] == before + cs[..i + 1]
  {
  }

  lemma RecordIsAccepted(calls: seq<Call>)
    requires OnRecord(calls).Some?
    ensures EverAccepted(calls)
  {
  }

  class Request {
    var state: State
    var status: Option<string>
    var headers: Option<seq<Field>>
    var currentChunk: Option<string>
    var currentChunkP: int
    var iterable: Iterable
    /** The iterator: None for NULL, otherwise the items it will still yield. */
    var pendingItems: Option<seq<Item>>
    var watcher: Watcher
    var open: bool

    /** Not a field of the source: whether what its routines do next is still theirs to decide. */
    var health: Health

    /** All octets the kernel has accepted on this connection. */
    ghost var wire: string
    /** start_response calls made for the current request. */
    ghost var calls: seq<Call>
    /** Iterables with a close method attached so far, and calls of their close methods. */
    ghost var closables: nat
    ghost var closeCalls: nat

    // What the fields mean

    /** The bits of the state that the parser callbacks set. */
    static function Notes(s: State): Parsed { Parsed(s.errorCode, s.parseFinished, s.expectContinue) }

    function Now(): Sending
      reads this
    {
      Sending(currentChunk, currentChunkP, iterable, pendingItems, state)
    }

    /** The octets on the wire and the octets owed: all a client can ever learn. */
    ghost function View(): Session
      reads this
    {
      Session(
        if !open then Closed
        else if health.Ruined? then Doomed
        else if health.Lost? then Astray
        else if watcher != ForWrite then ReadingAt(currentChunkP)
        else PhaseOf(Now()),
        wire)
    }

    ghost predicate NoRecord()
      reads this
    {
      status == None && headers == None && calls == []
    }

    ghost predicate Blank()
      reads this
    {
      NoRecord() && Now().Vacant()
    }

    /** The offset is within an interim response; at its start unless one was cut short. */
    ghost predicate AtInterim()
      reads this
    {
      0 <= currentChunkP < |CONTINUE|
    }

    /** Every closable iterable but the current one has been closed, once. */
    ghost predicate ClosedOnce()
      reads this
    {
      closables == closeCalls + (if iterable != NoIterable && iterable.closable then 1 else 0)
    }

    /** Kept by every handler. One watcher is active exactly while the socket is open. */
    ghost predicate Valid()
      reads this
    {
      && (open <==> watcher != Stopped)
      && (state.wsgiCallDone ==> state.startResponseCalled)
      && (health.Sound? && watcher == ForRead ==> Blank() && AtInterim() && Notes(state) == Parsed(0, false, false))
      && (health.Sound? && watcher == ForWrite ==> Now().Flowing() && (state.Interim() ==> NoRecord()))
      && (health.Ruined? ==> !state.keepAlive && (open ==> watcher == ForWrite && !state.expectContinue))
      && (!open ==> iterable == NoIterable)
      && (health.Lost? || ClosedOnce())
    }

    /** Request_new, and the watcher that ev_io_on_request starts. */
    constructor ()
      ensures Valid() && View() == FRESH && state == CLEARED
    {
      state := CLEARED;
      status, headers, currentChunk, currentChunkP := None, None, None, 0;
      iterable, pendingItems := NoIterable, None;
      watcher, open := ForRead, true;
      wire, health, calls, closables, closeCalls := "", Sound, [], 0, 0;
    }

    // Watchers: ev_io_init on an active watcher would be an error

    method StartReading()
      requires watcher == Stopped
      modifies `watcher
      ensures watcher == ForRead
    {
      watcher := ForRead;
    }

    method StartWriting()
      requires watcher == Stopped
      modifies `watcher
      ensures watcher == ForWrite
    {
      watcher := ForWrite;
    }

    method EvIoStop()
      modifies `watcher
      ensures watcher == Stopped
    {
      watcher := Stopped;
    }

    // Lifecycle

    /** Request_clean: calls iterable.close() if there is such a method. */
    method Clean()
      modifies `closeCalls
      ensures closeCalls == old(closeCalls) + (if iterable != NoIterable && iterable.closable then 1 else 0)
    {
      if iterable != NoIterable && iterable.closable {
        closeCalls := closeCalls + 1;
      }
    }

    /** Request_reset: clears everything from `state` on. */
    method Reset()
      modifies `state, `status, `headers, `currentChunk, `currentChunkP, `iterable, `pendingItems, `calls
      ensures Blank() && state == CLEARED && currentChunk == None && currentChunkP == 0
    {
      state := CLEARED;
      status := None;
      headers := None;
      currentChunk := None;
      currentChunkP := 0;
      iterable := NoIterable;
      pendingItems := None;
      calls := [];
    }

    method CloseConnection()
      requires open && (health.Ruined? ==> !state.keepAlive)
      requires (state.wsgiCallDone ==> state.startResponseCalled) && (health.Lost? || ClosedOnce())
      modifies `watcher, `open, `closeCalls, `iterable
      ensures Valid() && !open
    {
      EvIoStop();
      open := false;
      Clean();
      iterable := NoIterable;
    }

    // start_response

    /** The fields agree with the history of start_response calls. */
    ghost predicate RecordKept()
      reads this
    {
      && (state.startResponseCalled <==> EverAccepted(calls))
      && (headers.Some? <==> OnRecord(calls).Some?)
      && (headers.Some? ==>
            status == Some(OnRecord(calls).value.status) && headers == Some(OnRecord(calls).value.headers))
      && state.responseLengthUnknown == LengthUnknown(calls)
    }

    /** Nothing but the marks of start_response has changed. */
    static predicate OnlyProtocol(before: State, after: State) {
      after == before.(startResponseCalled := after.startResponseCalled,
        responseLengthUnknown := after.responseLengthUnknown)
    }

    /** A call leaves what the history says. A second success needs exception information, and a
        failure wipes out what was on record. Once the head is built, every call fails. */
    method StartResponse(c: Call) returns (ok: bool)
      requires if state.wsgiCallDone then state.startResponseCalled else RecordKept()
      modifies `status, `headers, `state, `calls
      ensures calls == old(calls) + [c]
      ensures OnlyProtocol(old(state), state)
      ensures !state.wsgiCallDone ==> RecordKept() && (ok <==> LastAccepted(calls)) && (ok <==> headers.Some?)
      ensures state.wsgiCallDone ==> !ok && state.startResponseCalled
      ensures ok && old(state).startResponseCalled ==> c.Call? && c.excInfo.Triple?
    {
      EverAcceptedSnoc(calls, c);
      LastAcceptedSnoc(calls, c);
      calls := calls + [c];
      if state.startResponseCalled {
        status, headers, state := None, None, state.(responseLengthUnknown := true);
      }
      if c.WrongArity? {
        return false;
      }
      if c.excInfo != Absent {
        if c.excInfo == NotTriple || state.wsgiCallDone {
          return false;
        }
      } else if state.startResponseCalled {
        return false;
      }
      status := Latin1(c.status);
      if status == None {
        return false;
      } else if |status.value| < 3 {
        status := None;
        return false;
      }
      var fields, found := CleanHeaders(c.headers);
      headers := fields;
      if headers == None {
        return false;
      }
      state := state.(responseLengthUnknown := !found, startResponseCalled := true);
      return true;
    }

    /** The application's calls, in order; it may go on after a failing one. */
    method MakeCalls(cs: seq<Call>)
      requires RecordKept() && !state.wsgiCallDone
      modifies `status, `headers, `state, `calls
      ensures calls == old(calls) + cs && RecordKept()
      ensures OnlyProtocol(old(state), state)
    {
      var i := 0;
      while i < |cs|
        invariant 0 <= i <= |cs| && RecordKept() && calls == old(calls) + cs[..i]
        invariant OnlyProtocol(old(state), state)
      {
        CallsSnoc(old(calls), cs, i);
        var _ := StartResponse(cs[i]);
        i := i + 1;
      }
      assert cs[..i] == cs;
    }

    // The iterator

    /** wsgi_iterable_get_next_chunk: the next item that is not empty. */
    method IterableGetNextChunk() returns (next: NextChunk)
      requires pendingItems.Some?
      modifies `pendingItems
      ensures pendingItems.Some?
      ensures Taken(old(pendingItems).value, next, pendingItems.value)
    {
      ghost var all := pendingItems.value;
      while true
        invariant pendingItems.Some?
        invariant Chunks(pendingItems.value) == Chunks(all) && Breaks(pendingItems.value) == Breaks(all)
        decreases |pendingItems.value|
      {
        if pendingItems.value == [] {
          return Exhausted;
        }
        var item := pendingItems.value[0];
        BreaksTail(pendingItems.value);
        pendingItems := Some(pendingItems.value[1..]);
        if item.Raises? || item.NotBytes? {
          return Failed;
        }
        if |item.data| > 0 {
          return Next(item.data);
        }
      }
    }

    // wsgi_call_application

    /** The decision on persistence and framing. */
    method DecideConnection(asked: Asked)
      requires status.Some? && |status.value| >= 3 && headers.Some?
      requires state.responseLengthUnknown == !LengthFound(headers.value) && !state.chunkedResponse
      modifies `state
      ensures var p := Decide(asked, Started(status.value, headers.value), Pieces([], false));
              state == old(state).(keepAlive := p.keepAlive, chunkedResponse := p.chunked,
                                   responseLengthUnknown := state.responseLengthUnknown)
    {
      if Bodiless(status.value) {
        state := state.(responseLengthUnknown := false);
      }
      if asked.shouldKeepAlive {
        if state.responseLengthUnknown {
          if asked.major > 0 && asked.minor > 0 {
            state := state.(chunkedResponse := true, keepAlive := true);
          } else {
            state := state.(keepAlive := false);
          }
        } else {
          state := state.(keepAlive := true);
        }
      } else {
        state := state.(keepAlive := false);
      }
    }

    /** Head and first chunk in one buffer. */
    method BuildFirstBuffer(first: Option<string>)
      requires status.Some? && |status.value| >= 3 && headers.Some?
      requires first.Some? && state.chunkedResponse ==> Framable(first.value)
      modifies `currentChunk, `currentChunkP, `state
      ensures currentChunk == Some(
                ResponseHead.Render(status.value, headers.value, state.keepAlive, state.chunkedResponse)
                + FirstPart(first, state.chunkedResponse))
      ensures currentChunkP == 0 && state == old(state).(wsgiCallDone := true)
    {
      var buf, length := ResponseHead.GetHeaders(status.value, headers.value, state.keepAlive, state.chunkedResponse);
      if first == None {
        currentChunk := Some(buf[..length]);
        assert buf[..length] + "" == buf[..length];
      } else {
        var chunk := first.value;
        if state.chunkedResponse {
          chunk := WrapHttpChunkCruftAround(chunk);
          assert |chunk| >= |first.value| + 5;
        }
        currentChunk := Some(buf[..length] + chunk);
      }
      state := state.(wsgiCallDone := true);
      currentChunkP := 0;
    }

    method Attach(i: Iterable)
      requires i != NoIterable && iterable == NoIterable && ClosedOnce()
      modifies `iterable, `closables
      ensures iterable == i && ClosedOnce()
    {
      iterable := i;
      if i.closable {
        closables := closables + 1;
      }
    }

    /** The file that the test of ev_io_on_write will find. */
    ghost function FileNow(): Option<File>
      reads this
    {
      if Now().FromFile() then Some(iterable.file) else None
    }

    /** The fields hold the body source `b`, of which `first` is taken out already. */
    ghost predicate Opened(b: Source, first: Option<string>)
      reads this
    {
      && calls == b.calls && b.content == Joined(first, Now().Rest())
      && (first.Some? ==> first.value != "")
    }

    /** The first non-empty item, or none. */
    method TakeFirst() returns (good: bool, first: Option<string>)
      requires pendingItems.Some?
      modifies `pendingItems
      ensures good <==> FromIterator(old(pendingItems), FileNow(), calls).Some?
      ensures good ==> Opened(FromIterator(old(pendingItems), FileNow(), calls).value, first)
    {
      ghost var items := pendingItems.value;
      var next := IterableGetNextChunk();
      TakenIsSource(items, FileNow(), calls, next, pendingItems.value);
      good, first := next != Failed, if next.Next? then Some(next.data) else None;
    }

    /** The generic path: PyObject_GetIter and the first non-empty item, which may still call start_response. */
    method OpenIterator(iter: Option<seq<Item>>, lateCalls: seq<Call>) returns (good: bool, first: Option<string>)
      requires RecordKept() && !state.wsgiCallDone && iterable != NoIterable
      modifies `status, `headers, `state, `calls, `pendingItems
      ensures RecordKept() && OnlyProtocol(old(state), state)
      ensures good <==> FromIterator(iter, FileNow(), old(calls) + lateCalls).Some?
      ensures good ==> Opened(FromIterator(iter, FileNow(), old(calls) + lateCalls).value, first)
    {
      pendingItems := iter;
      good, first := false, None;
      if pendingItems.Some? {
        MakeCalls(lateCalls);
        good, first := TakeFirst();
      }
    }

    /** A wsgi.file_wrapper: sendfile if there is a descriptor and the length is known. */
    method OpenWrapper(app: Application) returns (good: bool, first: Option<string>)
      requires RecordKept() && calls == app.calls && !state.wsgiCallDone
      requires iterable == NoIterable && pendingItems == None && ClosedOnce()
      requires app.answer.FileWrapper?
      modifies `status, `headers, `state, `calls, `iterable, `pendingItems, `closables
      ensures RecordKept() && OnlyProtocol(old(state), state) && ClosedOnce()
      ensures iterable != NoIterable && FileNow() == AttachedFile(app)
      ensures good <==> SourceOf(app).Some?
      ensures good ==> Opened(SourceOf(app).value, first)
    {
      Attach(Wrapped(app.answer.fd, app.answer.file, app.closable));
      if !state.responseLengthUnknown && app.answer.fd.Some? {
        pendingItems := None;
        good, first := true, None;
      } else {
        good, first := OpenIterator(Some(app.answer.blocks), app.lateCalls);
      }
    }

    method OpenOther(app: Application) returns (good: bool, first: Option<string>)
      requires RecordKept() && calls == app.calls && !state.wsgiCallDone
      requires iterable == NoIterable && pendingItems == None && ClosedOnce()
      requires app.answer.Iterable?
      modifies `status, `headers, `state, `calls, `iterable, `pendingItems, `closables
      ensures RecordKept() && OnlyProtocol(old(state), state) && ClosedOnce()
      ensures iterable != NoIterable && FileNow() == AttachedFile(app)
      ensures good <==> SourceOf(app).Some?
      ensures good ==> Opened(SourceOf(app).value, first)
    {
      Attach(Plain(app.closable));
      good, first := OpenIterator(app.answer.iter, app.lateCalls);
    }

    /** A byte string, alone or in a list. */
    method OpenBytes(app: Application) returns (first: Option<string>)
      requires calls == app.calls && iterable == NoIterable && pendingItems == None
      requires app.answer.OneItemList? || app.answer.ByteString?
      ensures SourceOf(app).Some? && Opened(SourceOf(app).value, first)
    {
      first := if |app.answer.data| > 0 then Some(app.answer.data) else None;
    }

    /** The chain of tests on the application's return value. */
    method OpenSource(app: Application) returns (good: bool, first: Option<string>)
      requires RecordKept() && calls == app.calls && !state.wsgiCallDone
      requires iterable == NoIterable && pendingItems == None && ClosedOnce()
      modifies `status, `headers, `state, `calls, `iterable, `pendingItems, `closables
      ensures RecordKept() && OnlyProtocol(old(state), state) && ClosedOnce()
      ensures (pendingItems.Some? ==> iterable != NoIterable) && FileNow() == AttachedFile(app)
      ensures good <==> SourceOf(app).Some?
      ensures good ==> Opened(SourceOf(app).value, first)
    {
      good, first := false, None;
      if app.answer.OneItemList? || app.answer.ByteString? {
        first := OpenBytes(app);
        good := true;
      } else if app.answer.FileWrapper? {
        good, first := OpenWrapper(app);
      } else if app.answer.Iterable? {
        good, first := OpenOther(app);
      }
    }

    /** The call itself, the body source, and the check that start_response was called. */
    method CallAndOpen(app: Application) returns (ready: bool, first: Option<string>)
      requires Blank() && ClosedOnce()
      modifies `status, `headers, `state, `calls, `iterable, `pendingItems, `closables
      ensures OnlyProtocol(old(state), state) && ClosedOnce()
      ensures (pendingItems.Some? ==> iterable != NoIterable) && FileNow() == AttachedFile(app)
      ensures ready <==> SourceOf(app).Some? && OnRecord(SourceOf(app).value.calls).Some?
      ensures ready ==> var s := OnRecord(SourceOf(app).value.calls).value;
                        && Opened(SourceOf(app).value, first)
                        && status == Some(s.status) && headers == Some(s.headers) && state.startResponseCalled
                        && state.responseLengthUnknown == !LengthFound(s.headers)
    {
      MakeCalls(app.calls);
      assert calls == app.calls;
      var good;
      good, first := OpenSource(app);
      ready := good && headers.Some?;
      if ready { RecordIsAccepted(calls); }
    }

    /** With the record and the body source at hand: decide, and write the first buffer. */
    method Assemble(asked: Asked, first: Option<string>, ghost b: Source)
      requires status.Some? && |status.value| >= 3 && headers.Some?
      requires state.responseLengthUnknown == !LengthFound(headers.value) && !state.chunkedResponse && !state.Interim()
      requires Decide(asked, Started(status.value, headers.value), b.content).chunked ==> AllFramable(b.content.chunks)
      requires Opened(b, first) && (pendingItems.Some? ==> iterable != NoIterable)
      modifies `state, `currentChunk, `currentChunkP
      ensures var p := Decide(asked, Started(status.value, headers.value), b.content);
              Holds(Now(), Owed(PlanBytes(p), EndingOf(p.content, p.keepAlive), p.content.Probed()))
      ensures state.wsgiCallDone && state.startResponseCalled == old(state.startResponseCalled)
      ensures Notes(state) == Notes(old(state))
    {
      ghost var p := Decide(asked, Started(status.value, headers.value), b.content);
      DecideConnection(asked);
      if p.chunked && first.Some? { FramableSplit(first.value, Now().Rest().chunks); }
      BuildFirstBuffer(first);
      PlanIsHeld(Now(), p, first);
    }

    /** The reply the application asked for is now what is owed, or the call failed and at
        most an iterable was attached. */
    method WsgiCallApplication(asked: Asked, app: Application) returns (ok: bool)
      requires Blank() && InScope(asked, app) && ClosedOnce() && !state.Interim()
      modifies `status, `headers, `state, `calls, `iterable, `pendingItems, `currentChunk, `currentChunkP, `closables
      ensures ok <==> PlanOf(asked, app).Some?
      ensures ClosedOnce() && (state.wsgiCallDone ==> state.startResponseCalled)
      ensures Notes(state) == Notes(old(state))
      ensures ok ==> Holds(Now(), ReplyTo(Answered(asked, app)))
      ensures !ok ==> !state.chunkedResponse && !state.keepAlive && currentChunkP == old(currentChunkP)
      ensures !ok ==> FileNow() == AttachedFile(app)
    {
      var first;
      ok, first := CallAndOpen(app);
      if ok {
        Assemble(asked, first, SourceOf(app).value);
      }
    }

    /** A start_response call made by the application's iterator while the body is being sent:
        it fails, and the client cannot tell that it was made. */
    method StartResponseTooLate(c: Call) returns (ok: bool)
      requires Valid() && state.wsgiCallDone
      modifies `status, `headers, `state, `calls
      ensures Valid() && !ok && View() == old(View())
    {
      ok := StartResponse(c);
    }

    // Writing

    /** Again means try again later; anything else gives the connection up. */
    method HandleNonzeroErrno(w: SysResult) returns (more: bool)
      requires !w.Accepts?
      modifies `pendingItems, `state, `health
      ensures more <==> w.Again?
      ensures more ==> pendingItems == old(pendingItems) && state == old(state) && health == old(health)
      ensures !more ==> pendingItems == None && state == old(state).(keepAlive := false) && health == Ruined
    {
      more := w.Again?;
      if !more {
        pendingItems := None;
        state := state.(keepAlive := false);
        health := Ruined;
      }
    }

    /** True if there is data left to send. */
    method DoSendChunk(w: SysResult) returns (more: bool)
      requires currentChunk.Some? && 0 <= currentChunkP < |currentChunk.value|
      modifies `currentChunk, `currentChunkP, `wire, `pendingItems, `state, `health
      ensures w.Again? ==>
                more && currentChunk == old(currentChunk) && currentChunkP == old(currentChunkP) && wire == old(wire)
      ensures w.Errno? ==> !more && health == Ruined && wire == old(wire) && currentChunkP == old(currentChunkP)
                           && pendingItems == None && state == old(state).(keepAlive := false)
      ensures !w.Errno? ==> pendingItems == old(pendingItems) && state == old(state) && health == old(health)
      ensures w.Accepts? ==>
                var size := |old(currentChunk).value|;
                var q := old(currentChunkP) + Min(w.cap, size - old(currentChunkP));
                && wire == old(wire) + old(currentChunk).value[old(currentChunkP)..q]
                && (more <==> q < size)
                && (if more then currentChunk == old(currentChunk) && currentChunkP == q
                    else currentChunk == None && currentChunkP == 0)
    {
      if !w.Accepts? {
        more := HandleNonzeroErrno(w);
        return;
      }
      var size := |currentChunk.value|;
      var bytesSent := Min(w.cap, size - currentChunkP);
      wire := wire + currentChunk.value[currentChunkP..currentChunkP + bytesSent];
      currentChunkP := currentChunkP + bytesSent;
      if currentChunkP == size {
        currentChunk := None;
        currentChunkP := 0;
        return false;
      }
      return true;
    }

    /** on_write_chunk behind do_send_chunk, with an iterator: `last` leads to send_terminator_chunk. */
    method NextFromIterator() returns (st: WriteState, last: bool)
      requires currentChunk == None && currentChunkP == 0 && !Now().FromFile()
      requires pendingItems.Some? && Now().ChunksFit()
      modifies `currentChunk, `pendingItems
      ensures last ==> Now() == old(Now()).(pending := None) && Now().Rest() == old(Now()).Rest()
      ensures !last ==> Loaded(old(Now()), Now(), st)
    {
      ghost var before := Now();
      st, last := NotYetDone, false;
      var next := IterableGetNextChunk();
      match next {
        case Next(data) =>
          if before.state.chunkedResponse { FramableSplit(data, Chunks(pendingItems.value)); }
          if state.chunkedResponse {
            var framed := WrapHttpChunkCruftAround(data);
            currentChunk := Some(framed);
          } else {
            currentChunk := Some(data);
          }
          assert currentChunkP == 0;
          NextIsLoaded(before, Now(), data);
        case Failed =>
          st := Aborted;
        case Exhausted =>
          pendingItems := None;
          last := true;
      }
    }

    /** on_write_chunk from the label send_terminator_chunk on. */
    method SendTerminatorChunk() returns (st: WriteState)
      requires pendingItems == None
      requires !health.Ruined? ==> currentChunk == None && currentChunkP == 0 && !Now().FromFile()
      modifies `currentChunk, `state
      ensures !health.Ruined? ==> Loaded(old(Now()), Now(), st)
      ensures state == old(state).(chunkedResponse := state.chunkedResponse)
      ensures state.chunkedResponse ==> old(state).chunkedResponse
    {
      ghost var before := Now();
      if state.chunkedResponse {
        currentChunk := Some(TERMINATOR);
        assert !health.Ruined? ==> currentChunkP == 0;
        state := state.(chunkedResponse := false);
        st := NotYetDone;
      } else {
        st := Finished;
      }
      if !health.Ruined? { EndIsLoaded(before, Now(), st); }
    }

    method OnWriteChunk(w: SysResult) returns (st: WriteState, ghost n: nat)
      requires Now().Flowing() && !Now().FromFile() && health.Sound?
      modifies `currentChunk, `currentChunkP, `wire, `pendingItems, `state, `health
      ensures w.Errno? ==> n == 0 && BrokenOff(old(Now()), Now()) && health == Ruined && wire == old(wire)
      ensures !w.Errno? ==> health == Sound && ChunkOutcome(old(Now()), Now(), w, n, st)
                            && wire == old(wire) + old(Now()).chunk.value[old(Now()).p..old(Now()).p + n]
    {
      n := if w.Accepts? then Min(w.cap, |currentChunk.value| - currentChunkP) else 0;
      var more := DoSendChunk(w);
      if more {
        st := NotYetDone;
      } else {
        var last := true;
        if pendingItems.Some? {
          st, last := NextFromIterator();
        }
        if last {
          st := SendTerminatorChunk();
        }
      }
    }

    /** True if there is data left to send, false at the end of the file. A call that finds no room
        before the end of the file meets EAGAIN. */
    method DoSendfile(w: SysResult) returns (more: bool)
      requires Now().FromFile() && currentChunkP >= 0
      modifies `currentChunkP, `wire, `pendingItems, `state, `health
      ensures w.Again? ==> more && currentChunkP == old(currentChunkP) && wire == old(wire)
      ensures w.Errno? ==> !more && health == Ruined && wire == old(wire) && pendingItems == None
                           && state == old(state).(keepAlive := false)
      ensures !w.Errno? ==> pendingItems == old(pendingItems) && state == old(state) && health == old(health)
      ensures w.Accepts? ==>
                var content, p := iterable.file.content, old(currentChunkP);
                && (more <==> p < |content|)
                && p <= currentChunkP <= Max(p, |content|) && currentChunkP - p <= w.cap
                && (more && w.cap > 0 ==> p < currentChunkP)
                && wire == old(wire) + (if more then content[p..currentChunkP] else "")
    {
      if w.Accepts? && (w.cap > 0 || currentChunkP >= |iterable.file.content|) {
        var bytesSent := if w.cap > 0 then SendfileCount(iterable.file.content, currentChunkP, w.cap) else 0;
        if bytesSent == 0 {
          return false;
        }
        wire := wire + iterable.file.content[currentChunkP..currentChunkP + bytesSent];
        currentChunkP := currentChunkP + bytesSent;
        return true;
      }
      more := HandleNonzeroErrno(if w.Accepts? then Again else w);
    }

    method OnWriteSendfile(w: SysResult) returns (st: WriteState, ghost n: nat)
      requires Now().Flowing() && Now().FromFile() && health.Sound?
      modifies `currentChunk, `currentChunkP, `wire, `pendingItems, `state, `health
      ensures w.Errno? ==> n == 0 && BrokenOff(old(Now()), Now()) && health == Ruined && wire == old(wire)
      ensures !w.Errno? ==> health == Sound && FileOutcome(old(Now()), Now(), w, n, st)
                            && wire == old(wire) + Written(old(Now()), n)
    {
      ghost var before := Now();
      st := NotYetDone;
      if currentChunk.Some? {
        n := if w.Accepts? then Min(w.cap, |currentChunk.value| - currentChunkP) else 0;
        var more := DoSendChunk(w);
        if !more {
          match iterable.file.position {
            case None =>
              currentChunkP := -1;
              st := Aborted;
            case Some(p) =>
              currentChunkP := p;
          }
        }
      } else {
        var more := DoSendfile(w);
        if !more {
          st := Finished;
        }
        n := if w.Accepts? then currentChunkP - before.p else 0;
      }
    }

    /** The dispatch at the start of ev_io_on_write. */
    method OnWrite(w: SysResult) returns (st: WriteState, ghost n: nat)
      requires Now().Flowing() && health.Sound?
      modifies `currentChunk, `currentChunkP, `wire, `pendingItems, `state, `health
      ensures w.Errno? ==> n == 0 && GivenUp(old(state), state) && health == Ruined && wire == old(wire)
      ensures !w.Errno? ==>
                health == Sound && Moved(old(Now()), Now(), w, n, st) && wire == old(wire) + old(Now()).Owed()[..n]
      ensures Clears(old(Now()), Now(), w, n)
    {
      ghost var before := Now();
      if Now().FromFile() {
        st, n := OnWriteSendfile(w);
        FileWriteMoves(before, Now(), w, n, st);
      } else {
        st, n := OnWriteChunk(w);
        ChunkWriteMoves(before, Now(), w, n, st);
      }
    }

    /** The switch at the end of ev_io_on_write. */
    method Conclude(st: WriteState)
      requires open && watcher == ForWrite && health != Lost && !state.expectContinue
      requires health.Sound? && st == NotYetDone ==> Now().Flowing()
      requires health.Ruined? ==> !state.keepAlive
      requires (state.wsgiCallDone ==> state.startResponseCalled) && ClosedOnce()
      modifies this
      ensures Valid() && wire == old(wire) && health == old(health)
      ensures if st == NotYetDone then open && watcher == ForWrite && Now() == old(Now())
              else if st == Finished && old(state).keepAlive then open && watcher == ForRead && currentChunkP == 0
              else !open
    {
      match st {
        case NotYetDone =>
        case Finished =>
          if state.keepAlive {
            EvIoStop();
            Clean();
            Reset();
            StartReading();
          } else {
            CloseConnection();
          }
        case Aborted =>
          CloseConnection();
      }
    }

    /** The write routine, as a step of the session. */
    method WriteOn(w: SysResult) returns (st: WriteState, ghost n: nat)
      requires Now().Flowing() && health.Sound? && !state.expectContinue
      modifies `currentChunk, `currentChunkP, `wire, `pendingItems, `state, `health
      ensures w.Errno? ==> n == 0 && GivenUp(old(state), state) && health == Ruined && wire == old(wire)
      ensures !w.Errno? ==> health == Sound && (st == NotYetDone ==> Now().Flowing())
                            && state == old(state).(chunkedResponse := state.chunkedResponse)
      ensures Reached(w, old(Now()).Owed(), n) && Enabled(Session(PhaseOf(old(Now())), old(wire)), Transmit(n))
      ensures w.Accepts? ==>
                After(Session(PhaseOf(old(Now())), old(wire)), Transmit(n)) == Session(Settling(Now(), st), wire)
      ensures w.Again? ==> st == NotYetDone && PhaseOf(Now()) == PhaseOf(old(Now())) && wire == old(wire)
    {
      ghost var before := Now();
      st, n := OnWrite(w);
      if w != Errno { MovedIsTransmit(before, Now(), old(wire), w, n, st); }
    }

    method WriteFinal(w: SysResult) returns (ghost l: Label)
      requires Valid() && watcher == ForWrite && health.Sound? && !state.expectContinue
      modifies this
      ensures Valid()
      ensures Enabled(old(View()), l) && View() == After(old(View()), l) && WriteAnswers(old(View()).phase, w, l)
      ensures health.Sound? && watcher == ForWrite ==> Notes(state) == Notes(old(state))
      ensures !health.Lost? && !l.Stray?
    {
      var st;
      ghost var n;
      st, n := WriteOn(w);
      Conclude(st);
      l := if w.Again? then Idle else if w.Errno? then Fail(!open) else Transmit(n);
    }

    static predicate OnlyGivenUp(before: State, after: State) {
      after == before.(keepAlive := after.keepAlive, chunkedResponse := after.chunkedResponse)
    }

    /** The write itself, as a step of the session that ignores what the routine returns. */
    method WriteOnce(w: SysResult) returns (ghost l: Label)
      requires Now().Flowing() && health.Sound? && state.expectContinue
      modifies `currentChunk, `currentChunkP, `wire, `pendingItems, `state, `health
      ensures WriteAnswers(PhaseOf(old(Now())), w, l) && Clears(old(Now()), Now(), w, Sent(l))
      ensures Enabled(Session(PhaseOf(old(Now())), old(wire)), l)
      ensures After(Session(PhaseOf(old(Now())), old(wire)), l)
           == Session(if old(state).Interim() then ReadingAt(currentChunkP) else Astray, wire)
      ensures old(state).Interim() ==> Now().Vacant() && AtInterim()
      ensures l.Stray? <==> !old(state).Interim()
      ensures OnlyGivenUp(old(state), state)
    {
      ghost var before := Now();
      var st;
      ghost var n;
      st, n := OnWrite(w);
      OverriddenStep(before, Now(), old(wire), w, n);
      l := OverriddenLabel(PhaseOf(before), n);
      assert n == 0 ==> old(wire) + before.Owed()[..n] == old(wire);
    }

    /** The branch expect_continue of the switch. */
    method ReadAgain(interim: bool)
      requires watcher == ForWrite && open && ClosedOnce()
      requires state.wsgiCallDone ==> state.startResponseCalled
      requires interim ==> Blank() && AtInterim() && state.Interim()
      modifies `watcher, `state, `health
      ensures Valid() && open && watcher == ForRead && state == old(state).(expectContinue := false)
      ensures health == if interim then Sound else Lost
      ensures View() == Session(if interim then ReadingAt(currentChunkP) else Astray, wire)
      ensures Blank() <==> old(Blank())
    {
      EvIoStop();
      health := if interim then Sound else Lost;
      state := state.(expectContinue := false);
      StartReading();
    }

    /** While an interim response is wanted, the result of the write is overridden: whatever was
        under way, the connection is read again after this one event. The fields are fit for that
        exactly if a literal message was under way, and the connection parses on as it should exactly if
        that was the interim response; its offset then says how much of it the client has. */
    method WriteOverridden(w: SysResult) returns (ghost l: Label)
      requires Valid() && watcher == ForWrite && health.Sound? && state.expectContinue
      modifies `currentChunk, `currentChunkP, `wire, `pendingItems, `state, `health, `watcher
      ensures Valid() && open && watcher == ForRead && OnlyGivenUp(old(state).(expectContinue := false), state)
      ensures Enabled(old(View()), l) && View() == After(old(View()), l) && WriteAnswers(old(View()).phase, w, l)
      ensures health == if old(state).Interim() then Sound else Lost
      ensures health.Lost? <==> l.Stray?
      ensures Blank() <==> old(NoRecord() && Now().IsLiteral())
      ensures old(state).Interim() ==> Sent(l) == if w.Accepts? then Min(w.cap, |old(Now()).Owed()|) else 0
    {
      var interim := state.Interim();
      l := WriteOnce(w);
      ReadAgain(interim);
    }

    /** ev_io_on_write takes exactly one step of the session, one that the result of the write allows. */
    method EvIoOnWrite(w: SysResult) returns (ghost l: Label)
      requires Valid() && watcher == ForWrite && health.Sound?
      modifies this
      ensures Valid()
      ensures Enabled(old(View()), l) && View() == After(old(View()), l) && WriteAnswers(old(View()).phase, w, l)
      ensures health.Sound? && watcher == ForWrite ==> Notes(state) == Notes(old(state))
      ensures health.Sound? && watcher == ForRead && old(state).expectContinue ==>
              Notes(old(state)) == Parsed(0, false, true)
      ensures health.Lost? <==> l.Stray?
      ensures old(state).Interim() ==> Sent(l) == if w.Accepts? then Min(w.cap, |old(Now()).Owed()|) else 0
      ensures Reached(w, old(Now()).Owed(), Sent(l)) && wire == old(wire) + old(Now()).Owed()[..Sent(l)]
      ensures w.Again? && !old(state).expectContinue ==> open && health.Sound? && View() == old(View())
      ensures w.Errno? && !old(state).expectContinue ==> !open || health.Ruined?
    {
      if state.expectContinue {
        l := WriteOverridden(w);
      } else {
        l := WriteFinal(w);
      }
    }

    /** Either handler on a connection that is no longer sound. Behind a fatal errno the switch still
        applies, and keep_alive stays cleared. */
    method EvIoAfterwards(a: Afterwards) returns (ghost l: Label)
      requires Valid() && open && !health.Sound?
      modifies this
      ensures Valid() && health == old(health)
      ensures l == Wreck(a.bytes, a.state != NotYetDone)
      ensures Enabled(old(View()), l) && View() == After(old(View()), l)
    {
      wire := wire + a.bytes;
      if health.Ruined? {
        Conclude(a.state);
      } else {
        closables := closables + a.overwritten;
        if a.state != NotYetDone {
          CloseConnection();
        }
      }
      l := Wreck(a.bytes, a.state != NotYetDone);
    }

    // Reading

    /** The request is complete: call the application, or fall back to a 500. */
    method Answer(asked: Asked, app: Application)
      requires Blank() && AtInterim() && InScope(asked, app) && !state.Interim() && ClosedOnce()
      modifies `status, `headers, `state, `calls, `iterable, `pendingItems, `currentChunk, `currentChunkP, `closables
      ensures Holds(Now(), OwedFrom(Answered(asked, app), old(currentChunkP))) && Notes(state) == Notes(old(state))
      ensures ClosedOnce() && (state.wsgiCallDone ==> state.startResponseCalled)
    {
      ghost var k := currentChunkP;
      var ok := WsgiCallApplication(asked, app);
      if !ok {
        assert !state.chunkedResponse;
        pendingItems := None;
        currentChunk := Some(SERVER_ERROR);
        ErrorIsLong(4);
        LiteralIsHeld(Now(), SERVER_ERROR);
        FromStart(LiteralContent(Now(), SERVER_ERROR).Coded(false));
      }
    }

    /** A message of the server's own becomes the current chunk; the offset stays where it is. */
    method StandsLiteral(message: string, ghost x: Exchange)
      requires Blank() && AtInterim() && !SetsOffset(x) && WellScoped(x) && !x.Answered?
      requires ReplyTo(x) == Owed(message, if state.Interim() then Resume else Close, false)
      requires state.Interim() ==> message == CONTINUE
      modifies `currentChunk
      ensures Holds(Now(), OwedFrom(x, currentChunkP)) && NoRecord()
    {
      currentChunk := Some(message);
      LiteralIsLong(x);
      LiteralIsHeld(Now(), message);
      FromStart(message);
    }

    /** The first half of ev_io_on_read for octets that arrived: `replies` if a reply, to `x`, is at hand. */
    method HandleParsed(parsed: Parsed, asked: Asked, app: Application) returns (replies: bool, ghost x: Exchange)
      requires Blank() && AtInterim() && InputInScope(Data(parsed, asked, app)) && ClosedOnce()
      modifies `status, `headers, `state, `calls, `iterable, `pendingItems, `currentChunk, `currentChunkP, `closables
      ensures ReadLabel(Data(parsed, asked, app)) == if replies then Begin(x, state.expectContinue) else Idle
      ensures Notes(state) == parsed
      ensures replies ==>
                WellScoped(x) && Holds(Now(), OwedFrom(x, old(currentChunkP))) && (x.Interim? ==> state.expectContinue)
      ensures replies ==> (state.Interim() ==> NoRecord())
      ensures !replies ==> Blank() && currentChunkP == old(currentChunkP) && parsed == Parsed(0, false, false)
      ensures ClosedOnce() && (state.wsgiCallDone ==> state.startResponseCalled)
    {
      state := state.(errorCode := parsed.errorCode, parseFinished := parsed.finished,
        expectContinue := parsed.expectContinue);
      replies, x := true, Interim;
      if state.errorCode != 0 {
        assert pendingItems == None;
        x := Rejected(state.errorCode);
        StandsLiteral(ErrorMessage(state.errorCode), x);
      } else if state.parseFinished {
        x := Answered(asked, app);
        Answer(asked, app);
      } else if state.expectContinue {
        StandsLiteral(CONTINUE, x);
      } else {
        replies := false;
      }
    }

    /** The branch done of the switch: the write watcher takes over. */
    method BeginWriting(ghost x: Exchange, ghost k: nat)
      requires open && watcher == ForRead && health.Sound? && ClosedOnce()
      requires WellScoped(x) && Holds(Now(), OwedFrom(x, k)) && (x.Interim? ==> state.expectContinue)
      requires (state.wsgiCallDone ==> state.startResponseCalled) && (state.Interim() ==> NoRecord())
      modifies `watcher
      ensures Valid() && Enabled(Session(ReadingAt(k), wire), Begin(x, state.expectContinue))
      ensures View() == After(Session(ReadingAt(k), wire), Begin(x, state.expectContinue))
    {
      EvIoStop();
      StartWriting();
    }

    /** ev_io_on_read for octets that arrived. */
    method ReadData(parsed: Parsed, asked: Asked, app: Application)
      requires Valid() && watcher == ForRead && health.Sound? && InputInScope(Data(parsed, asked, app))
      modifies `status, `headers, `state, `calls, `iterable, `pendingItems, `currentChunk, `currentChunkP, `closables,
        `watcher
      ensures Valid() && health == Sound && Notes(state) == parsed
      ensures var l := ReadLabel(Data(parsed, asked, app));
              Enabled(old(View()), l) && View() == After(old(View()), l)
    {
      ghost var k := currentChunkP;
      var replies;
      ghost var x;
      replies, x := HandleParsed(parsed, asked, app);
      if replies {
        BeginWriting(x, k);
      }
    }

    /** What is owed from octet `k` on, and the write watcher waits to send it. */
    ghost predicate Sends(bytes: string, k: int)
      reads this
    {
      open && watcher == ForWrite && 0 <= k <= |bytes| && Now().Owed() == bytes[k..]
    }

    /** ev_io_on_read takes exactly the step its input calls for. Without octets it waits or closes; an error
        goes before a complete request, and that before the wish for an interim response. */
    method EvIoOnRead(input: ReadInput)
      requires Valid() && watcher == ForRead && health.Sound? && InputInScope(input)
      modifies this
      ensures Valid() && health == Sound && wire == old(wire)
      ensures input.WouldBlock? ==> open && watcher == ForRead && Now() == old(Now()) && View() == old(View())
      ensures input.Eof? || input.ReadError? ==> !open
      ensures input.Data? ==>
                if input.parsed.errorCode != 0 then Sends(ErrorMessage(input.parsed.errorCode), old(currentChunkP))
                else if input.parsed.finished
                then open && watcher == ForWrite
                     && Now().Owed() == ReplyFrom(Answered(input.asked, input.app), old(currentChunkP))
                else if input.parsed.expectContinue then Sends(CONTINUE, old(currentChunkP))
                else open && watcher == ForRead && currentChunkP == old(currentChunkP)
      ensures Enabled(old(View()), ReadLabel(input)) && View() == After(old(View()), ReadLabel(input))
      ensures Notes(state) == if input.Data? then input.parsed else Notes(old(state))
    {
      if input.Data? {
        ReadData(input.parsed, input.asked, input.app);
      } else if input != WouldBlock {
        CloseConnection();
      }
    }

    /** The event loop calls the handler of the active watcher. */
    method Handle(e: Event) returns (ghost l: Label)
      requires Valid() && open && InputInScope(e.input)
      modifies this
      ensures Valid()
      ensures Enabled(old(View()), l) && View() == After(old(View()), l) && Answers(old(View()), e, l)
      ensures health.Lost? <==> old(health).Lost? || l.Stray?
    {
      if health != Sound {
        l := EvIoAfterwards(e.afterwards);
      } else if watcher == ForRead {
        EvIoOnRead(e.input);
        l := ReadLabel(e.input);
      } else {
        l := EvIoOnWrite(e.w);
      }
    }
  }

  // One connection under the event loop

  /** Every step of `ls` is one that its event allows in the state reached before it. */
  ghost predicate Follows(ls: seq<Label>, script: seq<Event>)
    requires |ls| <= |script|
  {
    forall i :: 0 <= i < |ls| ==> Run(ls[..i]).Some? && Answers(Run(ls[..i]).value, script[i], ls[i])
  }

  lemma FollowsSnoc(ls: seq<Label>, script: seq<Event>, l: Label)
    requires |ls| < |script| && Follows(ls, script)
    requires Run(ls).Some? && Answers(Run(ls).value, script[|ls|], l)
    ensures Follows(ls + [l], script)
  {
    forall i | 0 <= i < |ls| + 1
      ensures Run((ls + [l])[..i]).Some? && Answers(Run((ls + [l])[..i]).value, script[i], (ls + [l])[i])
    {
      assert (ls + [l])[..i] == ls[..i];
      if i == |ls| { assert ls[..i] == ls; }
    }
  }

  /** What a run says of the wire and of the client's side of it. */
  lemma RunIsServed(ls: seq<Label>)
    requires Run(ls).Some?
    ensures Undisturbed(ls) ==> AllScoped(Begun(ls)) && Run(ls).value.wire <= Ideal(Begun(ls))
    ensures Run(ls).value.phase.Reading? && NeverCut(ls) ==>
              Undisturbed(ls) && AllScoped(Begun(ls)) && Run(ls).value.wire == Ideal(Begun(ls)) && NoneAborts(Begun(ls))
    ensures var s := Run(ls).value;
            (s.phase.Reading? || s.phase.Closed?) && Undisturbed(ls) && AllHonest(Begun(ls))
              && NoneAborts(Begun(ls)) ==>
              Client.ReadAll(s.wire, s.phase.Closed?) == Client.Transcript(AllDelivered(Begun(ls)), Client.Clean)
  {
    if Undisturbed(ls) { WireIsPrefixOfIdeal(ls); }
    if Run(ls).value.phase.Reading? && NeverCut(ls) { ReuseImpliesComplete(ls); }
    if Run(ls).value.phase.Reading? || Run(ls).value.phase.Closed? {
      if Undisturbed(ls) && AllHonest(Begun(ls)) && NoneAborts(Begun(ls)) { RoundTrip(ls); }
    }
  }

  lemma StraySnoc(ls: seq<Label>, l: Label)
    ensures NeverStray(ls + [l]) <==> NeverStray(ls) && !l.Stray?
  {
    if NeverStray(ls + [l]) {
      assert forall i :: 0 <= i < |ls| ==> ls[i] == (ls + [l])[i];
      assert (ls + [l])[|ls|] == l;
    }
  }

  /** ev_run on one connection. Every script of events, with every size of partial write, is a run
      of the abstract session that follows the script event by event to its end or to the close, so
      all of Session's theorems hold of this object. Whenever it waits for the next request, and when
      it has closed, its client has read back exactly what the applications gave. */
  method Serve(script: seq<Event>) returns (r: Request, ghost ls: seq<Label>)
    requires forall i :: 0 <= i < |script| ==> InputInScope(script[i].input)
    ensures r.Valid() && Run(ls) == Some(r.View())
    ensures |ls| <= |script| && (r.open ==> |ls| == |script|)
    ensures Follows(ls, script)
    ensures Undisturbed(ls) ==> AllScoped(Begun(ls)) && r.wire <= Ideal(Begun(ls))
    ensures r.View().phase.Reading? && NeverCut(ls) ==>
              AllScoped(Begun(ls)) && r.wire == Ideal(Begun(ls)) && NoneAborts(Begun(ls))
    ensures (r.View().phase.Parses() || !r.open) && NeverStray(ls) ==> r.closables == r.closeCalls
    ensures (r.View().phase.Reading? || !r.open) && Undisturbed(ls) && AllHonest(Begun(ls)) && NoneAborts(Begun(ls)) ==>
              Client.ReadAll(r.wire, !r.open) == Client.Transcript(AllDelivered(Begun(ls)), Client.Clean)
  {
    r := new Request();
    ls := [];
    var i := 0;
    while i < |script| && r.open
      invariant 0 <= i <= |script| && |ls| == i
      invariant fresh(r) && r.Valid() && Run(ls) == Some(r.View())
      invariant Follows(ls, script)
      invariant r.health.Lost? <==> !NeverStray(ls)
    {
      ghost var l := r.Handle(script[i]);
      RunSnoc(ls, l);
      FollowsSnoc(ls, script, l);
      StraySnoc(ls, l);
      ls := ls + [l];
      i := i + 1;
    }
    RunIsServed(ls);
  }

  /** Progress of the object itself: if every write finds room for at least one octet, a reply of k
      octets is sent and settled after k events, one more for a file, however little each one takes. */
  method Flush(r: Request, caps: seq<nat>)
    requires r.Valid() && r.health.Sound? && r.watcher == ForWrite && !r.state.expectContinue
    requires forall i :: 0 <= i < |caps| ==> caps[i] > 0
    requires |caps| >= Pending(r.View().phase)
    modifies r
    ensures r.Valid() && r.View() == Session(Settled(old(r.Now()).Ending()), old(r.wire) + old(r.Now()).Owed())
  {
    ghost var start := r.View();
    ghost var final := Session(Settled(start.phase.ending), start.wire + start.phase.owed);
    FlowingOwes(r.Now());
    var i := 0;
    while i < |caps| && r.open && r.watcher == ForWrite
      invariant 0 <= i <= |caps| && r.Valid()
      invariant r.View().phase.Replying? || r.View() == final
      invariant r.View().phase.Replying? ==>
                  var p := r.View().phase;
                  p == start.phase.(owed := p.owed) && r.wire + p.owed == final.wire && (p.probe || p.owed != "")
                  && i + Pending(p) <= Pending(start.phase)
    {
      ghost var before := r.View();
      ghost var l := r.EvIoOnWrite(Accepts(caps[i]));
      Nearer(before, l.n);
      i := i + 1;
    }
  }
}
