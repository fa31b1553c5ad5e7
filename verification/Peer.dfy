/** One client of the server: its Request, the environ under construction, and the octets that
    come in through a buffer it shares with all others (bjoern/server.c, ev_io_on_read). */
module Peer {
  import opened Octets
  import opened Reply
  import opened Sending
  import opened Session
  import opened Connection
  import opened Environ
  import opened Parsing
  import Client
  import MessageSyntax

  const READ_BUFFER_SIZE := 64 * 1024

  /** What read finds. `cut` is the parser: the callbacks it makes of the octets, given whether it has
      seen a header field of the message; `whole` says that it used all of them. `app` is the
      application, given the environ. */
  datatype Arrival =
    | Disconnected
    | NotYet
    | Broke
    | Bytes(octets: string, cut: bool -> seq<Mark>, whole: bool, asked: Asked, app: Dict -> Application)

  ghost predicate ArrivalInScope(a: Arrival) {
    a.Bytes? ==>
      && 0 < |a.octets| <= READ_BUFFER_SIZE
      && (forall begun: bool ::
            Ordered(a.cut(begun), |a.octets|) && InTurn(begun, a.cut(begun))
              && StopsAtRefusal(a.cut(begun), a.octets, a.whole))
      && (forall d: Dict :: InScope(a.asked, a.app(d)))
  }

  /** What the environment has in store for a peer's next event, whichever watcher it meets. */
  datatype Turn = Turn(arrival: Arrival, w: SysResult, afterwards: Afterwards)

  // One connection by itself, with a buffer of its own as it were

  datatype Stage = Stage(session: Session, progress: Progress)

  const OPENED := Stage(FRESH, UNSTARTED)

  function AfterRead(p: Progress, a: Arrival): Progress
    requires ArrivalInScope(a) && p.completed == None
  {
    if a.Bytes? then ParseOf(p, a.cut(p.got.log != []), a.octets, a.whole) else p
  }

  function NotesOf(p: Progress): Parsed { Parsed(p.flags.errorCode, p.completed.Some?, p.flags.expectContinue) }

  /** The input of ev_io_on_read: it depends on the octets that have just arrived and on what this
      connection sent before, and on nothing else. */
  function InputOf(p: Progress, a: Arrival, base: Dict): ReadInput
    requires ArrivalInScope(a) && p.completed == None
  {
    match a
    case Disconnected => Eof
    case NotYet => WouldBlock
    case Broke => ReadError
    case Bytes(_, _, _, asked, app) =>
      var q := AfterRead(p, a);
      Data(NotesOf(q), asked, app(EnvironOf(q, base)))
  }

  /** A path with a malformed or empty piece is answered by a 400 and not by the application. */
  lemma BadPathIsBadRequest(p: Progress, a: Arrival, base: Dict)
    requires ArrivalInScope(a) && a.Bytes? && p.completed == None
    ensures var marks, l := a.cut(p.got.log != []), ReadLabel(InputOf(p, a, base));
            (exists i :: 0 <= i < |marks| && Refused(marks[i], a.octets)) ==>
              l.Begin? && l.x == Rejected(HTTP_BAD_REQUEST)
  {
    var marks := a.cut(p.got.log != []);
    if i :| 0 <= i < |marks| && Refused(marks[i], a.octets) {
      assert !a.whole;
    }
  }

  /** The client is told what was wrong by the status code, and gets nothing else: 400 if the parser stopped
      early, 406 for a body without length, 417 for an expectation that is not met. */
  lemma RefusalIsTold(p: Progress, a: Arrival, base: Dict)
    requires ArrivalInScope(a) && a.Bytes? && p.completed == None && p.flags.errorCode <= 3
    requires AfterRead(p, a).flags.errorCode != 0
    ensures var l, code := ReadLabel(InputOf(p, a, base)), AfterRead(p, a).flags.errorCode;
            && l.Begin? && WellScoped(l.x)
            && var t := Client.ReadAll(ReplyTo(l.x).bytes, true);
            && |t.messages| == 1 && t.verdict == Client.Clean
            && var m := t.messages[0];
            && MessageSyntax.IsStatus(m.status) && m.fields == [] && m.body == ""
            && var status := MessageSyntax.StatusCode(m.status);
            && (!a.whole ==> status == 400) && (code == HTTP_BAD_REQUEST ==> status == 400)
            && (code == HTTP_LENGTH_REQUIRED ==> status == 406)
            && (code == HTTP_EXPECTATION_FAILED ==> status == 417)
  {
    ErrorCodeFits(p, a.cut(p.got.log != []), a.octets);
    var code := AfterRead(p, a).flags.errorCode;
    Client.ErrorIsReceived(code);
  }

  /** What a write leaves of the parse: a new message begins behind a complete reply, the old one goes
      on behind an interim response. */
  function AfterWrite(p: Progress, before: Phase, after: Phase): Progress
    requires before.Replying?
  {
    if !after.Parses() then p
    else if before.overridden then p.(flags := p.flags.(expectContinue := false))
    else UNSTARTED
  }

  ghost predicate ReadStep(p: Progress, a: Arrival, l: Label, next: Progress, base: Dict)
    requires ArrivalInScope(a)
  {
    p.completed == None && l == ReadLabel(InputOf(p, a, base)) && next == AfterRead(p, a)
  }

  /** The step of a connection that `t` allows. */
  ghost predicate StageStep(s: Stage, t: Turn, l: Label, next: Stage, base: Dict) {
    && ArrivalInScope(t.arrival)
    && Enabled(s.session, l) && next.session == After(s.session, l)
    && match s.session.phase
       case Reading => ReadStep(s.progress, t.arrival, l, next.progress, base)
       case Behind(_) => ReadStep(s.progress, t.arrival, l, next.progress, base)
       case Replying(_, _, _, _) =>
         && WriteAnswers(s.session.phase, t.w, l)
         && next.progress == AfterWrite(s.progress, s.session.phase, next.session.phase)
       case Closed => false
       case _ => l == Wreck(t.afterwards.bytes, t.afterwards.state != NotYetDone) && next.progress == s.progress
  }

  datatype Step = Step(turn: Turn, taken: Label, after: Stage)

  function StageOf(history: seq<Step>): Stage { if history == [] then OPENED else history[|history| - 1].after }

  /** A run of one connection under a sequence of turns. */
  ghost predicate Conversation(history: seq<Step>, base: Dict) {
    history == []
    || (var before, last := history[..|history| - 1], history[|history| - 1];
        Conversation(before, base) && StageStep(StageOf(before), last.turn, last.taken, last.after, base))
  }

  function Turns(history: seq<Step>): seq<Turn> { seq(|history|, i requires 0 <= i < |history| => history[i].turn) }

  function Labels(history: seq<Step>): seq<Label> { seq(|history|, i requires 0 <= i < |history| => history[i].taken) }

  lemma ConversationSnoc(history: seq<Step>, s: Step, base: Dict)
    requires Conversation(history, base) && StageStep(StageOf(history), s.turn, s.taken, s.after, base)
    ensures Conversation(history + [s], base) && StageOf(history + [s]) == s.after
    ensures Turns(history + [s]) == Turns(history) + [s.turn] && Labels(history + [s]) == Labels(history) + [s.taken]
  {
    assert (history + [s])[..|history|] == history;
  }

  /** It is a run of the abstract session, so all of Session's theorems hold of it. */
  lemma {:induction false} ConversationIsRun(history: seq<Step>, base: Dict)
    requires Conversation(history, base)
    ensures Run(Labels(history)) == Some(StageOf(history).session)
  {
    if history != [] {
      var before := history[..|history| - 1];
      ConversationIsRun(before, base);
      assert Labels(history)[..|history| - 1] == Labels(before);
    }
  }

  // What a connection has heard of the current message

  ghost function HeardAfter(s: Stage, ns: seq<Notice>, t: Turn, next: Stage): seq<Notice>
    requires ArrivalInScope(t.arrival)
  {
    var p, a := s.session.phase, t.arrival;
    if p.Parses() && a.Bytes? then ns + Notices(a.cut(s.progress.got.log != []), a.octets)
    else if p.Replying? && !p.overridden && next.session.phase.Parses() then []
    else ns
  }

  /** The callbacks since the last complete reply, in all reads, with interim responses between them. */
  ghost function Heard(history: seq<Step>, base: Dict): seq<Notice>
    requires Conversation(history, base)
  {
    if history == [] then []
    else
      var before, last := history[..|history| - 1], history[|history| - 1];
      HeardAfter(StageOf(before), Heard(before, base), last.turn, last.after)
  }

  /** And no piece of a path was refused, unless an error is on record. */
  predicate Kept(p: Progress, ns: seq<Notice>) {
    Records(p, ns) && (p.flags.errorCode == 0 ==> PathsGood(ns))
  }

  lemma {:induction false} ErrorSticks(p: Progress, marks: seq<Mark>, octets: string, q: Progress)
    requires LeadsTo(p, marks, octets, q) && p.flags.errorCode != 0
    ensures q.flags.errorCode != 0
    decreases |marks|
  {
    if marks != [] {
      FeedStep(p, marks, octets, q);
      ErrorSticks(Take(p, NoticeOf(marks[0], octets)), marks[1..], octets, q);
    }
  }

  lemma PathsGoodTogether(a: seq<Notice>, b: seq<Notice>)
    ensures PathsGood(a + b) <==> PathsGood(a) && PathsGood(b)
  {
    assert forall i :: 0 <= i < |b| ==> (a + b)[|a| + i] == b[i];
    if PathsGood(a + b) {
      assert forall i :: 0 <= i < |a| ==> a[i] == (a + b)[i];
    }
  }

  lemma NoneRefused(marks: seq<Mark>, octets: string)
    requires Ordered(marks, |octets|) && StopsAtRefusal(marks, octets, true)
    ensures PathsGood(Notices(marks, octets))
  {
    assert forall i :: 0 <= i < |marks| ==> !Refused(marks[i], octets);
  }

  lemma ReadKeeps(p: Progress, ns: seq<Notice>, a: Arrival)
    requires ArrivalInScope(a) && a.Bytes? && p.completed == None && Kept(p, ns)
    ensures Kept(AfterRead(p, a), ns + Notices(a.cut(p.got.log != []), a.octets))
  {
    var marks := a.cut(p.got.log != []);
    var q := Feed(p, marks, a.octets);
    FeedRecords(p, ns, marks, a.octets, q);
    if p.flags.errorCode != 0 { ErrorSticks(p, marks, a.octets, q); }
    if a.whole { NoneRefused(marks, a.octets); }
    PathsGoodTogether(ns, Notices(marks, a.octets));
  }

  lemma StepKeeps(s: Stage, ns: seq<Notice>, t: Turn, l: Label, next: Stage, base: Dict)
    requires StageStep(s, t, l, next, base) && Kept(s.progress, ns)
    ensures Kept(next.progress, HeardAfter(s, ns, t, next))
  {
    if s.session.phase.Parses() && t.arrival.Bytes? { ReadKeeps(s.progress, ns, t.arrival); }
  }

  lemma {:induction false} HeardIsKept(history: seq<Step>, base: Dict)
    requires Conversation(history, base)
    ensures Kept(StageOf(history).progress, Heard(history, base))
  {
    if history != [] {
      var before, last := history[..|history| - 1], history[|history| - 1];
      HeardIsKept(before, base);
      StepKeeps(StageOf(before), Heard(before, base), last.turn, last.taken, last.after, base);
    }
  }

  lemma StepGivesEnviron(s: Stage, ns: seq<Notice>, t: Turn, l: Label, next: Stage, base: Dict)
    requires StageStep(s, t, l, next, base) && Kept(next.progress, ns) && l.Begin? && l.x.Answered?
    ensures t.arrival.Bytes? && PathsGood(ns) && FirstLength(ns) != Some(0)
    ensures next.progress.got == Recorded(ns) && next.progress.completed.Some?
    ensures l.x == Answered(t.arrival.asked, t.arrival.app(EnvironOf(next.progress, base)))
  {
  }

  /** Whenever the application is called, it gets the environ of all callbacks since the last complete reply,
      kind by kind, however many reads they came in and whatever interim responses were sent in between. */
  lemma EnvironIsOfWholeMessage(history: seq<Step>, base: Dict)
    requires Conversation(history, base) && history != []
    requires var l := history[|history| - 1].taken; l.Begin? && l.x.Answered?
    ensures var last, ns := history[|history| - 1], Heard(history, base);
            && last.turn.arrival.Bytes? && PathsGood(ns) && FirstLength(ns) != Some(0)
            && last.after.progress.completed.Some?
            && last.taken.x.asked == last.turn.arrival.asked
            && last.taken.x.app
               == last.turn.arrival.app(Completed(Recorded(ns), last.after.progress.completed.value, base))
  {
    HeardIsKept(history, base);
    var before, last := history[..|history| - 1], history[|history| - 1];
    StepGivesEnviron(StageOf(before), Heard(history, base), last.turn, last.taken, last.after, base);
  }

  lemma StepIsDetermined(s: Stage, t: Turn, l: Label, next: Stage, m: Label, other: Stage, base: Dict)
    requires StageStep(s, t, l, next, base) && StageStep(s, t, m, other, base)
    requires l == m || s.session.phase.Parses()
    ensures l == m && next == other
  {
  }

  /** The same turns, and the same steps but for the reads. */
  ghost predicate SameButReads(a: seq<Step>, b: seq<Step>) {
    |a| == |b| && forall i :: 0 <= i < |a| ==>
      a[i].turn == b[i].turn && (a[i].taken == b[i].taken || StageOf(a[..i]).session.phase.Parses())
  }

  lemma SameBefore(a: seq<Step>, b: seq<Step>)
    requires a != [] && SameButReads(a, b)
    ensures SameButReads(a[..|a| - 1], b[..|b| - 1])
  {
    assert forall i :: 0 <= i < |a| - 1 ==> a[..|a| - 1][..i] == a[..i];
  }

  /** Nothing but a connection's own turns, and what its own writes achieved, decides what it reads, which
      replies it begins and what it parses. */
  lemma {:induction false} ReadsAreDetermined(a: seq<Step>, b: seq<Step>, base: Dict)
    requires Conversation(a, base) && Conversation(b, base) && SameButReads(a, b)
    ensures a == b
  {
    if a != [] {
      var k := |a| - 1;
      var before, x, y := a[..k], a[k], b[k];
      SameBefore(a, b);
      ReadsAreDetermined(before, b[..k], base);
      StepIsDetermined(StageOf(before), x.turn, x.taken, x.after, y.taken, y.after, base);
      assert a == before + [x] && b == before + [y];
    }
  }

  // The objects

  class Peer {
    const request: Request
    const builder: EnvironBuilder
    ghost var history: seq<Step>

    ghost function Now(): Stage
      reads request, builder
    {
      Stage(request.View(), builder.NowAt())
    }

    /** The two objects share the bits of request_state that the callbacks set. */
    ghost predicate InSync()
      reads request, builder
    {
      Request.Notes(request.state) == Parsed(builder.errorCode, builder.parseFinished, builder.expectContinue)
    }

    ghost predicate Valid()
      reads this, request, builder
    {
      && request.Valid() && builder.Valid()
      && (request.open && request.health.Sound? ==> InSync())
      && (request.health.Lost? <==> !NeverStray(Labels(history)))
      && Conversation(history, builder.base) && StageOf(history) == Now()
    }

    constructor (base: Dict)
      ensures Valid() && history == [] && builder.base == base
      ensures fresh(request) && fresh(builder)
      ensures request.open
    {
      request := new Request();
      builder := new EnvironBuilder(base);
      history := [];
    }

    /** The read call fills the shared buffer. */
    static method Read(buf: array<char>, octets: string)
      requires |octets| <= buf.Length
      modifies buf
      ensures buf[..|octets|] == octets
    {
      forall i | 0 <= i < |octets| {
        buf[i] := octets[i];
      }
    }

    /** Octets have arrived: they go through the shared buffer, and what was left there by another
        connection does not matter. */
    method TakeOctets(a: Arrival, buf: array<char>)
      requires builder.Filling() && ArrivalInScope(a) && a.Bytes? && buf.Length == READ_BUFFER_SIZE
      modifies builder, buf
      ensures builder.Valid() && builder.NowAt() == AfterRead(old(builder.NowAt()), a)
      ensures old(builder.errorCode) <= 3 ==> builder.errorCode <= 3
    {
      FieldTellsBegun(builder);
      var marks := a.cut(builder.field != "");
      if builder.errorCode <= 3 { ErrorCodeFits(builder.NowAt(), marks, a.octets); }
      Read(buf, a.octets);
      RequestParse(builder, buf, |a.octets|, marks, a.whole);
    }

    method OnReadable(a: Arrival, buf: array<char>) returns (ghost l: Label)
      requires request.Valid() && builder.Valid() && InSync()
      requires request.open && request.health.Sound? && request.watcher == ForRead
      requires ArrivalInScope(a) && buf.Length == READ_BUFFER_SIZE
      modifies request, builder, buf
      ensures request.Valid() && builder.Valid() && request.health.Sound? && (request.open ==> InSync())
      ensures old(builder.NowAt()).completed == None && l == ReadLabel(InputOf(old(builder.NowAt()), a, builder.base))
      ensures Enabled(old(request.View()), l) && request.View() == After(old(request.View()), l)
      ensures builder.NowAt() == AfterRead(old(builder.NowAt()), a)
      ensures request.wire == old(request.wire)
      ensures a.NotYet? ==> request.open && request.Now() == old(request.Now()) && request.View() == old(request.View())
      ensures a.Disconnected? || a.Broke? ==> !request.open
    {
      ghost var p := builder.NowAt();
      var input := if a.Disconnected? then Eof else if a.NotYet? then WouldBlock else ReadError;
      if a.Bytes? {
        TakeOctets(a, buf);
        input := Data(Parsed(builder.errorCode, builder.parseFinished, builder.expectContinue), a.asked,
          a.app(builder.headers));
      }
      request.EvIoOnRead(input);
      l := ReadLabel(input);
    }

    /** The connection is read again: for the rest of the message, or for the next one. */
    method ParseOn(sameMessage: bool)
      requires builder.Valid()
      modifies builder
      ensures builder.Valid()
      ensures var p := old(builder.NowAt());
              builder.NowAt() == if sameMessage then p.(flags := p.flags.(expectContinue := false)) else UNSTARTED
    {
      if sameMessage {
        builder.expectContinue := false;
      } else {
        builder.Reset();
      }
    }

    method OnWritable(w: SysResult) returns (ghost l: Label)
      requires request.Valid() && builder.Valid() && InSync()
      requires request.open && request.health.Sound? && request.watcher == ForWrite
      modifies request, builder
      ensures request.Valid() && builder.Valid() && (request.open && request.health.Sound? ==> InSync())
      ensures request.health.Lost? <==> l.Stray?
      ensures Enabled(old(request.View()), l) && request.View() == After(old(request.View()), l)
      ensures WriteAnswers(old(request.View()).phase, w, l)
      ensures builder.NowAt() == AfterWrite(old(builder.NowAt()), old(request.View()).phase, request.View().phase)
    {
      var overridden := request.state.expectContinue;
      l := request.EvIoOnWrite(w);
      if request.open && request.health.Sound? && request.watcher == ForRead {
        ParseOn(overridden);
      }
    }

    /** The event loop calls the handler of the active watcher. */
    method Handle(t: Turn, buf: array<char>) returns (ghost l: Label)
      requires request.Valid() && builder.Valid() && (request.open && request.health.Sound? ==> InSync())
      requires request.open && ArrivalInScope(t.arrival) && buf.Length == READ_BUFFER_SIZE
      modifies request, builder, buf
      ensures request.Valid() && builder.Valid() && (request.open && request.health.Sound? ==> InSync())
      ensures StageStep(old(Now()), t, l, Now(), builder.base)
      ensures request.health.Lost? <==> old(request.health).Lost? || l.Stray?
      ensures old(request.health).Sound? && old(request.watcher) == ForRead ==> !t.arrival.Bytes? ==>
                && request.wire == old(request.wire) && builder.NowAt() == old(builder.NowAt())
                && (t.arrival.NotYet? <==> request.open) && (request.open ==> request.View() == old(request.View()))
    {
      if request.health != Sound {
        l := request.EvIoAfterwards(t.afterwards);
      } else if request.watcher == ForRead {
        l := OnReadable(t.arrival, buf);
      } else {
        l := OnWritable(t.w);
      }
    }

    /** An event on this connection. */
    method On(t: Turn, buf: array<char>)
      requires Valid() && request.open && ArrivalInScope(t.arrival) && buf.Length == READ_BUFFER_SIZE
      modifies this, request, builder, buf
      ensures Valid() && Turns(history) == Turns(old(history)) + [t]
      ensures old(request.health).Sound? && old(request.watcher) == ForRead ==> !t.arrival.Bytes? ==>
                && request.wire == old(request.wire) && builder.NowAt() == old(builder.NowAt())
                && (t.arrival.NotYet? <==> request.open) && (request.open ==> request.View() == old(request.View()))
    {
      ghost var l := Handle(t, buf);
      ghost var s := Step(t, l, Now());
      ConversationSnoc(history, s, builder.base);
      StraySnoc(Labels(history), l);
      history := history + [s];
    }
  }
}
