/** One connection as a client can know it: the octets on the wire, and while a reply is under
    way the octets still owed. The concrete server (Connection.dfy) is proved to take only
    these steps; this file proves what holds over every run of them. */
module Session {
  import opened Octets
  import opened Reply
  import opened Client
  import opened StartResponse
  import opened ChunkedCoding

  /** `overridden`: an interim response is wanted, so the connection will be read again after one
      write, whatever that write achieves. `Behind`: it is read again, but the first `k` octets of an
      interim response are on the wire and the offset stands there. `Doomed`: a fatal errno was seen but
      the socket is not yet closed. `Astray`: it is read again with a final reply half sent. */
  datatype Phase =
    | Reading
    | Behind(k: nat)
    | Replying(owed: string, ending: Ending, probe: bool, overridden: bool)
    | Doomed
    | Astray
    | Closed
  {
    /** The next octets that arrive are parsed as they should be. */
    predicate Parses() { Reading? || Behind? }

    function Offset(): nat { if Behind? then k else 0 }
  }

  datatype Session = Session(phase: Phase, wire: string)

  const FRESH := Session(Reading, "")

  /** What one event does. `Cut` leaves an interim response in the middle and `Forgo` where it was, `Stray`
      leaves a final reply, `Wreck` stands for whatever happens on a doomed or stray connection. */
  datatype Label =
    | Idle
    | HangUp
    | Begin(x: Exchange, overridden: bool)
    | Transmit(n: nat)
    | Forgo
    | Cut(n: nat)
    | Fail(closes: bool)
    | Stray(n: nat)
    | Wreck(bytes: string, closes: bool)

  predicate Enabled(s: Session, l: Label) {
    match l
    case Idle => !s.phase.Closed? && (s.phase.Replying? ==> !s.phase.overridden)
    case HangUp => s.phase.Parses()
    case Begin(x, overridden) => s.phase.Parses() && WellScoped(x) && (x.Interim? ==> overridden)
    case Transmit(n) =>
      s.phase.Replying? && n <= |s.phase.owed|
      && (s.phase.overridden ==> n == |s.phase.owed| && s.phase.ending == Resume)
    case Forgo => s.phase.Replying? && s.phase.overridden && s.phase.ending == Resume
    case Cut(n) => s.phase.Replying? && s.phase.overridden && s.phase.ending == Resume && 0 < n < |s.phase.owed|
    case Fail(_) => s.phase.Replying? && !s.phase.overridden
    case Stray(n) => s.phase.Replying? && s.phase.overridden && s.phase.ending != Resume && n <= |s.phase.owed|
    case Wreck(_, _) => s.phase.Doomed? || s.phase.Astray?
  }

  predicate Stays(e: Ending) { e == Reuse || e == Resume }

  function Settled(e: Ending): Phase { if Stays(e) then Reading else Closed }

  /** A reply is over when nothing is owed; with a file, when a further sendfile finds nothing. */
  function Remaining(p: Phase, n: nat): Phase
    requires p.Replying? && n <= |p.owed|
  {
    if n == |p.owed| && (p.probe ==> p.owed == "") then Settled(p.ending)
    else p.(owed := p.owed[n..])
  }

  /** Reading again with `owed` of an interim response left. */
  function LeftBehind(owed: string): Phase {
    if |owed| >= |CONTINUE| then Reading else Behind(|CONTINUE| - |owed|)
  }

  function After(s: Session, l: Label): Session
    requires Enabled(s, l)
  {
    match l
    case Idle => s
    case HangUp => s.(phase := Closed)
    case Begin(x, overridden) =>
      var r := ReplyTo(x);
      s.(phase := Replying(ReplyFrom(x, s.phase.Offset()), r.ending, r.probe, overridden))
    case Transmit(n) => Session(Remaining(s.phase, n), s.wire + s.phase.owed[..n])
    case Forgo => s.(phase := LeftBehind(s.phase.owed))
    case Cut(n) => Session(LeftBehind(s.phase.owed[n..]), s.wire + s.phase.owed[..n])
    case Fail(closes) => s.(phase := if closes then Closed else Doomed)
    case Stray(n) => Session(Astray, s.wire + s.phase.owed[..n])
    case Wreck(bytes, closes) => Session(if closes then Closed else s.phase, s.wire + bytes)
  }

  /** Where a run from a fresh connection ends; None when some label is not enabled. */
  function Run(ls: seq<Label>): Option<Session> {
    if ls == [] then Some(FRESH)
    else
      match Run(ls[..|ls| - 1])
      case None => None
      case Some(s) => if Enabled(s, ls[|ls| - 1]) then Some(After(s, ls[|ls| - 1])) else None
  }

  lemma RunSnoc(ls: seq<Label>, l: Label)
    requires Run(ls).Some? && Enabled(Run(ls).value, l)
    ensures Run(ls + [l]) == Some(After(Run(ls).value, l))
  {
    assert (ls + [l])[..|ls|] == ls;
  }

  /** The exchanges begun, in order, but for the interim responses that were dropped. */
  function Begun(ls: seq<Label>): seq<Exchange> {
    if ls == [] then []
    else
      var before, l := Begun(ls[..|ls| - 1]), ls[|ls| - 1];
      if l.Begin? then before + [l.x]
      else if l.Forgo? && before != [] then before[..|before| - 1]
      else before
  }

  /** No fatal errno while a final reply was under way. */
  predicate NeverFailed(ls: seq<Label>) { forall i :: 0 <= i < |ls| ==> !ls[i].Fail? }

  /** No interim response was cut short. */
  predicate NeverCut(ls: seq<Label>) { forall i :: 0 <= i < |ls| ==> !ls[i].Cut? }

  /** No final reply was left behind half sent. */
  predicate NeverStray(ls: seq<Label>) { forall i :: 0 <= i < |ls| ==> !ls[i].Stray? }

  predicate Undisturbed(ls: seq<Label>) { NeverFailed(ls) && NeverCut(ls) && NeverStray(ls) }

  predicate AllScoped(xs: seq<Exchange>) { forall i :: 0 <= i < |xs| ==> WellScoped(xs[i]) }

  /** The octets owed for `xs`, one reply behind the other. */
  function Ideal(xs: seq<Exchange>): string
    requires AllScoped(xs)
  {
    if xs == [] then "" else Ideal(xs[..|xs| - 1]) + ReplyTo(xs[|xs| - 1]).bytes
  }

  predicate AllStay(xs: seq<Exchange>)
    requires AllScoped(xs)
  {
    forall i :: 0 <= i < |xs| ==> Stays(ReplyTo(xs[i]).ending)
  }

  // Nothing lost, nothing twice, nothing out of order

  /** The last reply is partly sent. */
  predicate UnderWay(s: Session, xs: seq<Exchange>)
    requires s.phase.Replying? && AllScoped(xs)
  {
    && xs != [] && AllStay(xs[..|xs| - 1])
    && var r := ReplyTo(xs[|xs| - 1]);
    && s.phase.ending == r.ending && s.phase.probe == r.probe
    && s.wire + s.phase.owed == Ideal(xs)
    && |s.phase.owed| <= |r.bytes| && (s.phase.overridden ==> |s.phase.owed| == |r.bytes|)
    && (s.phase.probe || s.phase.owed != "")
  }

  /** The bookkeeping every undisturbed run keeps. */
  predicate Accounted(s: Session, xs: seq<Exchange>) {
    && AllScoped(xs)
    && match s.phase
       case Reading => AllStay(xs) && s.wire == Ideal(xs)
       case Replying(_, _, _, _) => UnderWay(s, xs)
       case Closed => s.wire == Ideal(xs) && (AllStay(xs) || (xs != [] && AllStay(xs[..|xs| - 1])))
       case _ => false
  }

  lemma SplitOwed(wire: string, o: string, n: nat)
    requires n <= |o|
    ensures (wire + o[..n]) + o[n..] == wire + o
    ensures n == |o| ==> wire + o[..n] == wire + o
  {
    assert o == o[..n] + o[n..];
    Regrouped(wire, o[..n], o[n..]);
  }

  lemma AllStaySnoc(xs: seq<Exchange>)
    requires AllScoped(xs) && xs != [] && AllStay(xs[..|xs| - 1])
    ensures AllStay(xs) <==> Stays(ReplyTo(xs[|xs| - 1]).ending)
  {
    assert forall i :: 0 <= i < |xs| - 1 ==> xs[..|xs| - 1][i] == xs[i];
  }

  lemma AccountedTransmit(s: Session, xs: seq<Exchange>, n: nat)
    requires Accounted(s, xs) && Enabled(s, Transmit(n))
    ensures Accounted(After(s, Transmit(n)), xs)
  {
    SplitOwed(s.wire, s.phase.owed, n);
    AllStaySnoc(xs);
  }

  lemma AccountedForgo(s: Session, xs: seq<Exchange>)
    requires Accounted(s, xs) && Enabled(s, Forgo)
    ensures Accounted(After(s, Forgo), xs[..|xs| - 1])
  {
    var head, bytes := Ideal(xs[..|xs| - 1]), ReplyTo(xs[|xs| - 1]).bytes;
    assert |s.wire| == |head|;
    assert s.wire == (s.wire + s.phase.owed)[..|head|] == (head + bytes)[..|head|] == head;
  }

  lemma AccountedStep(s: Session, before: seq<Label>, l: Label)
    requires Accounted(s, Begun(before)) && Enabled(s, l) && !l.Fail? && !l.Stray? && !l.Cut?
    ensures Accounted(After(s, l), Begun(before + [l]))
  {
    var xs := Begun(before);
    assert (before + [l])[..|before|] == before;
    if l.Begin? {
      ReplyNotEmpty(l.x);
      assert (xs + [l.x])[..|xs|] == xs;
    } else if l.Transmit? {
      AccountedTransmit(s, xs, l.n);
    } else if l.Forgo? {
      AccountedForgo(s, xs);
    }
  }

  lemma {:induction false} RunIsAccounted(ls: seq<Label>)
    requires Run(ls).Some? && Undisturbed(ls)
    ensures Accounted(Run(ls).value, Begun(ls))
  {
    if ls != [] {
      var before := ls[..|ls| - 1];
      RunIsAccounted(before);
      AccountedStep(Run(before).value, before, ls[|ls| - 1]);
      assert before + [ls[|ls| - 1]] == ls;
    }
  }

  /** On every run, whatever was accepted by each write, the wire is a prefix of the ideal
      octets, and what is missing is exactly what is still owed. */
  lemma WireIsPrefixOfIdeal(ls: seq<Label>)
    requires Run(ls).Some? && Undisturbed(ls)
    ensures AllScoped(Begun(ls))
    ensures var s := Run(ls).value;
            s.wire + (if s.phase.Replying? then s.phase.owed else "") == Ideal(Begun(ls))
  {
    RunIsAccounted(ls);
    var s := Run(ls).value;
    assert s.wire + "" == s.wire;
  }

  /** A transmission ends the reply exactly when it completes the ideal octets; for a file,
      in the event behind that one. */
  lemma ExactCompletion(ls: seq<Label>, n: nat)
    requires Run(ls).Some? && Undisturbed(ls) && Enabled(Run(ls).value, Transmit(n))
    ensures AllScoped(Begun(ls)) && Begun(ls) != []
    ensures var s := Run(ls).value;
            var t := After(s, Transmit(n));
            (!t.phase.Replying? <==> t.wire == Ideal(Begun(ls)) && (s.phase.probe ==> s.wire == t.wire))
            && (!t.phase.Replying? ==> t.phase == Settled(ReplyTo(Begun(ls)[|Begun(ls)| - 1]).ending))
  {
    RunIsAccounted(ls);
    var s := Run(ls).value;
    SplitOwed(s.wire, s.phase.owed, n);
  }

  /** After a fatal errno on a final reply, or a final reply left half sent, nothing is parsed and no
      reply is sent any more. */
  lemma {:induction false} DisturbedIsFinal(ls: seq<Label>)
    requires Run(ls).Some?
    ensures (NeverFailed(ls) && NeverStray(ls))
            || Run(ls).value.phase.Doomed? || Run(ls).value.phase.Astray? || Run(ls).value.phase.Closed?
  {
    if ls != [] {
      var before, l := ls[..|ls| - 1], ls[|ls| - 1];
      DisturbedIsFinal(before);
      assert forall i :: 0 <= i < |before| ==> before[i] == ls[i];
      assert NeverFailed(before) && !l.Fail? ==> NeverFailed(ls);
      assert NeverStray(before) && !l.Stray? ==> NeverStray(ls);
    }
  }

  /** As long as no interim response is cut short, the connection is read again only if there was no fatal
      errno while a final reply was under way, and behind complete replies that all left it open. */
  lemma ReuseImpliesComplete(ls: seq<Label>)
    requires Run(ls).Some? && Run(ls).value.phase.Reading? && NeverCut(ls)
    ensures Undisturbed(ls) && AllScoped(Begun(ls))
    ensures Run(ls).value.wire == Ideal(Begun(ls)) && AllStay(Begun(ls))
  {
    DisturbedIsFinal(ls);
    RunIsAccounted(ls);
  }

  // Progress

  /** Events that put at least one octet on the wire. */
  function Productive(ls: seq<Label>): nat {
    if ls == [] then 0
    else Productive(ls[..|ls| - 1]) + (if ls[|ls| - 1].Transmit? && ls[|ls| - 1].n > 0 then 1 else 0)
  }

  lemma {:induction false} ProductiveAtMostWire(ls: seq<Label>)
    requires Run(ls).Some?
    ensures Productive(ls) <= |Run(ls).value.wire|
  {
    if ls != [] { ProductiveAtMostWire(ls[..|ls| - 1]); }
  }

  lemma ProductiveAtMostIdeal(ls: seq<Label>)
    requires Run(ls).Some? && Undisturbed(ls)
    ensures AllScoped(Begun(ls)) && Productive(ls) <= |Ideal(Begun(ls))|
  {
    ProductiveAtMostWire(ls);
    WireIsPrefixOfIdeal(ls);
  }

  /** Events that a reply still needs at most, if each of them sends something. */
  function Pending(p: Phase): nat { if p.Replying? then |p.owed| + (if p.probe then 1 else 0) else 0 }

  /** An event that sends something, or that finds nothing owed, brings the end nearer and loses nothing. */
  lemma Nearer(s: Session, n: nat)
    requires Enabled(s, Transmit(n)) && (n > 0 || s.phase.owed == "") && (s.phase.probe || s.phase.owed != "")
    ensures var t := After(s, Transmit(n));
            Pending(t.phase) < Pending(s.phase)
            && if t.phase.Replying?
               then t.wire + t.phase.owed == s.wire + s.phase.owed && (t.phase.probe || t.phase.owed != "")
                    && t.phase == s.phase.(owed := t.phase.owed)
               else t == Session(Settled(s.phase.ending), s.wire + s.phase.owed)
  {
    SplitOwed(s.wire, s.phase.owed, n);
  }

  // What the client makes of it

  /** The application keeps its side of the bargain for a reply that runs to its end. */
  predicate Honest(x: Exchange) {
    match x
    case Interim => true
    case Rejected(_) => true
    case Answered(asked, app) =>
      TestsAgree(app)
      && match PlanOf(asked, app)
         case None => true
         case Some(p) =>
           && Decent(p.started, |p.content.Data()|)
           && (LengthFound(p.started.headers) && !IsEmptyStatus(p.started.status) ==>
                 HasContentLength(p.started.headers))
  }

  /** No reply of the list breaks off. */
  predicate NoneAborts(xs: seq<Exchange>)
    requires AllScoped(xs)
  {
    forall i :: 0 <= i < |xs| ==> ReplyTo(xs[i]).ending != Abort
  }

  predicate AllHonest(xs: seq<Exchange>) { forall i :: 0 <= i < |xs| ==> Honest(xs[i]) }

  function Delivered(x: Exchange): seq<Message>
    requires WellScoped(x)
  {
    match x
    case Interim => []
    case Rejected(code) => [Message(ErrorStatus(code), [], "")]
    case Answered(asked, app) =>
      match PlanOf(asked, app)
      case None => [Message(ErrorStatus(4), [], "")]
      case Some(p) => [Expected(p)]
  }

  function AllDelivered(xs: seq<Exchange>): seq<Message>
    requires AllScoped(xs)
  {
    if xs == [] then [] else AllDelivered(xs[..|xs| - 1]) + Delivered(xs[|xs| - 1])
  }

  /** Behind a whole reply the server reads again exactly if the client expects the connection to go on,
      unless the application itself sends a Connection field with "close" on a connection that is kept. */
  lemma PersistenceAgreesIff(asked: Asked, app: Application)
    requires InScope(asked, app) && PlanOf(asked, app).Some? && !PlanOf(asked, app).value.content.Broken()
    ensures var p := PlanOf(asked, app).value;
            (Settled(ReplyTo(Answered(asked, app)).ending).Reading? <==> Persists(Expected(p)))
            <==> !(p.keepAlive && ClosesItself(p.started.headers))
  {
    KeepingAgreesIff(PlanOf(asked, app).value);
  }

  lemma StayingReplyReadsBack(x: Exchange, rest: string, closed: bool)
    requires WellScoped(x) && Honest(x) && Stays(ReplyTo(x).ending)
    ensures ReadAll(ReplyTo(x).bytes + rest, closed) == Add(Delivered(x), ReadAll(rest, closed))
  {
    ReplyNotEmpty(x);
    if x.Interim? {
      ContinueReadsBack(rest);
    } else {
      PlanIsCoherent(x.asked, x.app);
      BodilessIff(PlanOf(x.asked, x.app).value.started.status);
      ReplyReadsBack(PlanOf(x.asked, x.app).value, rest);
    }
  }

  lemma NoFileBehindError(asked: Asked, app: Application)
    requires TestsAgree(app) && PlanOf(asked, app) == None
    ensures ErrorContent(app) == Pieces([SERVER_ERROR], false) && ErrorContent(app).Coded(false) == SERVER_ERROR
  {
    FlattenSingle(SERVER_ERROR);
    assert SERVER_ERROR + "" == SERVER_ERROR;
  }

  lemma LastPlanReadsBack(asked: Asked, app: Application)
    requires InScope(asked, app) && Honest(Answered(asked, app)) && PlanOf(asked, app).Some?
    requires !PlanOf(asked, app).value.content.Broken()
    ensures var p := PlanOf(asked, app).value;
            PlanBytes(p) != "" ==> ReadAll(PlanBytes(p), true) == Transcript([Expected(p)], Clean)
  {
    var p := PlanOf(asked, app).value;
    PlanIsCoherent(asked, app);
    if SelfDelimiting(p) {
      ReplyReadsBack(p, "");
      assert PlanBytes(p) + "" == PlanBytes(p) && ReadAll("", true) == Transcript([], Clean);
    } else {
      ReplyToCloseReadsBack(p);
    }
  }

  lemma LastReplyReadsBack(x: Exchange)
    requires WellScoped(x) && Honest(x) && ReplyTo(x).ending != Abort
    ensures ReadAll(ReplyTo(x).bytes, true) == Transcript(Delivered(x), Clean)
  {
    var s := ReplyTo(x).bytes;
    assert s + "" == s;
    ReplyNotEmpty(x);
    if Stays(ReplyTo(x).ending) {
      StayingReplyReadsBack(x, "", true);
    } else if x.Rejected? {
      ErrorReadsBack(x.code);
    } else if PlanOf(x.asked, x.app) == None {
      NoFileBehindError(x.asked, x.app);
      ErrorReadsBack(4);
    } else {
      LastPlanReadsBack(x.asked, x.app);
    }
  }

  lemma AddTwice(a: seq<Message>, b: seq<Message>, t: Transcript)
    ensures Add(a, Add(b, t)) == Add(a + b, t)
  {
    assert a + (b + t.messages) == (a + b) + t.messages;
  }

  lemma {:induction false} StayingRepliesReadBack(xs: seq<Exchange>, rest: string, closed: bool)
    requires AllScoped(xs) && AllHonest(xs) && AllStay(xs)
    ensures ReadAll(Ideal(xs) + rest, closed) == Add(AllDelivered(xs), ReadAll(rest, closed))
  {
    if xs == [] {
      assert "" + rest == rest;
      assert [] + ReadAll(rest, closed).messages == ReadAll(rest, closed).messages;
    } else {
      var last := xs[|xs| - 1];
      var before := xs[..|xs| - 1];
      var s := ReplyTo(last).bytes;
      assert Ideal(xs) + rest == Ideal(before) + (s + rest);
      StayingRepliesReadBack(before, s + rest, closed);
      StayingReplyReadsBack(last, rest, closed);
      AddTwice(AllDelivered(before), Delivered(last), ReadAll(rest, closed));
    }
  }

  /** The framing round trip: between replies and after the close the client has exactly the
      messages the application gave, in order, with nothing left over. */
  lemma RoundTrip(ls: seq<Label>)
    requires Run(ls).Some? && Undisturbed(ls) && AllHonest(Begun(ls))
    requires Run(ls).value.phase.Reading? || Run(ls).value.phase.Closed?
    requires AllScoped(Begun(ls)) && NoneAborts(Begun(ls))
    ensures ReadAll(Run(ls).value.wire, Run(ls).value.phase.Closed?) == Transcript(AllDelivered(Begun(ls)), Clean)
  {
    RunIsAccounted(ls);
    var s, xs := Run(ls).value, Begun(ls);
    if AllStay(xs) {
      StayingRepliesReadBack(xs, "", s.phase.Closed?);
      assert Ideal(xs) + "" == Ideal(xs);
      assert AllDelivered(xs) + [] == AllDelivered(xs);
    } else {
      var before, last := xs[..|xs| - 1], xs[|xs| - 1];
      StayingRepliesReadBack(before, ReplyTo(last).bytes, true);
      LastReplyReadsBack(last);
    }
  }

  /** The framing itself tells a client whether the reply is complete, however it is to end. */
  ghost predicate DelimitedReply(x: Exchange) {
    match x
    case Interim => true
    case Rejected(_) => false
    case Answered(asked, app) => PlanOf(asked, app).Some? && Delimited(PlanOf(asked, app).value)
  }

  lemma SentPart(s: Session, xs: seq<Exchange>, k: nat)
    requires Accounted(s, xs) && s.phase.Replying?
    requires k == |ReplyTo(xs[|xs| - 1]).bytes| - |s.phase.owed|
    ensures s.wire == Ideal(xs[..|xs| - 1]) + ReplyTo(xs[|xs| - 1]).bytes[..k]
    ensures s.wire == Ideal(xs[..|xs| - 1]) <==> k == 0
  {
    var head, bytes := Ideal(xs[..|xs| - 1]), ReplyTo(xs[|xs| - 1]).bytes;
    assert s.wire == (s.wire + s.phase.owed)[..|s.wire|];
    assert (head + bytes)[..|head| + k] == head + bytes[..k];
    assert k == 0 ==> head + bytes[..k] == head;
  }

  lemma PartOfReply(x: Exchange, k: nat)
    requires WellScoped(x) && DelimitedReply(x) && k < |ReplyTo(x).bytes|
    ensures ReadResponse(ReplyTo(x).bytes[..k]) == Partial
  {
    if x.Interim? {
      ContinueReadsBack("");
      assert CONTINUE + "" == CONTINUE;
      PrefixIsPartial(CONTINUE, k);
    } else {
      PartOfDelimited(PlanOf(x.asked, x.app).value, k);
    }
  }

  lemma EarlierAndPart(before: seq<Exchange>, last: Exchange, k: nat, closed: bool)
    requires AllScoped(before) && AllHonest(before) && AllStay(before)
    requires WellScoped(last) && DelimitedReply(last) && k < |ReplyTo(last).bytes|
    ensures ReadAll(Ideal(before) + ReplyTo(last).bytes[..k], closed)
         == Transcript(AllDelivered(before), if k == 0 then Clean else CutShort)
  {
    var part := ReplyTo(last).bytes[..k];
    StayingRepliesReadBack(before, part, closed);
    if k > 0 { PartOfReply(last, k); }
    assert AllDelivered(before) + [] == AllDelivered(before);
  }

  /** While a delimited reply is under way, the client has the earlier messages and knows that
      the last one is not complete; so it does if the connection is lost at that point. */
  lemma UnfinishedIsSeen(ls: seq<Label>, closed: bool)
    requires Run(ls).Some? && Undisturbed(ls)
    requires Run(ls).value.phase.Replying? && Run(ls).value.phase.owed != ""
    requires Begun(ls) != [] && AllHonest(Begun(ls)[..|Begun(ls)| - 1]) && DelimitedReply(Begun(ls)[|Begun(ls)| - 1])
    ensures AllScoped(Begun(ls))
    ensures var before := Begun(ls)[..|Begun(ls)| - 1];
            ReadAll(Run(ls).value.wire, closed)
            == Transcript(AllDelivered(before), if Run(ls).value.wire == Ideal(before) then Clean else CutShort)
  {
    RunIsAccounted(ls);
    var s, xs := Run(ls).value, Begun(ls);
    var before, last := xs[..|xs| - 1], xs[|xs| - 1];
    var k := |ReplyTo(last).bytes| - |s.phase.owed|;
    SentPart(s, xs, k);
    EarlierAndPart(before, last, k, closed);
  }

  ghost predicate BreaksOff(x: Exchange) {
    x.Answered? && PlanOf(x.asked, x.app).Some? && VisiblyBroken(PlanOf(x.asked, x.app).value)
  }

  lemma EarlierAndBroken(before: seq<Exchange>, last: Exchange)
    requires AllScoped(before) && AllHonest(before) && AllStay(before) && WellScoped(last) && BreaksOff(last)
    ensures ReplyTo(last).ending == Abort
    ensures ReadAll(Ideal(before) + ReplyTo(last).bytes, true) == Transcript(AllDelivered(before), CutShort)
  {
    var bytes := PlanBytes(PlanOf(last.asked, last.app).value);
    VisiblyBrokenIsPartial(PlanOf(last.asked, last.app).value, |bytes|);
    assert bytes[..|bytes|] == bytes;
    ReplyNotEmpty(last);
    StayingRepliesReadBack(before, bytes, true);
    assert AllDelivered(before) + [] == AllDelivered(before);
  }

  lemma EndsWithAbort(xs: seq<Exchange>)
    requires AllScoped(xs) && xs != [] && BreaksOff(xs[|xs| - 1])
    ensures !AllStay(xs)
  {
    assert ReplyTo(xs[|xs| - 1]).ending == Abort;
  }

  /** If the iterator raises or yields something that is not bytes, the connection is closed
      and the client sees every earlier message and a last one cut short. */
  lemma TruncationIsVisible(ls: seq<Label>)
    requires Run(ls).Some? && Undisturbed(ls) && Run(ls).value.phase.Closed?
    requires Begun(ls) != [] && AllHonest(Begun(ls)[..|Begun(ls)| - 1])
    requires BreaksOff(Begun(ls)[|Begun(ls)| - 1])
    ensures AllScoped(Begun(ls))
    ensures ReadAll(Run(ls).value.wire, true) == Transcript(AllDelivered(Begun(ls)[..|Begun(ls)| - 1]), CutShort)
  {
    RunIsAccounted(ls);
    var xs := Begun(ls);
    EndsWithAbort(xs);
    EarlierAndBroken(xs[..|xs| - 1], xs[|xs| - 1]);
  }
}
