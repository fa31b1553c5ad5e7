/** The start_response protocol of PEP 3333 as bjoern/wsgi.c keeps it: what a call must
    look like, how header lists are checked and copied, and what a history of calls leaves behind. */
module StartResponse {
  import opened Octets
  import opened MessageSyntax

  /** A Python object where a str is wanted. */
  datatype PyObject = Str(text: string) | NotStr

  datatype HeaderEntry = Pair(name: PyObject, value: PyObject) | NotPair

  datatype HeaderList = Entries(items: seq<HeaderEntry>) | NotList

  /** The third argument: absent (or None), a 3-tuple, or something else. */
  datatype ExcInfo = Absent | Triple | NotTriple

  datatype Call = Call(status: PyObject, headers: HeaderList, excInfo: ExcInfo) | WrongArity

  // Content-Length, recognised by strncasecmp(field, "Content-Length", len(field)) == 0

  const LENGTH_FIELD := "Content-Length"

  /** strncasecmp finds no difference in the first |field| octets of `field` and of the
      NUL-terminated `literal`. */
  predicate SameUpToLength(field: string, literal: string) {
    if field == "" then true
    else if literal == "" then field[0] == '\0'
    else Lower(field[0]) == Lower(literal[0]) && SameUpToLength(field[1..], literal[1..])
  }

  lemma EqualFromHead(a: string, b: string)
    requires a != "" && |a| == |b|
    ensures EqualIgnoringCase(a, b) <==> Lower(a[0]) == Lower(b[0]) && EqualIgnoringCase(a[1..], b[1..])
  {
    if EqualIgnoringCase(a[1..], b[1..]) && Lower(a[0]) == Lower(b[0]) {
      forall i | 0 <= i < |a| ensures Lower(a[i]) == Lower(b[i]) {
        if i > 0 { assert a[1..][i - 1] == a[i] && b[1..][i - 1] == b[i]; }
      }
    }
  }

  /** So every case-insensitive prefix counts, the empty name too, and so does a longer name
      whose octet behind the literal is NUL. */
  lemma {:induction false} SameUpToLengthIff(field: string, literal: string)
    ensures SameUpToLength(field, literal)
      <==> if |field| <= |literal| then EqualIgnoringCase(field, literal[..|field|])
           else EqualIgnoringCase(field[..|literal|], literal) && field[|literal|] == '\0'
  {
    if field != "" && literal != "" {
      SameUpToLengthIff(field[1..], literal[1..]);
      var a, b := field, literal;
      if |a| <= |b| {
        assert b[..|a|][1..] == b[1..][..|a[1..]|];
        EqualFromHead(a, b[..|a|]);
      } else {
        assert a[..|b|][1..] == a[1..][..|b[1..]|];
        EqualFromHead(a[..|b|], b);
        assert a[1..][|b[1..]|] == a[|b|];
      }
    }
  }

  predicate CountsAsLength(name: string) { SameUpToLength(name, LENGTH_FIELD) }

  predicate IsContentLength(name: string) { EqualIgnoringCase(name, LENGTH_FIELD) }

  lemma ContentLengthCounts(name: string)
    requires IsContentLength(name)
    ensures CountsAsLength(name)
  {
    SameUpToLengthIff(name, LENGTH_FIELD);
    assert LENGTH_FIELD[..|name|] == LENGTH_FIELD;
  }

  predicate LengthFound(headers: seq<Field>) {
    exists i :: 0 <= i < |headers| && CountsAsLength(headers[i].name)
  }

  // clean_headers

  /** PyUnicode_AsLatin1String. */
  function Latin1(o: PyObject): Option<string> {
    if o.Str? && forall c :: c in o.text ==> c as int < 256 then Some(o.text) else None
  }

  function CleanEntry(e: HeaderEntry): Option<Field> {
    if e.Pair? && Latin1(e.name).Some? && Latin1(e.value).Some?
    then Some(Field(Latin1(e.name).value, Latin1(e.value).value)) else None
  }

  predicate Clean(h: HeaderList) {
    h.Entries? && forall i :: 0 <= i < |h.items| ==> CleanEntry(h.items[i]).Some?
  }

  function Cleaned(h: HeaderList): seq<Field>
    requires Clean(h)
  {
    seq(|h.items|, i requires 0 <= i < |h.items| => CleanEntry(h.items[i]).value)
  }

  /** The source's two passes: first every entry must be a pair, then every half a Latin-1 str. */
  method CleanHeaders(h: HeaderList) returns (fields: Option<seq<Field>>, found: bool)
    ensures fields.Some? <==> Clean(h)
    ensures fields.Some? ==> fields.value == Cleaned(h) && (found <==> LengthFound(fields.value))
  {
    found := false;
    if h.NotList? {
      return None, found;
    }
    var i := 0;
    while i < |h.items|
      invariant 0 <= i <= |h.items|
      invariant forall k :: 0 <= k < i ==> h.items[k].Pair?
    {
      if h.items[i].NotPair? {
        assert CleanEntry(h.items[i]) == None;
        return None, found;
      }
      i := i + 1;
    }
    var copy: seq<Field> := [];
    i := 0;
    while i < |h.items|
      invariant 0 <= i <= |h.items| && |copy| == i
      invariant forall k :: 0 <= k < |h.items| ==> h.items[k].Pair?
      invariant forall k :: 0 <= k < i ==> CleanEntry(h.items[k]) == Some(copy[k])
      invariant found <==> exists k :: 0 <= k < i && CountsAsLength(copy[k].name)
    {
      var name, value := Latin1(h.items[i].name), Latin1(h.items[i].value);
      if name == None || value == None {
        assert CleanEntry(h.items[i]) == None;
        return None, found;
      }
      copy := copy + [Field(name.value, value.value)];
      if CountsAsLength(name.value) {
        assert CountsAsLength(copy[i].name);
        found := true;
      }
      i := i + 1;
    }
    assert copy == Cleaned(h);
    return Some(copy), found;
  }

  // What a history of calls leaves behind

  /** The arguments alone are in order. */
  predicate WellFormed(c: Call) {
    c.Call? && c.excInfo != NotTriple && Latin1(c.status).Some? && |Latin1(c.status).value| >= 3 && Clean(c.headers)
  }

  predicate EverAccepted(calls: seq<Call>) {
    exists i :: 0 <= i < |calls| && WellFormed(calls[i])
  }

  /** The last call of the history succeeded: it was well formed, and it was the first
      well-formed one or came with exception information. */
  predicate LastAccepted(calls: seq<Call>) {
    calls != [] && WellFormed(calls[|calls| - 1])
    && (calls[|calls| - 1].excInfo.Triple? || !EverAccepted(calls[..|calls| - 1]))
  }

  datatype Started = Started(status: string, headers: seq<Field>)

  /** The response that is on record: a failed call wipes out whatever was there before. */
  function OnRecord(calls: seq<Call>): (r: Option<Started>)
    ensures r.Some? ==> |r.value.status| >= 3
  {
    if LastAccepted(calls) then
      var c := calls[|calls| - 1];
      Some(Started(Latin1(c.status).value, Cleaned(c.headers)))
    else None
  }

  predicate LengthUnknown(calls: seq<Call>) {
    OnRecord(calls) == None || !LengthFound(OnRecord(calls).value.headers)
  }

  lemma EverAcceptedSnoc(calls: seq<Call>, c: Call)
    ensures EverAccepted(calls + [c]) <==> EverAccepted(calls) || WellFormed(c)
  {
    var all := calls + [c];
    if EverAccepted(calls) {
      var i :| 0 <= i < |calls| && WellFormed(calls[i]);
      assert WellFormed(all[i]);
    }
    if WellFormed(c) { assert WellFormed(all[|calls|]); }
    assert forall i :: 0 <= i < |calls| ==> all[i] == calls[i];
  }

  lemma LastAcceptedSnoc(calls: seq<Call>, c: Call)
    ensures LastAccepted(calls + [c]) <==> WellFormed(c) && (c.excInfo.Triple? || !EverAccepted(calls))
  {
    assert (calls + [c])[..|calls|] == calls;
  }

  /** Call number `i` of the history succeeded. */
  predicate AcceptedAt(calls: seq<Call>, i: nat)
    requires i < |calls|
  {
    LastAccepted(calls[..i + 1])
  }

  lemma {:induction false} FirstWellFormed(calls: seq<Call>)
    requires EverAccepted(calls)
    ensures exists i :: 0 <= i < |calls| && AcceptedAt(calls, i)
  {
    var before := calls[..|calls| - 1];
    if EverAccepted(before) {
      FirstWellFormed(before);
      var i :| 0 <= i < |before| && AcceptedAt(before, i);
      assert before[..i + 1] == calls[..i + 1];
      assert AcceptedAt(calls, i);
    } else {
      var i :| 0 <= i < |calls| && WellFormed(calls[i]);
      assert forall k :: 0 <= k < |before| ==> before[k] == calls[k];
      assert i == |calls| - 1;
      assert calls[..i + 1] == calls;
      assert AcceptedAt(calls, i);
    }
  }

  lemma {:induction false} AcceptedIsEver(calls: seq<Call>, i: nat)
    requires i < |calls| && AcceptedAt(calls, i)
    ensures EverAccepted(calls)
  {
    assert calls[..i + 1][i] == calls[i];
  }

  predicate OctetText(o: PyObject) { o.Str? && forall c :: c in o.text ==> c as int < 256 }

  /** PEP 3333: a status of three digits at least and a list of pairs, all of it octets; the third argument is
      exception information or nothing. */
  predicate ArgumentsGood(c: Call) {
    && c.Call? && OctetText(c.status) && |c.status.text| >= 3 && c.headers.Entries? && !c.excInfo.NotTriple?
    && forall i :: 0 <= i < |c.headers.items| ==>
         var e := c.headers.items[i];
         e.Pair? && OctetText(e.name) && OctetText(e.value)
  }

  predicate SameHeaders(fs: seq<Field>, es: seq<HeaderEntry>) {
    |fs| == |es| && forall i :: 0 <= i < |fs| ==> es[i] == Pair(Str(fs[i].name), Str(fs[i].value))
  }

  lemma GoodIsWellFormed(c: Call)
    ensures ArgumentsGood(c) <==> WellFormed(c)
    ensures WellFormed(c) ==> SameHeaders(Cleaned(c.headers), c.headers.items)
  {
    if c.Call? && c.headers.Entries? {
      var es := c.headers.items;
      assert forall i :: 0 <= i < |es| ==>
        (CleanEntry(es[i]).Some? <==> es[i].Pair? && OctetText(es[i].name) && OctetText(es[i].value));
    }
  }

  /** A call succeeds exactly if its arguments are in order and it brings exception information or no call
      before it succeeded. Then its response is on record; any other call leaves none. */
  lemma SucceedsIff(calls: seq<Call>, c: Call)
    ensures OnRecord(calls + [c]).Some?
       <==> ArgumentsGood(c) && (c.excInfo.Triple? || forall i :: 0 <= i < |calls| ==> !AcceptedAt(calls, i))
    ensures OnRecord(calls + [c]).Some? ==>
              var s := OnRecord(calls + [c]).value;
              Str(s.status) == c.status && SameHeaders(s.headers, c.headers.items)
  {
    GoodIsWellFormed(c);
    LastAcceptedSnoc(calls, c);
    if EverAccepted(calls) {
      FirstWellFormed(calls);
    } else if i :| 0 <= i < |calls| && AcceptedAt(calls, i) {
      AcceptedIsEver(calls, i);
    }
  }

  /** A first success needs nothing but good arguments: failed calls before it do no harm. */
  lemma FailuresDoNotCount(calls: seq<Call>, c: Call)
    requires WellFormed(c) && forall i :: 0 <= i < |calls| ==> !AcceptedAt(calls, i)
    ensures OnRecord(calls + [c]) == Some(Started(Latin1(c.status).value, Cleaned(c.headers)))
  {
    if EverAccepted(calls) {
      FirstWellFormed(calls);
    }
    LastAcceptedSnoc(calls, c);
  }
}
