/** The request headers as http_parser's callbacks deliver them, piece by piece, and the
    environ entries they stand for. */
module HeaderLog {
  import opened Octets

  /** A header under delivery: `valued` once a value callback was made for it. */
  datatype Header = Header(name: string, value: string, valued: bool)

  // What the callbacks mean

  function Last(log: seq<Header>): Header
    requires log != []
  {
    log[|log| - 1]
  }

  /** A field callback starts a header behind a finished one, or lengthens the name of the last. */
  function AddField(log: seq<Header>, s: string): seq<Header> {
    if log == [] || Last(log).valued then log + [Header(s, "", false)]
    else log[..|log| - 1] + [Last(log).(name := Last(log).name + s)]
  }

  function AddValue(log: seq<Header>, s: string): seq<Header>
    requires log != []
  {
    log[..|log| - 1] + [Last(log).(value := Last(log).value + s, valued := true)]
  }

  // Keys

  const PREFIX := "HTTP_"

  function KeyChar(c: char): char {
    if c == '-' then '_' else if 'a' <= c <= 'z' then (c as int - ('a' as int - 'A' as int)) as char else c
  }

  function KeyChars(s: string): (r: string)
    ensures |r| == |s|
    ensures forall i :: 0 <= i < |s| ==> r[i] == KeyChar(s[i])
  {
    if s == "" then "" else [KeyChar(s[0])] + KeyChars(s[1..])
  }

  function Key(name: string): string { PREFIX + KeyChars(name) }

  predicate Usable(name: string) { '_' !in name }

  predicate IsHeaderKey(k: string) { |k| >= 5 && k[..5] == PREFIX }

  lemma KeyCharsAppend(a: string, b: string)
    ensures KeyChars(a + b) == KeyChars(a) + KeyChars(b)
  {
  }

  lemma KeyCharSound(a: char, b: char)
    requires a != '_' && b != '_'
    ensures KeyChar(a) == KeyChar(b) <==> Lower(a) == Lower(b)
  {
  }

  /** Two names without underscore share a key exactly when they differ in ASCII case only. */
  lemma KeySound(a: string, b: string)
    requires Usable(a) && Usable(b)
    ensures Key(a) == Key(b) <==> EqualIgnoringCase(a, b)
  {
    assert Key(a)[5..] == KeyChars(a) && Key(b)[5..] == KeyChars(b);
    forall i | 0 <= i < |a| && i < |b|
      ensures KeyChar(a[i]) == KeyChar(b[i]) <==> Lower(a[i]) == Lower(b[i])
    {
      assert a[i] in a && b[i] in b;
      KeyCharSound(a[i], b[i]);
    }
    if Key(a) == Key(b) {
      assert forall i :: 0 <= i < |a| ==> KeyChars(a)[i] == KeyChars(b)[i];
    }
    if EqualIgnoringCase(a, b) {
      assert KeyChars(a) == KeyChars(b);
    }
  }

  /** Said of the characters alone: '-' becomes '_', no small letter is left, and nothing else changes but case. */
  predicate Normalises(name: string, r: string) {
    |r| == |name| && forall i :: 0 <= i < |r| ==>
      !('a' <= r[i] <= 'z') && if name[i] == '-' then r[i] == '_' else Lower(r[i]) == Lower(name[i])
  }

  lemma KeyNormalises(name: string)
    ensures Normalises(name, KeyChars(name))
    ensures Key(name)[..5] == "HTTP_" && Key(name)[5..] == KeyChars(name)
  {
  }

  /** So it is the only such string. */
  lemma NormalisedOnce(name: string, r: string, s: string)
    requires Normalises(name, r) && Normalises(name, s)
    ensures r == s
  {
  }

  lemma KeyIsThis(name: string, k: string)
    requires Normalises(name, k)
    ensures Key(name) == PREFIX + k
  {
    KeyNormalises(name);
    NormalisedOnce(name, k, KeyChars(name));
  }

  lemma UsableIgnoringCase(a: string, b: string)
    requires EqualIgnoringCase(a, b) && Usable(b)
    ensures Usable(a)
  {
    forall i | 0 <= i < |a| ensures a[i] != '_' {
      assert Lower(a[i]) == Lower(b[i]) && b[i] in b;
    }
  }

  /** A name spelled in any case has the key of that name. */
  lemma KnownKey(name: string, known: string, k: string)
    requires Usable(known) && Normalises(known, k)
    ensures EqualIgnoringCase(name, known) <==> Usable(name) && Key(name) == PREFIX + k
  {
    KeyIsThis(known, k);
    if EqualIgnoringCase(name, known) { UsableIgnoringCase(name, known); }
    if Usable(name) { KeySound(name, known); }
  }

  // Entries

  predicate Contributes(h: Header) { h.valued && Usable(h.name) }

  function Old(m: map<string, string>, k: string): string { if k in m then m[k] else "" }

  /** The entries the log stands for: values of one key follow each other directly. */
  function Collect(log: seq<Header>): (m: map<string, string>)
    ensures forall k :: k in m ==> IsHeaderKey(k)
  {
    if log == [] then map[]
    else
      var m, h := Collect(log[..|log| - 1]), Last(log);
      if Contributes(h) then m[Key(h.name) := Old(m, Key(h.name)) + h.value] else m
  }

  /** All values for a key, in order. */
  function ValuesFor(log: seq<Header>, k: string): string {
    if log == [] then ""
    else
      ValuesFor(log[..|log| - 1], k)
      + (if Contributes(Last(log)) && Key(Last(log).name) == k then Last(log).value else "")
  }

  predicate IsNamed(h: Header, name: string) { h.valued && EqualIgnoringCase(h.name, name) }

  /** The values of all headers of that name, in any case, in order. */
  function ValuesNamed(log: seq<Header>, name: string): string {
    if log == [] then ""
    else ValuesNamed(log[..|log| - 1], name) + (if IsNamed(Last(log), name) then Last(log).value else "")
  }

  predicate HasNamed(log: seq<Header>, name: string) { exists i :: 0 <= i < |log| && IsNamed(log[i], name) }

  lemma NamedContributes(h: Header, name: string)
    requires Usable(name)
    ensures IsNamed(h, name) <==> Contributes(h) && Key(h.name) == Key(name)
  {
    if EqualIgnoringCase(h.name, name) { UsableIgnoringCase(h.name, name); }
    if Usable(h.name) { KeySound(h.name, name); }
  }

  lemma {:induction false} ValuesAreNamed(log: seq<Header>, name: string)
    requires Usable(name)
    ensures ValuesFor(log, Key(name)) == ValuesNamed(log, name)
  {
    if log != [] {
      ValuesAreNamed(log[..|log| - 1], name);
      NamedContributes(Last(log), name);
    }
  }

  /** A key is present exactly if some header contributes to it, with all their values in order. */
  lemma {:induction false} CollectIs(log: seq<Header>, k: string)
    ensures k in Collect(log) <==> exists i :: 0 <= i < |log| && Contributes(log[i]) && Key(log[i].name) == k
    ensures Old(Collect(log), k) == ValuesFor(log, k)
  {
    if log != [] {
      var before := log[..|log| - 1];
      CollectIs(before, k);
      assert forall i :: 0 <= i < |before| ==> before[i] == log[i];
      assert ValuesFor(before, k) + "" == ValuesFor(before, k);
      if k in Collect(log) && !(Contributes(Last(log)) && Key(Last(log).name) == k) {
        var i :| 0 <= i < |before| && Contributes(before[i]) && Key(before[i].name) == k;
        assert Contributes(log[i]);
      }
    }
  }

  /** Under the key of a name stand the values of all headers of that name, whatever case it was written in. */
  lemma CollectNamed(log: seq<Header>, name: string)
    requires Usable(name)
    ensures Key(name) in Collect(log) <==> HasNamed(log, name)
    ensures Key(name) in Collect(log) ==> Collect(log)[Key(name)] == ValuesNamed(log, name)
  {
    CollectIs(log, Key(name));
    ValuesAreNamed(log, name);
    forall i | 0 <= i < |log|
      ensures IsNamed(log[i], name) <==> Contributes(log[i]) && Key(log[i].name) == Key(name)
    {
      NamedContributes(log[i], name);
    }
  }

  lemma CollectAddField(log: seq<Header>, s: string)
    ensures Collect(AddField(log, s)) == Collect(log)
  {
    var after := AddField(log, s);
    if log == [] || Last(log).valued {
      assert after[..|after| - 1] == log;
    } else {
      assert after[..|after| - 1] == log[..|log| - 1];
    }
  }

  lemma CollectAddValue(log: seq<Header>, s: string)
    requires log != [] && (!Last(log).valued ==> Last(log).value == "")
    ensures var k := Key(Last(log).name);
            Collect(AddValue(log, s))
            == if Usable(Last(log).name) then Collect(log)[k := Old(Collect(log), k) + s] else Collect(log)
  {
    var after, h := AddValue(log, s), Last(log);
    var m, k := Collect(log[..|log| - 1]), Key(h.name);
    assert after[..|after| - 1] == log[..|log| - 1];
    if Usable(h.name) {
      Regrouped(Old(m, k), h.value, s);
      assert h.value == "" ==> h.value + s == s;
    }
  }

  // Fragmentation

  datatype Callback = FieldPart(s: string) | ValuePart(s: string)

  /** A header cut into at least one piece of name and one of value. */
  datatype Split = Split(names: seq<string>, values: seq<string>)

  predicate Deliverable(c: Split) { c.names != [] && c.values != [] }

  predicate AllDeliverable(cs: seq<Split>) { forall i :: 0 <= i < |cs| ==> Deliverable(cs[i]) }

  function Fields(parts: seq<string>): seq<Callback> {
    seq(|parts|, i requires 0 <= i < |parts| => FieldPart(parts[i]))
  }

  function Values(parts: seq<string>): seq<Callback> {
    seq(|parts|, i requires 0 <= i < |parts| => ValuePart(parts[i]))
  }

  function Stream(cs: seq<Split>): seq<Callback> {
    if cs == [] then []
    else Stream(cs[..|cs| - 1]) + Fields(cs[|cs| - 1].names) + Values(cs[|cs| - 1].values)
  }

  /** The log a callback stream leaves; a value before any field does not happen. */
  function LogOf(log: seq<Header>, cbs: seq<Callback>): seq<Header>
    decreases |cbs|
  {
    if cbs == [] then log
    else if cbs[0].FieldPart? then LogOf(AddField(log, cbs[0].s), cbs[1..])
    else if log == [] then []
    else LogOf(AddValue(log, cbs[0].s), cbs[1..])
  }

  function Uncut(cs: seq<Split>): seq<Header> {
    if cs == [] then []
    else Uncut(cs[..|cs| - 1]) + [Header(Flatten(cs[|cs| - 1].names), Flatten(cs[|cs| - 1].values), true)]
  }

  lemma {:induction false} LogOfAppend(log: seq<Header>, a: seq<Callback>, b: seq<Callback>)
    requires log != [] || a == [] || a[0].FieldPart?
    ensures LogOf(log, a + b) == LogOf(LogOf(log, a), b)
    decreases |a|
  {
    if a == [] {
      assert a + b == b;
    } else {
      assert (a + b)[1..] == a[1..] + b;
      LogOfAppend(if a[0].FieldPart? then AddField(log, a[0].s) else AddValue(log, a[0].s), a[1..], b);
    }
  }

  lemma {:induction false} MoreFields(log: seq<Header>, name: string, parts: seq<string>)
    ensures LogOf(log + [Header(name, "", false)], Fields(parts)) == log + [Header(name + Flatten(parts), "", false)]
    decreases |parts|
  {
    var open := log + [Header(name, "", false)];
    if parts == [] {
      assert name + "" == name;
    } else {
      assert Fields(parts)[1..] == Fields(parts[1..]);
      assert open[..|open| - 1] == log;
      MoreFields(log, name + parts[0], parts[1..]);
      Regrouped(name, parts[0], Flatten(parts[1..]));
    }
  }

  lemma {:induction false} MoreValues(log: seq<Header>, h: Header, parts: seq<string>)
    requires parts != []
    ensures LogOf(log + [h], Values(parts)) == log + [h.(value := h.value + Flatten(parts), valued := true)]
    decreases |parts|
  {
    var open := log + [h];
    var next := h.(value := h.value + parts[0], valued := true);
    assert Values(parts)[1..] == Values(parts[1..]);
    assert open[..|open| - 1] == log;
    assert AddValue(open, parts[0]) == log + [next];
    Regrouped(h.value, parts[0], Flatten(parts[1..]));
    if |parts| == 1 {
      assert h.value + parts[0] + "" == h.value + parts[0];
    } else {
      MoreValues(log, next, parts[1..]);
    }
  }

  lemma OneHeader(log: seq<Header>, c: Split)
    requires Deliverable(c) && (log == [] || Last(log).valued)
    ensures LogOf(log, Fields(c.names) + Values(c.values)) == log + [Header(Flatten(c.names), Flatten(c.values), true)]
  {
    LogOfAppend(log, Fields(c.names), Values(c.values));
    assert Fields(c.names)[1..] == Fields(c.names[1..]);
    assert AddField(log, c.names[0]) == log + [Header(c.names[0], "", false)];
    MoreFields(log, c.names[0], c.names[1..]);
    MoreValues(log, Header(Flatten(c.names), "", false), c.values);
    assert "" + Flatten(c.values) == Flatten(c.values);
  }

  /** However names and values are cut, the log holds the uncut headers. */
  lemma {:induction false} StreamLogsUncut(cs: seq<Split>)
    requires AllDeliverable(cs)
    ensures LogOf([], Stream(cs)) == Uncut(cs)
    ensures Uncut(cs) == [] || Last(Uncut(cs)).valued
    ensures Stream(cs) == [] || Stream(cs)[0].FieldPart?
  {
    if cs != [] {
      var before, c := cs[..|cs| - 1], cs[|cs| - 1];
      assert Deliverable(c);
      StreamLogsUncut(before);
      var log := Uncut(before);
      LogOfAppend([], Stream(before), Fields(c.names) + Values(c.values));
      assert Stream(cs) == Stream(before) + (Fields(c.names) + Values(c.values));
      OneHeader(log, c);
    }
  }

  /** Two ways to cut the same headers give the same entries. */
  lemma FragmentationIndependent(a: seq<Split>, b: seq<Split>)
    requires AllDeliverable(a) && AllDeliverable(b) && Uncut(a) == Uncut(b)
    ensures Collect(LogOf([], Stream(a))) == Collect(LogOf([], Stream(b)))
  {
    StreamLogsUncut(a);
    StreamLogsUncut(b);
  }

  /** Delivered in any pieces, a key holds the values of all headers normalising to it. */
  lemma EntriesOfStream(cs: seq<Split>, k: string)
    requires AllDeliverable(cs)
    ensures var m := Collect(LogOf([], Stream(cs)));
            && (k in m <==>
                  exists i :: 0 <= i < |Uncut(cs)| && Contributes(Uncut(cs)[i]) && Key(Uncut(cs)[i].name) == k)
            && (k in m ==> m[k] == ValuesFor(Uncut(cs), k))
  {
    StreamLogsUncut(cs);
    CollectIs(Uncut(cs), k);
  }
}
