/** bjoern/request.c: the parser callbacks that fill the WSGI environ of one request. */
module Environ {
  import opened Octets
  import opened HeaderLog
  import opened PercentDecoding

  /** A dictionary value: a str, the body stream with its read position, or an object of wsgi_base_dict. */
  datatype Value = Text(s: string) | Stream(bytes: string, position: nat) | Given(what: string)

  type Dict = map<string, Value>

  const PATH_INFO := "PATH_INFO"
  const QUERY_STRING := "QUERY_STRING"
  const WSGI_INPUT := "wsgi.input"
  const CONTENT_LENGTH := "CONTENT_LENGTH"
  const CONTENT_TYPE := "CONTENT_TYPE"
  const SERVER_PROTOCOL := "SERVER_PROTOCOL"
  const REQUEST_METHOD := "REQUEST_METHOD"
  const REMOTE_ADDR := "REMOTE_ADDR"
  const HTTP_CONTENT_LENGTH := "HTTP_CONTENT_LENGTH"
  const HTTP_CONTENT_TYPE := "HTTP_CONTENT_TYPE"
  const HTTP_EXPECT := "HTTP_EXPECT"

  const HTTP_LENGTH_REQUIRED := 2
  const HTTP_EXPECTATION_FAILED := 3

  /** The keys of wsgi_base_dict. */
  const BASE_KEYS := {
    "wsgi.file_wrapper", "SCRIPT_NAME", "wsgi.version", "wsgi.input_terminated", "wsgi.url_scheme",
    "wsgi.errors", "wsgi.multithread", "wsgi.multiprocess", "wsgi.run_once", "SERVER_NAME", "SERVER_PORT"}

  /** Keys that parser callbacks other than those for headers write. */
  const OWN_KEYS := {PATH_INFO, QUERY_STRING, WSGI_INPUT, SERVER_PROTOCOL, REQUEST_METHOD, REMOTE_ADDR}

  const UNPREFIXED := {CONTENT_LENGTH, CONTENT_TYPE}

  lemma BaseKeyShape(k: string)
    requires k in BASE_KEYS
    ensures k != "" && (k[0] == 'w' || k[0] == 'S') && |k| != 10 && (k[0] == 'S' ==> |k| == 11)
  {
  }

  lemma OwnKeyShape(k: string)
    requires k in OWN_KEYS
    ensures k != "" && k[0] != 'H' && k[0] != 'C' && (k[0] == 'w' ==> |k| == 10) && (k[0] == 'S' ==> |k| == 15)
  {
  }

  lemma HeaderKeyShape(k: string)
    requires IsHeaderKey(k)
    ensures k[0] == 'H'
  {
    assert k[..5][0] == 'H';
  }

  /** A header cannot touch what the server sets, nor the other way round. */
  lemma KeysApart(k: string)
    ensures IsHeaderKey(k) ==> k !in OWN_KEYS && k !in UNPREFIXED && k !in BASE_KEYS
    ensures !(k in OWN_KEYS && k in UNPREFIXED) && !(k in UNPREFIXED && k in BASE_KEYS)
    ensures !(k in OWN_KEYS && k in BASE_KEYS)
  {
    if IsHeaderKey(k) { HeaderKeyShape(k); }
    if k in BASE_KEYS { BaseKeyShape(k); }
    if k in OWN_KEYS { OwnKeyShape(k); }
    assert k in UNPREFIXED ==> k[0] == 'C';
  }

  lemma PrefixedKeys()
    ensures IsHeaderKey(HTTP_CONTENT_LENGTH) && IsHeaderKey(HTTP_CONTENT_TYPE)
    ensures HTTP_CONTENT_LENGTH != HTTP_CONTENT_TYPE
  {
    assert HTTP_CONTENT_LENGTH[..5] == PREFIX && HTTP_CONTENT_TYPE[..5] == PREFIX;
  }

  // The dictionary the callbacks seen so far stand for

  /** A key that may have a value. */
  datatype Slot = Slot(key: string, value: Option<Value>)
  {
    function Entry(): Dict { if value.Some? then map[key := value.value] else map[] }

    function Set(v: Value): Slot { Slot(key, Some(v)) }
  }

  function Layered(m: Dict, a: Slot, b: Slot, c: Slot): Dict { m + a.Entry() + b.Entry() + c.Entry() }

  function TextEntries(m: map<string, string>): Dict { map k | k in m :: Text(m[k]) }

  /** Everything delivered so far: headers, accepted path pieces, query string, body. */
  datatype Delivered = Delivered(log: seq<Header>, pieces: seq<string>, query: Option<string>, body: Option<string>)
  {
    function PathEntry(): Option<Value> {
      if pieces == [] || Decode(Flatten(pieces)) == None then None else Some(Text(Decode(Flatten(pieces)).value))
    }

    function QueryEntry(): Option<Value> {
      if query == None then None else Some(Text(query.value))
    }

    function BodyEntry(): Option<Value> {
      if body == None then None else Some(Stream(body.value, |body.value|))
    }

    /** The environ before completion. */
    function Image(): Dict {
      Layered(TextEntries(Collect(log)), Slot(PATH_INFO, PathEntry()), Slot(QUERY_STRING, QueryEntry()),
              Slot(WSGI_INPUT, BodyEntry()))
    }
  }

  const NOTHING := Delivered([], [], None, None)

  lemma LayeredSetFirst(m: Dict, a: Slot, b: Slot, c: Slot, v: Value)
    requires a.key != b.key && a.key != c.key
    ensures Layered(m, a.Set(v), b, c) == Layered(m, a, b, c)[a.key := v]
  {
  }

  lemma LayeredSetSecond(m: Dict, a: Slot, b: Slot, c: Slot, v: Value)
    requires b.key != c.key
    ensures Layered(m, a, b.Set(v), c) == Layered(m, a, b, c)[b.key := v]
  {
  }

  lemma LayeredSetThird(m: Dict, a: Slot, b: Slot, c: Slot, v: Value)
    ensures Layered(m, a, b, c.Set(v)) == Layered(m, a, b, c)[c.key := v]
  {
  }

  lemma UpdateBelow(m: Dict, e: Dict, k: string, v: Value)
    requires k !in e
    ensures m[k := v] + e == (m + e)[k := v]
  {
  }

  lemma LayeredSetBase(m: Dict, a: Slot, b: Slot, c: Slot, k: string, v: Value)
    requires k != a.key && k != b.key && k != c.key
    ensures Layered(m[k := v], a, b, c) == Layered(m, a, b, c)[k := v]
  {
    UpdateBelow(m, a.Entry(), k, v);
    UpdateBelow(m + a.Entry(), b.Entry(), k, v);
    UpdateBelow(m + a.Entry() + b.Entry(), c.Entry(), k, v);
  }

  lemma LayeredAt(m: Dict, a: Slot, b: Slot, c: Slot, k: string)
    requires a.key != b.key && a.key != c.key && b.key != c.key
    requires a.key !in m && b.key !in m && c.key !in m
    ensures var d := Layered(m, a, b, c);
            var v := if k == a.key then a.value else if k == b.key then b.value else if k == c.key then c.value
                     else if k in m then Some(m[k]) else None;
            (k in d <==> v.Some?) && (k in d ==> d[k] == v.value)
  {
  }

  lemma ImageKeys()
    ensures PATH_INFO != QUERY_STRING && PATH_INFO != WSGI_INPUT && QUERY_STRING != WSGI_INPUT
    ensures PATH_INFO[0] != 'H' && QUERY_STRING[0] != 'H' && WSGI_INPUT[0] != 'H'
  {
    assert PATH_INFO[0] == 'P' && QUERY_STRING[0] == 'Q' && WSGI_INPUT[0] == 'w';
  }

  lemma NotHeaderKeys()
    ensures !IsHeaderKey(PATH_INFO) && !IsHeaderKey(QUERY_STRING) && !IsHeaderKey(WSGI_INPUT)
  {
    KeysApart(PATH_INFO);
    KeysApart(QUERY_STRING);
    KeysApart(WSGI_INPUT);
  }

  /** What is found under a key: every key belongs to one part only. */
  function Lookup(got: Delivered, k: string): Option<Value> {
    if k == PATH_INFO then got.PathEntry()
    else if k == QUERY_STRING then got.QueryEntry()
    else if k == WSGI_INPUT then got.BodyEntry()
    else if k in Collect(got.log) then Some(Text(Collect(got.log)[k]))
    else None
  }

  lemma ImageAt(got: Delivered, k: string)
    ensures k in got.Image() <==> Lookup(got, k).Some?
    ensures k in got.Image() ==> got.Image()[k] == Lookup(got, k).value
  {
    ImageKeys();
    NotHeaderKeys();
    LayeredAt(TextEntries(Collect(got.log)), Slot(PATH_INFO, got.PathEntry()), Slot(QUERY_STRING, got.QueryEntry()),
              Slot(WSGI_INPUT, got.BodyEntry()), k);
  }

  lemma ImageAtHeader(got: Delivered, k: string)
    requires IsHeaderKey(k)
    ensures k in got.Image() <==> k in Collect(got.log)
    ensures k in got.Image() ==> got.Image()[k] == Text(Collect(got.log)[k])
  {
    NotHeaderKeys();
    ImageAt(got, k);
  }

  predicate PiecesGood(pieces: seq<string>) {
    forall j :: 0 <= j < |pieces| ==> pieces[j] != "" && WellFormed(pieces[j])
  }

  predicate LogGood(log: seq<Header>) { log != [] && !Last(log).valued ==> Last(log).value == "" }

  lemma KeyIsHeaderKey(name: string)
    ensures IsHeaderKey(Key(name))
  {
    assert Key(name)[..5] == PREFIX;
  }

  lemma PathGrows(pieces: seq<string>, piece: string)
    requires PiecesGood(pieces) && WellFormed(piece)
    ensures Decode(Flatten(pieces)).Some? && Decode(piece).Some?
    ensures Decode(Flatten(pieces + [piece])) == Some(Decode(Flatten(pieces)).value + Decode(piece).value)
  {
    assert AllWellFormed(pieces);
    WellFormedPieces(pieces);
    DecodesIffWellFormed(Flatten(pieces));
    DecodesIffWellFormed(piece);
    FlattenSnoc(pieces, piece);
    DecodeConcat(Flatten(pieces), piece);
  }

  lemma ImageSetPath(got: Delivered, piece: string)
    requires PiecesGood(got.pieces) && WellFormed(piece)
    ensures Decode(piece).Some?
    ensures var before := if got.PathEntry().Some? then got.PathEntry().value.s else "";
            got.(pieces := got.pieces + [piece]).Image() == got.Image()[PATH_INFO := Text(before + Decode(piece).value)]
  {
    ImageKeys();
    PathGrows(got.pieces, piece);
    var v := Text(Decode(Flatten(got.pieces)).value + Decode(piece).value);
    LayeredSetFirst(
      TextEntries(Collect(got.log)), Slot(PATH_INFO, got.PathEntry()), Slot(QUERY_STRING, got.QueryEntry()),
      Slot(WSGI_INPUT, got.BodyEntry()), v);
  }

  lemma ImageSetQuery(got: Delivered, q: string)
    ensures got.(query := Some(q)).Image() == got.Image()[QUERY_STRING := Text(q)]
  {
    ImageKeys();
    LayeredSetSecond(
      TextEntries(Collect(got.log)), Slot(PATH_INFO, got.PathEntry()), Slot(QUERY_STRING, got.QueryEntry()),
      Slot(WSGI_INPUT, got.BodyEntry()), Text(q));
  }

  lemma ImageSetBody(got: Delivered, bytes: string)
    ensures got.(body := Some(bytes)).Image() == got.Image()[WSGI_INPUT := Stream(bytes, |bytes|)]
  {
    LayeredSetThird(
      TextEntries(Collect(got.log)), Slot(PATH_INFO, got.PathEntry()), Slot(QUERY_STRING, got.QueryEntry()),
      Slot(WSGI_INPUT, got.BodyEntry()), Stream(bytes, |bytes|));
  }

  lemma ImageAddField(got: Delivered, s: string)
    ensures got.(log := AddField(got.log, s)).Image() == got.Image()
  {
    CollectAddField(got.log, s);
  }

  lemma ImageAddValue(got: Delivered, s: string)
    requires LogGood(got.log) && got.log != []
    ensures var k := Key(Last(got.log).name);
            got.(log := AddValue(got.log, s)).Image()
            == if Usable(Last(got.log).name) then got.Image()[k := Text(Old(Collect(got.log), k) + s)] else got.Image()
  {
    var k := Key(Last(got.log).name);
    CollectAddValue(got.log, s);
    if Usable(Last(got.log).name) {
      var m, v := TextEntries(Collect(got.log)), Text(Old(Collect(got.log), k) + s);
      assert TextEntries(Collect(AddValue(got.log, s))) == m[k := v];
      KeyIsHeaderKey(Last(got.log).name);
      NotHeaderKeys();
      LayeredSetBase(m, Slot(PATH_INFO, got.PathEntry()), Slot(QUERY_STRING, got.QueryEntry()),
                     Slot(WSGI_INPUT, got.BodyEntry()), k, v);
    }
  }

  lemma EscapesLeaveSomething(s: string)
    requires WellFormed(s) && s != ""
    ensures Decode(s).Some? && Decode(s).value != ""
  {
    DecodesIffWellFormed(s);
  }

  // The parser's memory of the header under delivery

  predicate FieldKept(log: seq<Header>, field: string, lastWasValue: bool, invalid: bool) {
    && (lastWasValue <==> log == [] || Last(log).valued)
    && (field != "" <==> log != [])
    && (log != [] ==> (invalid <==> !Usable(Last(log).name)) && (!invalid ==> field == Key(Last(log).name)))
  }

  lemma FieldIsNormal(log: seq<Header>, field: string, lastWasValue: bool, invalid: bool)
    requires log != [] && FieldKept(log, field, lastWasValue, invalid)
    ensures invalid <==> '_' in Last(log).name
    ensures !invalid ==> IsHeaderKey(field) && Normalises(Last(log).name, field[5..])
  {
    KeyNormalises(Last(log).name);
  }

  /** The name that the next field piece lengthens. */
  function OpenName(log: seq<Header>): string {
    if log == [] || Last(log).valued then "" else Last(log).name
  }

  lemma FieldAdded(log: seq<Header>, s: string)
    requires LogGood(log)
    ensures LogGood(AddField(log, s)) && AddField(log, s) != []
    ensures var h := Last(AddField(log, s));
            && !h.valued && h.name == OpenName(log) + s
            && (Usable(h.name) <==> Usable(OpenName(log)) && Usable(s))
            && Key(h.name) == Key(OpenName(log)) + KeyChars(s)
  {
    var name := OpenName(log);
    KeyCharsAppend(name, s);
    Regrouped(PREFIX, KeyChars(name), KeyChars(s));
    assert "" + s == s;
  }

  // Completion

  /** PyDict_ReplaceKey. */
  function Replaced(d: Dict, before: string, after: string): Dict {
    if before in d then (d - {before})[after := d[before]] else d
  }

  lemma ReplacedAt(d: Dict, a: string, b: string, k: string)
    requires a != b && b !in d
    ensures k != a && k != b ==> (k in Replaced(d, a, b) <==> k in d) && (k in d ==> Replaced(d, a, b)[k] == d[k])
    ensures a !in Replaced(d, a, b)
    ensures b in Replaced(d, a, b) <==> a in d
    ensures a in d ==> Replaced(d, a, b)[b] == d[a]
  {
  }

  datatype Setting = Setting(key: string, value: Value)

  /** Four entries set one after the other. */
  function SetAll(d: Dict, a: Setting, b: Setting, c: Setting, e: Setting): Dict {
    d[a.key := a.value][b.key := b.value][c.key := c.value][e.key := e.value]
  }

  lemma SealedAt(d: Dict, a: Setting, b: Setting, c: Setting, e: Setting, base: Dict, k: string)
    requires a.key != b.key && a.key != c.key && a.key != e.key && b.key != c.key && b.key != e.key && c.key != e.key
    requires a.key !in base && b.key !in base && c.key !in base && e.key !in base
    ensures var m := SetAll(d, a, b, c, e) + base;
            && a.key in m && m[a.key] == a.value && b.key in m && m[b.key] == b.value
            && c.key in m && m[c.key] == c.value && e.key in m && m[e.key] == e.value
            && (k in base ==> k in m && m[k] == base[k])
            && (k != a.key && k != b.key && k != c.key && k != e.key && k !in base
                ==> (k in m <==> k in d) && (k in d ==> m[k] == d[k]))
  {
  }

  /** The request line and the peer, as on_message_complete finds them. */
  datatype RequestLine = RequestLine(httpMinor: nat, verb: string, clientAddr: string)

  function Protocol(line: RequestLine): string { if line.httpMinor == 1 then "HTTP/1.1" else "HTTP/1.0" }

  function Rewound(got: Delivered): Value { Stream(if got.body.Some? then got.body.value else "", 0) }

  /** HTTP_CONTENT_{LENGTH,TYPE} become CONTENT_{LENGTH,TYPE}. */
  function Moved(d: Dict): Dict {
    Replaced(Replaced(d, HTTP_CONTENT_LENGTH, CONTENT_LENGTH), HTTP_CONTENT_TYPE, CONTENT_TYPE)
  }

  function Entries(d: Dict, line: RequestLine, input: Value): Dict {
    SetAll(d, Setting(SERVER_PROTOCOL, Text(Protocol(line))), Setting(REQUEST_METHOD, Text(line.verb)),
           Setting(REMOTE_ADDR, Text(line.clientAddr)), Setting(WSGI_INPUT, input))
  }

  function Completed(got: Delivered, line: RequestLine, base: Dict): Dict {
    Entries(Moved(got.Image()), line, Rewound(got)) + base
  }

  lemma SealKeys()
    ensures SERVER_PROTOCOL != REQUEST_METHOD && SERVER_PROTOCOL != REMOTE_ADDR && SERVER_PROTOCOL != WSGI_INPUT
    ensures REQUEST_METHOD != REMOTE_ADDR && REQUEST_METHOD != WSGI_INPUT && REMOTE_ADDR != WSGI_INPUT
  {
    assert SERVER_PROTOCOL[0] == 'S' && WSGI_INPUT[0] == 'w' && REQUEST_METHOD[2] == 'Q' && REMOTE_ADDR[2] == 'M';
  }

  lemma MovedKeys()
    ensures CONTENT_LENGTH != CONTENT_TYPE && HTTP_CONTENT_LENGTH != HTTP_CONTENT_TYPE
    ensures !IsHeaderKey(CONTENT_LENGTH) && !IsHeaderKey(CONTENT_TYPE)
    ensures IsHeaderKey(HTTP_CONTENT_LENGTH) && IsHeaderKey(HTTP_CONTENT_TYPE)
  {
    PrefixedKeys();
    KeysApart(CONTENT_LENGTH);
    KeysApart(CONTENT_TYPE);
    assert |CONTENT_LENGTH| == 14 && |CONTENT_TYPE| == 12;
  }

  lemma UnprefixedNotInImage(got: Delivered)
    ensures CONTENT_LENGTH !in got.Image() && CONTENT_TYPE !in got.Image()
  {
    MovedKeys();
    KeysApart(CONTENT_LENGTH);
    KeysApart(CONTENT_TYPE);
    assert PATH_INFO in OWN_KEYS && QUERY_STRING in OWN_KEYS && WSGI_INPUT in OWN_KEYS;
    assert CONTENT_LENGTH in UNPREFIXED && CONTENT_TYPE in UNPREFIXED;
    ImageAt(got, CONTENT_LENGTH);
    ImageAt(got, CONTENT_TYPE);
  }

  /** Both replacements together: only the two content headers lose their prefix. */
  lemma TwiceReplacedAt(got: Delivered, k: string)
    ensures var d := got.Image();
            var e := Moved(d);
            && HTTP_CONTENT_LENGTH !in e && HTTP_CONTENT_TYPE !in e
            && (CONTENT_LENGTH in e <==> HTTP_CONTENT_LENGTH in d)
            && (CONTENT_LENGTH in e ==> e[CONTENT_LENGTH] == d[HTTP_CONTENT_LENGTH])
            && (CONTENT_TYPE in e <==> HTTP_CONTENT_TYPE in d)
            && (CONTENT_TYPE in e ==> e[CONTENT_TYPE] == d[HTTP_CONTENT_TYPE])
            && (k != HTTP_CONTENT_LENGTH && k != HTTP_CONTENT_TYPE && k != CONTENT_LENGTH && k != CONTENT_TYPE
                ==> (k in e <==> k in d) && (k in d ==> e[k] == d[k]))
  {
    MovedKeys();
    UnprefixedNotInImage(got);
    var d := got.Image();
    var m := Replaced(d, HTTP_CONTENT_LENGTH, CONTENT_LENGTH);
    ReplacedAt(d, HTTP_CONTENT_LENGTH, CONTENT_LENGTH, k);
    ReplacedAt(d, HTTP_CONTENT_LENGTH, CONTENT_LENGTH, CONTENT_TYPE);
    ReplacedAt(d, HTTP_CONTENT_LENGTH, CONTENT_LENGTH, HTTP_CONTENT_TYPE);
    ReplacedAt(m, HTTP_CONTENT_TYPE, CONTENT_TYPE, k);
    ReplacedAt(m, HTTP_CONTENT_TYPE, CONTENT_TYPE, CONTENT_LENGTH);
    ReplacedAt(m, HTTP_CONTENT_TYPE, CONTENT_TYPE, HTTP_CONTENT_LENGTH);
  }

  predicate IsBase(base: Dict) { base.Keys == BASE_KEYS }

  lemma SealedCompleted(got: Delivered, line: RequestLine, base: Dict, k: string)
    requires IsBase(base)
    ensures var e := Completed(got, line, base);
            var d := Moved(got.Image());
            && SERVER_PROTOCOL in e && e[SERVER_PROTOCOL] == Text(Protocol(line))
            && REQUEST_METHOD in e && e[REQUEST_METHOD] == Text(line.verb)
            && REMOTE_ADDR in e && e[REMOTE_ADDR] == Text(line.clientAddr)
            && WSGI_INPUT in e && e[WSGI_INPUT] == Rewound(got)
            && (k in base ==> k in e && e[k] == base[k])
            && (k != SERVER_PROTOCOL && k != REQUEST_METHOD && k != REMOTE_ADDR && k != WSGI_INPUT && k !in base
                ==> (k in e <==> k in d) && (k in d ==> e[k] == d[k]))
  {
    SealKeys();
    KeysApart(SERVER_PROTOCOL);
    KeysApart(REQUEST_METHOD);
    KeysApart(REMOTE_ADDR);
    KeysApart(WSGI_INPUT);
    assert forall j :: j in OWN_KEYS ==> j in {PATH_INFO, QUERY_STRING, WSGI_INPUT, SERVER_PROTOCOL, REQUEST_METHOD,
      REMOTE_ADDR};
    SealedAt(Moved(got.Image()),
             Setting(SERVER_PROTOCOL, Text(Protocol(line))), Setting(REQUEST_METHOD, Text(line.verb)),
             Setting(REMOTE_ADDR, Text(line.clientAddr)), Setting(WSGI_INPUT, Rewound(got)), base, k);
  }

  /** What the application finds under a header key: the collected value, unless it is one of
      the two content headers; nothing the server sets gets in the way. */
  lemma CompletedHeader(got: Delivered, line: RequestLine, base: Dict, k: string)
    requires IsBase(base) && IsHeaderKey(k)
    ensures var e := Completed(got, line, base);
            && (k in e <==> k in Collect(got.log) && k != HTTP_CONTENT_LENGTH && k != HTTP_CONTENT_TYPE)
            && (k in e ==> e[k] == Text(Collect(got.log)[k]))
  {
    KeysApart(k);
    MovedKeys();
    TwiceReplacedAt(got, k);
    SealedCompleted(got, line, base, k);
    ImageAtHeader(got, k);
  }

  lemma SealedLeavesContent(got: Delivered, line: RequestLine, base: Dict)
    requires IsBase(base)
    ensures var e := Completed(got, line, base);
            var d := Moved(got.Image());
            && (CONTENT_LENGTH in e <==> CONTENT_LENGTH in d)
            && (CONTENT_LENGTH in d ==> e[CONTENT_LENGTH] == d[CONTENT_LENGTH])
            && (CONTENT_TYPE in e <==> CONTENT_TYPE in d) && (CONTENT_TYPE in d ==> e[CONTENT_TYPE] == d[CONTENT_TYPE])
            && WSGI_INPUT in e && e[WSGI_INPUT] == Rewound(got)
  {
    KeysApart(CONTENT_LENGTH);
    KeysApart(CONTENT_TYPE);
    assert CONTENT_LENGTH in UNPREFIXED && CONTENT_TYPE in UNPREFIXED;
    assert SERVER_PROTOCOL in OWN_KEYS && REQUEST_METHOD in OWN_KEYS && REMOTE_ADDR in OWN_KEYS
      && WSGI_INPUT in OWN_KEYS;
    SealedCompleted(got, line, base, CONTENT_LENGTH);
    SealedCompleted(got, line, base, CONTENT_TYPE);
  }

  lemma LengthNormalises()
    ensures Usable("Content-Length") && Normalises("Content-Length", "CONTENT_LENGTH")
    ensures PREFIX + "CONTENT_LENGTH" == HTTP_CONTENT_LENGTH
  {
  }

  lemma TypeNormalises()
    ensures Usable("Content-Type") && Normalises("Content-Type", "CONTENT_TYPE")
    ensures PREFIX + "CONTENT_TYPE" == HTTP_CONTENT_TYPE
  {
  }

  lemma ExpectNormalises()
    ensures Usable("Expect") && Normalises("Expect", "EXPECT")
    ensures PREFIX + "EXPECT" == HTTP_EXPECT
  {
  }

  lemma LengthKey()
    ensures Usable("Content-Length") && Key("Content-Length") == HTTP_CONTENT_LENGTH
  {
    LengthNormalises();
    KeyIsThis("Content-Length", "CONTENT_LENGTH");
  }

  lemma TypeKey()
    ensures Usable("Content-Type") && Key("Content-Type") == HTTP_CONTENT_TYPE
  {
    TypeNormalises();
    KeyIsThis("Content-Type", "CONTENT_TYPE");
  }

  /** In whatever case they come, three names have the keys that the server looks for, and no other name has. */
  lemma NamesOfKeys(name: string)
    ensures EqualIgnoringCase(name, "Content-Length") <==> Usable(name) && Key(name) == "HTTP_CONTENT_LENGTH"
    ensures EqualIgnoringCase(name, "Content-Type") <==> Usable(name) && Key(name) == "HTTP_CONTENT_TYPE"
    ensures EqualIgnoringCase(name, "Expect") <==> Usable(name) && Key(name) == "HTTP_EXPECT"
  {
    LengthNormalises();
    TypeNormalises();
    ExpectNormalises();
    KnownKey(name, "Content-Length", "CONTENT_LENGTH");
    KnownKey(name, "Content-Type", "CONTENT_TYPE");
    KnownKey(name, "Expect", "EXPECT");
  }

  /** What the application finds of a header: all its values, under the key that its name normalises to, in
      whatever case it came; the two content headers are elsewhere. */
  lemma CompletedNamed(got: Delivered, line: RequestLine, base: Dict, name: string)
    requires IsBase(base) && Usable(name)
    ensures var e := Completed(got, line, base);
            var k := Key(name);
            && k[..5] == "HTTP_" && Normalises(name, k[5..])
            && (k in e <==> HasNamed(got.log, name) && !EqualIgnoringCase(name, "Content-Length")
                            && !EqualIgnoringCase(name, "Content-Type"))
            && (k in e ==> e[k] == Text(ValuesNamed(got.log, name)))
  {
    KeyNormalises(name);
    KeyIsHeaderKey(name);
    CompletedHeader(got, line, base, Key(name));
    CollectNamed(got.log, name);
    LengthKey();
    TypeKey();
    KeySound(name, "Content-Length");
    KeySound(name, "Content-Type");
  }

  lemma CompletedContent(got: Delivered, line: RequestLine, base: Dict)
    requires IsBase(base)
    ensures var e := Completed(got, line, base);
            && (CONTENT_LENGTH in e <==> HasNamed(got.log, "Content-Length"))
            && (CONTENT_LENGTH in e ==> e[CONTENT_LENGTH] == Text(ValuesNamed(got.log, "Content-Length")))
            && (CONTENT_TYPE in e <==> HasNamed(got.log, "Content-Type"))
            && (CONTENT_TYPE in e ==> e[CONTENT_TYPE] == Text(ValuesNamed(got.log, "Content-Type")))
  {
    MovedKeys();
    LengthKey();
    TypeKey();
    CollectNamed(got.log, "Content-Length");
    CollectNamed(got.log, "Content-Type");
    ImageAtHeader(got, HTTP_CONTENT_LENGTH);
    ImageAtHeader(got, HTTP_CONTENT_TYPE);
    TwiceReplacedAt(got, CONTENT_LENGTH);
    SealedLeavesContent(got, line, base);
  }

  /** And under the keys without prefix: the two content headers, the request line, the peer, the whole body
      from its start, and everything of wsgi_base_dict. */
  lemma CompletedOwn(got: Delivered, line: RequestLine, base: Dict)
    requires IsBase(base)
    ensures var e := Completed(got, line, base);
            && (CONTENT_LENGTH in e <==> HasNamed(got.log, "Content-Length"))
            && (CONTENT_LENGTH in e ==> e[CONTENT_LENGTH] == Text(ValuesNamed(got.log, "Content-Length")))
            && (CONTENT_TYPE in e <==> HasNamed(got.log, "Content-Type"))
            && (CONTENT_TYPE in e ==> e[CONTENT_TYPE] == Text(ValuesNamed(got.log, "Content-Type")))
            && SERVER_PROTOCOL in e && (line.httpMinor == 1 <==> e[SERVER_PROTOCOL] == Text("HTTP/1.1"))
            && (line.httpMinor != 1 <==> e[SERVER_PROTOCOL] == Text("HTTP/1.0"))
            && REQUEST_METHOD in e && e[REQUEST_METHOD] == Text(line.verb)
            && REMOTE_ADDR in e && e[REMOTE_ADDR] == Text(line.clientAddr)
            && WSGI_INPUT in e && e[WSGI_INPUT].Stream? && e[WSGI_INPUT].position == 0
            && e[WSGI_INPUT].bytes == (match got.body case Some(body) => body case None => "")
            && (forall k :: k in base ==> k in e && e[k] == base[k])
  {
    CompletedContent(got, line, base);
    SealedCompleted(got, line, base, SERVER_PROTOCOL);
    assert "HTTP/1.1"[7] != "HTTP/1.0"[7];
    forall k | k in base
      ensures k in Completed(got, line, base) && Completed(got, line, base)[k] == base[k]
    {
      SealedCompleted(got, line, base, k);
    }
  }

  lemma PathKeyApart(k: string)
    requires k == PATH_INFO || k == QUERY_STRING
    ensures k != SERVER_PROTOCOL && k != REQUEST_METHOD && k != REMOTE_ADDR && k != WSGI_INPUT && k !in BASE_KEYS
    ensures k != HTTP_CONTENT_LENGTH && k != HTTP_CONTENT_TYPE && k != CONTENT_LENGTH && k != CONTENT_TYPE
  {
    assert k[0] == 'P' || k[0] == 'Q';
    if k in BASE_KEYS { BaseKeyShape(k); }
    assert SERVER_PROTOCOL[0] == 'S' && REQUEST_METHOD[0] == 'R' && REMOTE_ADDR[0] == 'R' && WSGI_INPUT[0] == 'w';
    assert HTTP_CONTENT_LENGTH[0] == 'H' && HTTP_CONTENT_TYPE[0] == 'H' && CONTENT_LENGTH[0] == 'C'
      && CONTENT_TYPE[0] == 'C';
  }

  /** The path and query string are untouched by completion. */
  lemma CompletedPath(got: Delivered, line: RequestLine, base: Dict)
    requires IsBase(base) && PiecesGood(got.pieces)
    ensures var e := Completed(got, line, base);
            && (PATH_INFO in e <==> got.pieces != [])
            && (PATH_INFO in e ==>
                  Decode(Flatten(got.pieces)).Some? && e[PATH_INFO] == Text(Decode(Flatten(got.pieces)).value))
            && (QUERY_STRING in e <==> got.query.Some?)
            && (QUERY_STRING in e ==> e[QUERY_STRING] == Text(got.query.value))
  {
    PathGrows(got.pieces, "");
    ImageKeys();
    ImageAt(got, PATH_INFO);
    ImageAt(got, QUERY_STRING);
    PathKeyApart(PATH_INFO);
    PathKeyApart(QUERY_STRING);
    TwiceReplacedAt(got, PATH_INFO);
    TwiceReplacedAt(got, QUERY_STRING);
    SealedCompleted(got, line, base, PATH_INFO);
    SealedCompleted(got, line, base, QUERY_STRING);
  }

  function StreamFromStart(d: Dict): Value
    requires WSGI_INPUT in d ==> d[WSGI_INPUT].Stream?
  {
    if WSGI_INPUT in d then d[WSGI_INPUT].(position := 0) else Stream("", 0)
  }

  lemma InputIsRewound(got: Delivered)
    ensures var d := Moved(got.Image());
            && (WSGI_INPUT in d ==> d[WSGI_INPUT].Stream?)
            && StreamFromStart(d) == Rewound(got)
  {
    ImageKeys();
    ImageAt(got, WSGI_INPUT);
    NotHeaderKeys();
    MovedKeys();
    KeysApart(WSGI_INPUT);
    assert WSGI_INPUT in OWN_KEYS && CONTENT_LENGTH in UNPREFIXED && CONTENT_TYPE in UNPREFIXED;
    TwiceReplacedAt(got, WSGI_INPUT);
  }

  // Expect: 100-continue

  const EXPECTATION := "100-continue"

  /** strncmp finds no difference in the first |value| octets. */
  predicate SamePrefix(value: string, literal: string) {
    if value == "" then true
    else if literal == "" then value[0] == '\0'
    else value[0] == literal[0] && SamePrefix(value[1..], literal[1..])
  }

  /** So every prefix of the literal counts as the literal, the empty one too. */
  lemma {:induction false} SamePrefixIff(value: string, literal: string)
    ensures SamePrefix(value, literal)
      <==> if |value| <= |literal| then value == literal[..|value|]
           else value[..|literal|] == literal && value[|literal|] == '\0'
  {
    if value != "" && literal != "" {
      SamePrefixIff(value[1..], literal[1..]);
      var k := Min(|value|, |literal|);
      assert value[..k] == [value[0]] + value[1..][..k - 1];
      assert literal[..k] == [literal[0]] + literal[1..][..k - 1];
      assert value[..|value|] == value && literal[..|literal|] == literal;
      assert value[1..][..|value| - 1] == value[1..] && literal[1..][..|literal| - 1] == literal[1..];
    }
  }

  /** error_code and expect_continue, as far as the callbacks set them. */
  datatype Flags = Flags(errorCode: nat, expectContinue: bool)

  const CLEAR := Flags(0, false)

  function Judged(value: string): Flags {
    if SamePrefix(value, EXPECTATION) then Flags(0, true) else Flags(HTTP_EXPECTATION_FAILED, false)
  }

  /** What a value piece under `key` does to the flags. */
  function Expectation(key: string, value: string, persistent: bool, flags: Flags): Flags {
    if flags != CLEAR || !persistent || key != HTTP_EXPECT then flags else Judged(value)
  }

  function ValueFlags(h: Header, value: string, persistent: bool, flags: Flags): Flags {
    if Usable(h.name) then Expectation(Key(h.name), value, persistent, flags) else flags
  }

  /** The flags that a stream of header callbacks leaves. */
  function FlagsOf(log: seq<Header>, cbs: seq<Callback>, persistent: bool, flags: Flags): Flags
    decreases |cbs|
  {
    if cbs == [] then flags
    else if cbs[0].FieldPart? then FlagsOf(AddField(log, cbs[0].s), cbs[1..], persistent, flags)
    else if log == [] then flags
    else FlagsOf(AddValue(log, cbs[0].s), cbs[1..], persistent, ValueFlags(Last(log), cbs[0].s, persistent, flags))
  }

  lemma {:induction false} FlagsOfAppend(log: seq<Header>, a: seq<Callback>, b: seq<Callback>, persistent: bool,
        flags: Flags)
    requires log != [] || a == [] || a[0].FieldPart?
    ensures FlagsOf(log, a + b, persistent, flags)
         == FlagsOf(LogOf(log, a), b, persistent, FlagsOf(log, a, persistent, flags))
    decreases |a|
  {
    if a == [] {
      assert a + b == b;
    } else {
      assert (a + b)[1..] == a[1..] + b;
      if a[0].FieldPart? {
        FlagsOfAppend(AddField(log, a[0].s), a[1..], b, persistent, flags);
      } else {
        FlagsOfAppend(AddValue(log, a[0].s), a[1..], b, persistent, ValueFlags(Last(log), a[0].s, persistent, flags));
      }
    }
  }

  lemma {:induction false} FieldsKeepFlags(log: seq<Header>, parts: seq<string>, persistent: bool, flags: Flags)
    ensures FlagsOf(log, Fields(parts), persistent, flags) == flags
    decreases |parts|
  {
    if parts != [] {
      assert Fields(parts)[1..] == Fields(parts[1..]);
      FieldsKeepFlags(AddField(log, parts[0]), parts[1..], persistent, flags);
    }
  }

  /** Only the first piece of a value can matter: it decides, and what is decided stays. */
  lemma {:induction false} FirstPieceDecides(log: seq<Header>, h: Header, parts: seq<string>, persistent: bool,
        flags: Flags)
    requires parts != []
    ensures FlagsOf(log + [h], Values(parts), persistent, flags) == ValueFlags(h, parts[0], persistent, flags)
    decreases |parts|
  {
    var open := log + [h];
    var next := h.(value := h.value + parts[0], valued := true);
    assert Values(parts)[1..] == Values(parts[1..]);
    assert AddValue(open, parts[0]) == log + [next] by { assert open[..|open| - 1] == log; }
    if |parts| > 1 {
      FirstPieceDecides(log, next, parts[1..], persistent, ValueFlags(h, parts[0], persistent, flags));
    }
  }

  predicate IsExpect(c: Split) { EqualIgnoringCase(Flatten(c.names), "Expect") }

  lemma ExpectHasItsKey(c: Split)
    ensures IsExpect(c) <==> Usable(Flatten(c.names)) && Key(Flatten(c.names)) == HTTP_EXPECT
  {
    ExpectNormalises();
    KnownKey(Flatten(c.names), "Expect", "EXPECT");
  }

  /** The first usable Expect header. */
  function FirstExpect(cs: seq<Split>): Option<Split> {
    if cs == [] then None
    else if FirstExpect(cs[..|cs| - 1]).Some? then FirstExpect(cs[..|cs| - 1])
    else if IsExpect(cs[|cs| - 1]) then Some(cs[|cs| - 1]) else None
  }

  lemma {:induction false} FirstExpectIsSplit(cs: seq<Split>)
    requires AllDeliverable(cs) && FirstExpect(cs).Some?
    ensures Deliverable(FirstExpect(cs).value)
  {
    if FirstExpect(cs[..|cs| - 1]).Some? { FirstExpectIsSplit(cs[..|cs| - 1]); }
  }

  /** What section 5.1.1 of RFC 7231 asks for, but for the prefixes; said without the comparison. */
  predicate AsksToContinue(v: string) {
    if |v| <= 12 then v == "100-continue"[..|v|] else v[..12] == "100-continue" && v[12] == '\0'
  }

  function VerdictOn(v: string): Flags {
    if AsksToContinue(v) then Flags(0, true) else Flags(HTTP_EXPECTATION_FAILED, false)
  }

  lemma JudgedAsAsked(v: string)
    ensures Judged(v) == VerdictOn(v)
  {
    SamePrefixIff(v, EXPECTATION);
  }

  /** The flags that the headers of a request leave: the first piece of the first Expect header decides. */
  function ExpectVerdict(cs: seq<Split>, persistent: bool): Flags
    requires AllDeliverable(cs)
  {
    if !persistent || FirstExpect(cs) == None then CLEAR
    else
      FirstExpectIsSplit(cs);
      VerdictOn(FirstExpect(cs).value.values[0])
  }

  lemma OneHeaderFlags(log: seq<Header>, c: Split, persistent: bool, flags: Flags)
    requires Deliverable(c) && (log == [] || Last(log).valued)
    ensures FlagsOf(log, Fields(c.names) + Values(c.values), persistent, flags)
         == if IsExpect(c) && persistent && flags == CLEAR then VerdictOn(c.values[0]) else flags
  {
    ExpectHasItsKey(c);
    JudgedAsAsked(c.values[0]);
    FlagsOfAppend(log, Fields(c.names), Values(c.values), persistent, flags);
    FieldsKeepFlags(log, c.names, persistent, flags);
    assert Fields(c.names)[1..] == Fields(c.names[1..]);
    assert AddField(log, c.names[0]) == log + [Header(c.names[0], "", false)];
    MoreFields(log, c.names[0], c.names[1..]);
    FirstPieceDecides(log, Header(Flatten(c.names), "", false), c.values, persistent, flags);
  }

  /** However the headers are cut, the flags are the verdict on the first Expect header. */
  lemma {:induction false} StreamFlags(cs: seq<Split>, persistent: bool)
    requires AllDeliverable(cs)
    ensures FlagsOf([], HeaderLog.Stream(cs), persistent, CLEAR) == ExpectVerdict(cs, persistent)
  {
    if cs != [] {
      var before, c := cs[..|cs| - 1], cs[|cs| - 1];
      assert Deliverable(c);
      StreamFlags(before, persistent);
      StreamLogsUncut(before);
      FlagsOfAppend([], HeaderLog.Stream(before), Fields(c.names) + Values(c.values), persistent, CLEAR);
      assert HeaderLog.Stream(cs) == HeaderLog.Stream(before) + (Fields(c.names) + Values(c.values));
      OneHeaderFlags(Uncut(before), c, persistent, ExpectVerdict(before, persistent));
    }
  }

  lemma {:induction false} PrefixOfPrefix(a: string, b: string, literal: string)
    requires SamePrefix(a + b, literal)
    ensures SamePrefix(a, literal)
  {
    if a != "" {
      assert (a + b)[0] == a[0] && (a + b)[1..] == a[1..] + b;
      if literal != "" { PrefixOfPrefix(a[1..], b, literal[1..]); }
    }
  }

  /** How the value is cut matters in one case only: the first piece is a prefix of "100-continue"
      and the whole is not. Then the client is told to go on instead of getting a 417. */
  lemma CutMattersIff(cs: seq<Split>, persistent: bool)
    requires AllDeliverable(cs) && persistent && FirstExpect(cs).Some?
    ensures var values := FirstExpect(cs).value.values;
            values != []
            && (ExpectVerdict(cs, persistent) == VerdictOn(Flatten(values))
                <==> !(AsksToContinue(values[0]) && !AsksToContinue(Flatten(values))))
  {
    FirstExpectIsSplit(cs);
    var values := FirstExpect(cs).value.values;
    SamePrefixIff(values[0], EXPECTATION);
    SamePrefixIff(Flatten(values), EXPECTATION);
    if AsksToContinue(Flatten(values)) { PrefixOfPrefix(values[0], Flatten(values[1..]), EXPECTATION); }
  }

  // The callbacks of one request as a function

  datatype Kind =
    | Path
    | Query
    | FieldName
    | FieldValue(major: nat, minor: nat)
    | Body(contentLength: nat)
    | Complete(line: RequestLine)

  /** One callback of the parser: what it is for and the octets it points at. */
  datatype Notice = Notice(kind: Kind, s: string)

  datatype Progress = Progress(got: Delivered, flags: Flags, completed: Option<RequestLine>)

  const UNSTARTED := Progress(NOTHING, CLEAR, None)

  /** http_parser delivers no value without a field, and nothing behind the end of the message. */
  predicate Proper(p: Progress, c: Notice) {
    p.completed == None && (c.kind.FieldValue? ==> p.got.log != [])
  }

  function TakePath(p: Progress, s: string): Progress {
    if s == "" || !WellFormed(s) then p else p.(got := p.got.(pieces := p.got.pieces + [s]))
  }

  function TakeQuery(p: Progress, s: string): Progress {
    p.(got := p.got.(query := Some((if p.got.query.Some? then p.got.query.value else "") + s)))
  }

  function TakeValue(p: Progress, s: string, persistent: bool): Progress
    requires p.got.log != []
  {
    p.(got := p.got.(log := AddValue(p.got.log, s)), flags := ValueFlags(Last(p.got.log), s, persistent, p.flags))
  }

  /** A body is refused if it has no length. */
  function TakeBody(p: Progress, s: string, contentLength: nat): Progress {
    if p.got.body == None && contentLength == 0 then p.(flags := Flags(HTTP_LENGTH_REQUIRED, false))
    else
      var body := (if p.got.body.Some? then p.got.body.value else "") + s;
      p.(got := p.got.(body := Some(body)), flags := p.flags.(expectContinue := false))
  }

  function Take(p: Progress, c: Notice): Progress
    requires Proper(p, c)
  {
    match c.kind
    case Path => TakePath(p, c.s)
    case Query => TakeQuery(p, c.s)
    case FieldName => p.(got := p.got.(log := AddField(p.got.log, c.s)))
    case FieldValue(major, minor) => TakeValue(p, c.s, major > 0 && minor > 0)
    case Body(contentLength) => TakeBody(p, c.s, contentLength)
    case Complete(line) => p.(completed := Some(line))
  }

  /** The environ that has come of it. */
  function EnvironOf(p: Progress, base: Dict): Dict {
    if p.completed.Some? then Completed(p.got, p.completed.value, base) else p.got.Image()
  }

  /** bj_parser, the request's dictionary, and the state flags the callbacks set. */
  class EnvironBuilder {
    const base: Dict
    var field: string
    var lastCallWasHeaderValue: bool
    var invalidHeader: bool
    var headers: Dict
    var errorCode: nat
    var expectContinue: bool
    var parseFinished: bool

    ghost var got: Delivered
    ghost var completed: Option<RequestLine>

    ghost function NowAt(): Progress
      reads this
    {
      Progress(got, Flags(errorCode, expectContinue), completed)
    }

    /** The message is still coming in: the dictionary is the image of what was delivered. */
    ghost predicate Filling()
      reads this
    {
      && FieldKept(got.log, field, lastCallWasHeaderValue, invalidHeader)
      && LogGood(got.log) && PiecesGood(got.pieces)
      && !parseFinished && completed == None && headers == got.Image()
    }

    /** The message is complete, and so is the dictionary. */
    ghost predicate Filled()
      reads this
    {
      PiecesGood(got.pieces) && parseFinished && completed.Some? && headers == Completed(got, completed.value, base)
    }

    ghost predicate Valid()
      reads this
    {
      if parseFinished then Filled() else Filling()
    }

    /** Request_new and on_message_begin. */
    constructor (base: Dict)
      ensures Filling() && NowAt() == UNSTARTED && this.base == base
    {
      this.base := base;
      field, lastCallWasHeaderValue, invalidHeader := "", true, false;
      headers := map[];
      errorCode, expectContinue, parseFinished := 0, false, false;
      got, completed := NOTHING, None;
    }

    /** Request_reset, and on_message_begin for the next request. */
    method Reset()
      modifies this
      ensures Filling() && NowAt() == UNSTARTED
    {
      field, lastCallWasHeaderValue, invalidHeader := "", true, false;
      headers := map[];
      errorCode, expectContinue, parseFinished := 0, false, false;
      got, completed := NOTHING, None;
    }

    /** _set_or_append_header. */
    method SetOrAppendHeader(k: string, v: string)
      requires k in headers ==> headers[k].Text?
      modifies `headers
      ensures headers == old(headers)[k := Text((if k in old(headers) then old(headers)[k].s else "") + v)]
    {
      if k in headers {
        headers := headers[k := Text(headers[k].s + v)];
      } else {
        headers := headers[k := Text(v)];
        assert "" + v == v;
      }
    }

    /** Decodes the piece in the parser's own buffer. A piece is refused exactly when it is empty
        or malformed; otherwise PATH_INFO is the decoding of all pieces together. */
    method OnPath(buf: array<char>, path: nat, n: nat) returns (failed: bool)
      requires Filling() && path + n <= buf.Length
      modifies `headers, `got, buf
      ensures Filling()
      ensures failed <==> n == 0 || !WellFormed(old(buf[path..path + n]))
      ensures got == if failed then old(got) else old(got).(pieces := old(got).pieces + [old(buf[path..path + n])])
      ensures forall k :: 0 <= k < path || path + n <= k < buf.Length ==> buf[k] == old(buf[k])
    {
      ghost var piece := buf[path..path + n];
      DecodesIffWellFormed(piece);
      if WellFormed(piece) && piece != "" { EscapesLeaveSomething(piece); }
      var len := UnquoteUrlInplace(buf, path, n);
      failed := len == 0;
      if !failed {
        ImageKeys();
        ImageAt(got, PATH_INFO);
        ImageSetPath(got, piece);
        SetOrAppendHeader(PATH_INFO, buf[path..path + len]);
        got := got.(pieces := got.pieces + [piece]);
      }
    }

    method OnQueryString(q: string)
      requires Filling()
      modifies `headers, `got
      ensures Filling() && NowAt() == TakeQuery(old(NowAt()), q)
    {
      ghost var all := (if got.query.Some? then got.query.value else "") + q;
      ImageKeys();
      ImageAt(got, QUERY_STRING);
      ImageSetQuery(got, all);
      SetOrAppendHeader(QUERY_STRING, q);
      got := got.(query := Some(all));
    }

    /** The field name as it goes into the key; None if it holds an underscore (CVE-2015-0219). */
    static method ProcessField(s: string) returns (r: Option<string>)
      ensures r == None <==> '_' in s
      ensures r.Some? ==> Normalises(s, r.value) && r.value == KeyChars(s)
    {
      var processed := new char[|s|];
      var i := 0;
      while i < |s|
        invariant 0 <= i <= |s|
        invariant Usable(s[..i])
        invariant forall k :: 0 <= k < i ==> processed[k] == KeyChar(s[k])
      {
        var c := s[i];
        if c == '_' {
          return None;
        } else if c == '-' {
          processed[i] := '_';
        } else if 'a' <= c <= 'z' {
          processed[i] := (c as int - ('a' as int - 'A' as int)) as char;
        } else {
          processed[i] := c;
        }
        i := i + 1;
      }
      assert s[..i] == s;
      assert processed[..] == KeyChars(s);
      return Some(processed[..]);
    }

    method OnHeaderField(s: string)
      requires Filling()
      modifies `field, `lastCallWasHeaderValue, `invalidHeader, `got
      ensures Filling() && got == old(got).(log := AddField(old(got).log, s))
      ensures got.log != [] && !Last(got.log).valued && (invalidHeader <==> '_' in Last(got.log).name)
      ensures !invalidHeader ==> IsHeaderKey(field) && Normalises(Last(got.log).name, field[5..])
    {
      FieldAdded(got.log, s);
      ImageAddField(got, s);
      if lastCallWasHeaderValue {
        field := PREFIX;
        lastCallWasHeaderValue := false;
        invalidHeader := false;
      }
      assert invalidHeader <==> !Usable(OpenName(got.log));
      assert !invalidHeader ==> field == Key(OpenName(got.log));
      got := got.(log := AddField(got.log, s));
      if !invalidHeader {
        var processed := ProcessField(s);
        if processed == None {
          invalidHeader := true;
        } else {
          field := field + processed.value;
        }
      }
      FieldIsNormal(got.log, field, lastCallWasHeaderValue, invalidHeader);
    }

    /** The comparison with "100-continue", for the first value piece that can matter. */
    method CheckExpectation(value: string, major: nat, minor: nat)
      modifies `expectContinue, `errorCode
      ensures Flags(errorCode, expectContinue)
           == Expectation(field, value, major > 0 && minor > 0, Flags(old(errorCode), old(expectContinue)))
    {
      if !expectContinue && errorCode == 0 && major > 0 && minor > 0 && field == HTTP_EXPECT {
        if SamePrefix(value, EXPECTATION) {
          expectContinue := true;
        } else {
          errorCode := HTTP_EXPECTATION_FAILED;
        }
      }
    }

    method OnHeaderValue(s: string, major: nat, minor: nat)
      requires Filling() && got.log != []
      modifies `lastCallWasHeaderValue, `headers, `expectContinue, `errorCode, `got
      ensures Filling() && NowAt() == TakeValue(old(NowAt()), s, major > 0 && minor > 0)
    {
      ImageAddValue(got, s);
      lastCallWasHeaderValue := true;
      if !invalidHeader {
        KeyIsHeaderKey(Last(got.log).name);
        ImageAtHeader(got, field);
        SetOrAppendHeader(field, s);
        CheckExpectation(s, major, minor);
      }
      got := got.(log := AddValue(got.log, s));
    }

    /** The body stream, made if there is none. */
    method WriteBody(data: string)
      requires Filling()
      modifies `headers, `got
      ensures Filling()
      ensures got == old(got).(body := Some((if old(got).body.Some? then old(got).body.value else "") + data))
    {
      ImageKeys();
      ImageAt(got, WSGI_INPUT);
      var before := if WSGI_INPUT in headers then headers[WSGI_INPUT].bytes else "";
      ImageSetBody(got, before + data);
      headers := headers[WSGI_INPUT := Stream(before + data, |before + data|)];
      got := got.(body := Some(before + data));
    }

    method OnBody(data: string, contentLength: nat) returns (failed: bool)
      requires Filling()
      modifies `headers, `expectContinue, `errorCode, `got
      ensures Filling() && NowAt() == TakeBody(old(NowAt()), data, contentLength)
      ensures failed <==> old(got).body == None && contentLength == 0
    {
      expectContinue := false;
      ImageKeys();
      ImageAt(got, WSGI_INPUT);
      failed := WSGI_INPUT !in headers && contentLength == 0;
      if failed {
        errorCode := HTTP_LENGTH_REQUIRED;
      } else {
        WriteBody(data);
      }
    }

    method ReplaceKey(oldKey: string, newKey: string)
      modifies `headers
      ensures headers == Replaced(old(headers), oldKey, newKey)
    {
      if oldKey in headers {
        var value := headers[oldKey];
        headers := headers - {oldKey};
        headers := headers[newKey := value];
      }
    }

    /** The entries on_message_complete sets itself; the body stream is rewound or made up. */
    method SealEntries(line: RequestLine)
      requires WSGI_INPUT in headers ==> headers[WSGI_INPUT].Stream?
      modifies `headers
      ensures headers == Entries(old(headers), line, StreamFromStart(old(headers)))
    {
      SealKeys();
      headers := headers[SERVER_PROTOCOL := Text(Protocol(line))];
      headers := headers[REQUEST_METHOD := Text(line.verb)];
      headers := headers[REMOTE_ADDR := Text(line.clientAddr)];
      if WSGI_INPUT in headers {
        headers := headers[WSGI_INPUT := headers[WSGI_INPUT].(position := 0)];
      } else {
        headers := headers[WSGI_INPUT := Stream("", 0)];
      }
    }

    method OnMessageComplete(line: RequestLine)
      requires Filling()
      modifies `headers, `parseFinished, `completed
      ensures Filled() && NowAt() == old(NowAt()).(completed := Some(line))
    {
      InputIsRewound(got);
      ReplaceKey(HTTP_CONTENT_LENGTH, CONTENT_LENGTH);
      ReplaceKey(HTTP_CONTENT_TYPE, CONTENT_TYPE);
      SealEntries(line);
      headers := headers + base;
      parseFinished, completed := true, Some(line);
    }
  }

  // A whole request, delivered in any pieces

  method DeliverPath(b: EnvironBuilder, pieces: seq<string>) returns (failed: bool)
    requires b.Filling() && b.got == NOTHING
    modifies b
    ensures b.Filling() && b.errorCode == old(b.errorCode) && b.expectContinue == old(b.expectContinue)
    ensures failed <==> !PiecesGood(pieces)
    ensures !failed ==> b.got == NOTHING.(pieces := pieces)
  {
    failed := false;
    var j := 0;
    while j < |pieces| && !failed
      invariant 0 <= j <= |pieces|
      invariant b.Filling() && b.errorCode == old(b.errorCode) && b.expectContinue == old(b.expectContinue)
      invariant failed ==> !PiecesGood(pieces)
      invariant !failed ==> PiecesGood(pieces[..j]) && b.got == NOTHING.(pieces := pieces[..j])
    {
      var piece := pieces[j];
      var buffer := new char[|piece|](i requires 0 <= i < |piece| => piece[i]);
      assert buffer[0..|piece|] == piece;
      failed := b.OnPath(buffer, 0, |piece|);
      assert pieces[..j] + [piece] == pieces[..j + 1];
      j := j + 1;
    }
    assert !failed ==> pieces[..j] == pieces;
  }

  function Whole(parts: seq<string>): Option<string> { if parts == [] then None else Some(Flatten(parts)) }

  lemma WholeSnoc(parts: seq<string>, i: nat)
    requires i < |parts|
    ensures Whole(parts[..i + 1]) == Some((if Whole(parts[..i]).Some? then Whole(parts[..i]).value else "") + parts[i])
  {
    assert parts[..i + 1] == parts[..i] + [parts[i]];
    FlattenSnoc(parts[..i], parts[i]);
    assert "" + parts[i] == parts[i];
  }

  method DeliverQuery(b: EnvironBuilder, parts: seq<string>)
    requires b.Filling() && b.got.query == None
    modifies b
    ensures b.Filling() && b.NowAt() == old(b.NowAt()).(got := old(b.got).(query := Whole(parts)))
  {
    var i := 0;
    while i < |parts|
      invariant 0 <= i <= |parts|
      invariant b.Filling()
      invariant b.NowAt() == old(b.NowAt()).(got := old(b.got).(query := Whole(parts[..i])))
    {
      b.OnQueryString(parts[i]);
      WholeSnoc(parts, i);
      i := i + 1;
    }
    assert parts[..i] == parts;
  }

  lemma DeliverStep(log: seq<Header>, cbs: seq<Callback>, persistent: bool, flags: Flags)
    requires cbs != [] && (log != [] || cbs[0].FieldPart?)
    ensures cbs[0].FieldPart? ==>
              LogOf(log, cbs) == LogOf(AddField(log, cbs[0].s), cbs[1..])
              && FlagsOf(log, cbs, persistent, flags) == FlagsOf(AddField(log, cbs[0].s), cbs[1..], persistent, flags)
    ensures cbs[0].ValuePart? ==>
              var after := ValueFlags(Last(log), cbs[0].s, persistent, flags);
              LogOf(log, cbs) == LogOf(AddValue(log, cbs[0].s), cbs[1..])
              && FlagsOf(log, cbs, persistent, flags) == FlagsOf(AddValue(log, cbs[0].s), cbs[1..], persistent, after)
  {
  }

  method DeliverHeader(b: EnvironBuilder, cb: Callback, major: nat, minor: nat)
    requires b.Filling() && (b.got.log != [] || cb.FieldPart?)
    modifies b
    ensures b.Filling() && b.got == old(b.got).(log := b.got.log) && b.got.log != []
    ensures b.got.log == if cb.FieldPart? then AddField(old(b.got.log), cb.s) else AddValue(old(b.got.log), cb.s)
    ensures b.NowAt().flags
         == if cb.FieldPart? then old(b.NowAt().flags)
            else ValueFlags(Last(old(b.got.log)), cb.s, major > 0 && minor > 0, old(b.NowAt().flags))
  {
    if cb.FieldPart? {
      FieldAdded(b.got.log, cb.s);
      b.OnHeaderField(cb.s);
    } else {
      b.OnHeaderValue(cb.s, major, minor);
    }
  }

  method DeliverHeaders(b: EnvironBuilder, cbs: seq<Callback>, major: nat, minor: nat)
    requires b.Filling() && b.got.log == []
    requires cbs == [] || cbs[0].FieldPart?
    modifies b
    ensures b.Filling()
    ensures b.got == old(b.got).(log := LogOf([], cbs))
    ensures b.NowAt().flags == FlagsOf([], cbs, major > 0 && minor > 0, old(b.NowAt().flags))
  {
    var left := cbs;
    while left != []
      invariant b.Filling() && b.got == old(b.got).(log := b.got.log)
      invariant left != [] ==> b.got.log != [] || left[0].FieldPart?
      invariant LogOf(b.got.log, left) == LogOf([], cbs)
      invariant FlagsOf(b.got.log, left, major > 0 && minor > 0, b.NowAt().flags)
             == FlagsOf([], cbs, major > 0 && minor > 0, old(b.NowAt().flags))
      decreases |left|
    {
      DeliverStep(b.got.log, left, major > 0 && minor > 0, b.NowAt().flags);
      DeliverHeader(b, left[0], major, minor);
      left := left[1..];
    }
  }

  /** The body withdraws the wish for 100-continue; without a length it is refused at its first part. */
  method DeliverBody(b: EnvironBuilder, parts: seq<string>, contentLength: nat) returns (failed: bool)
    requires b.Filling() && b.got.body == None
    modifies b
    ensures b.Filling()
    ensures failed <==> parts != [] && contentLength == 0
    ensures !failed ==> b.got == old(b.got).(body := Whole(parts)) && b.errorCode == old(b.errorCode)
                        && (b.expectContinue <==> old(b.expectContinue) && parts == [])
    ensures failed ==> b.errorCode == HTTP_LENGTH_REQUIRED && !b.expectContinue
  {
    failed := false;
    var i := 0;
    while i < |parts| && !failed
      invariant 0 <= i <= |parts|
      invariant b.Filling()
      invariant failed ==> i > 0 && contentLength == 0 && b.errorCode == HTTP_LENGTH_REQUIRED && !b.expectContinue
      invariant !failed ==> b.got == old(b.got).(body := Whole(parts[..i])) && b.errorCode == old(b.errorCode)
                            && (b.expectContinue <==> old(b.expectContinue) && i == 0) && (i > 0 ==> contentLength > 0)
    {
      failed := b.OnBody(parts[i], contentLength);
      WholeSnoc(parts, i);
      i := i + 1;
    }
    assert !failed ==> parts[..i] == parts;
  }

  /** A request in the pieces the parser makes of it. */
  datatype Delivery = Delivery(path: seq<string>, query: seq<string>, headers: seq<Split>, body: seq<string>,
                               contentLength: nat, major: nat, line: RequestLine)
  {
    predicate PathAccepted() { "" !in path && WellFormed(Flatten(path)) && !CutsEscape(path) }

    predicate BodyRefused() { body != [] && contentLength == 0 }

    predicate Persistent() { major > 0 && line.httpMinor > 0 }

    function Uncut(): Delivered { Delivered(HeaderLog.Uncut(headers), path, Whole(query), Whole(body)) }
  }

  /** What on_header_value sees first of the first header named "Expect", in any case. */
  function FirstPiece(cs: seq<Split>): Option<string>
    requires AllDeliverable(cs)
  {
    if FirstExpect(cs) == None then None
    else
      FirstExpectIsSplit(cs);
      Some(FirstExpect(cs).value.values[0])
  }

  const HTTP_BAD_REQUEST := 1

  /** The callbacks of one request in the parser's order, as far as none of them is refused. The path
      is refused exactly if a piece is empty, the whole is malformed or a cut falls inside an escape,
      the body exactly if it comes without a length; otherwise the environ is that of the uncut
      request. The application is called exactly if there is an environ and no error, and the error is
      the verdict on the first Expect header. */
  method BuildEnviron(r: Delivery, base: Dict) returns (environ: Option<Dict>, errorCode: nat, expectContinue: bool)
    requires AllDeliverable(r.headers)
    ensures environ.Some? <==> r.PathAccepted() && !r.BodyRefused()
    ensures environ.Some? ==> environ.value == Completed(r.Uncut(), r.line, base)
    ensures errorCode == if !r.PathAccepted() then HTTP_BAD_REQUEST
                         else if r.BodyRefused() then HTTP_LENGTH_REQUIRED
                         else ExpectVerdict(r.headers, r.Persistent()).errorCode
    ensures expectContinue <==>
              r.PathAccepted() && r.body == [] && ExpectVerdict(r.headers, r.Persistent()).expectContinue
    ensures r.PathAccepted() && r.body == [] && r.major > 0 && r.line.httpMinor > 0 ==>
              match FirstPiece(r.headers)
              case None => !expectContinue && errorCode == 0
              case Some(v) =>
                && (expectContinue <==> AsksToContinue(v))
                && errorCode == if expectContinue then 0 else HTTP_EXPECTATION_FAILED
    ensures r.PathAccepted() && r.body == [] && (r.major == 0 || r.line.httpMinor == 0) ==>
              !expectContinue && errorCode == 0
  {
    PiecesWellFormedIff(r.path);
    environ, errorCode, expectContinue := None, HTTP_BAD_REQUEST, false;
    var b := new EnvironBuilder(base);
    var failed := DeliverPath(b, r.path);
    assert failed <==> !r.PathAccepted();
    if !failed {
      DeliverQuery(b, r.query);
      StreamLogsUncut(r.headers);
      StreamFlags(r.headers, r.Persistent());
      DeliverHeaders(b, HeaderLog.Stream(r.headers), r.major, r.line.httpMinor);
      failed := DeliverBody(b, r.body, r.contentLength);
      errorCode, expectContinue := b.errorCode, b.expectContinue;
      if !failed {
        b.OnMessageComplete(r.line);
        environ := Some(b.headers);
      }
    }
  }
}
