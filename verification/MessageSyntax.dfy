/** The client's side of a response head: RFC 7230, sections 3.1.2 and 3.2.
    Everything here is specification; the server never parses a response. */
module MessageSyntax {
  import opened Octets

  datatype Field = Field(name: string, value: string)

  datatype Head = Head(status: string, fields: seq<Field>)

  function ColonAt(line: string): (i: nat)
    ensures i <= |line|
    ensures i < |line| ==> line[i] == ':'
    ensures forall k :: 0 <= k < i ==> line[k] != ':'
  {
    if line == "" || line[0] == ':' then 0 else 1 + ColonAt(line[1..])
  }

  /** tchar of section 3.2.6. */
  predicate IsTokenChar(c: char) {
    || 'a' <= c <= 'z' || 'A' <= c <= 'Z' || IsDigit(c)
    || c == '!' || '#' <= c <= '\'' || c == '*' || c == '+' || c == '-' || c == '.' || '^' <= c <= '`'
    || c == '|' || c == '~'
  }

  predicate IsToken(s: string) { s != "" && forall c :: c in s ==> IsTokenChar(c) }

  /** field-name ":" OWS field-value OWS; nothing may stand between the name and the colon. */
  function ParseField(line: string): Option<Field> {
    var i := ColonAt(line);
    if i == |line| || !IsToken(line[..i]) then None else Some(Field(line[..i], Trim(line[i + 1..])))
  }

  /** Header fields, one a line, up to the empty line. */
  function ParseFields(s: string): (r: Parse<seq<Field>>)
    ensures r.Done? ==> |r.rest| < |s|
    decreases |s|
  {
    match TakeLine(s)
    case None => More
    case Some((line, rest)) =>
      if line == "" then Done([], rest)
      else
        match ParseField(line)
        case None => Bad
        case Some(f) =>
          match ParseFields(rest)
          case Done(fs, r) => Done([f] + fs, r)
          case More => More
          case Bad => Bad
  }

  /** "3DIGIT SP reason-phrase". */
  predicate IsStatus(s: string) {
    |s| >= 4 && IsDigit(s[0]) && IsDigit(s[1]) && IsDigit(s[2]) && s[3] == ' '
  }

  function DigitValue(c: char): (v: nat)
    requires IsDigit(c)
    ensures v <= 9
  {
    c as int - '0' as int
  }

  /** The status code as a number. */
  function StatusCode(s: string): nat
    requires IsStatus(s)
  {
    100 * DigitValue(s[0]) + 10 * DigitValue(s[1]) + DigitValue(s[2])
  }

  /** "HTTP/1.x SP status-code SP reason-phrase"; code and phrase are kept as one string. */
  predicate IsStatusLine(line: string) {
    |line| >= 9 && line[..7] == "HTTP/1." && IsDigit(line[7]) && line[8] == ' ' && IsStatus(line[9..])
  }

  function ParseHead(s: string): (r: Parse<Head>)
    ensures r.Done? ==> |r.rest| < |s| && IsStatus(r.value.status)
  {
    match TakeLine(s)
    case None => More
    case Some((line, rest)) =>
      if !IsStatusLine(line) then Bad
      else
        match ParseFields(rest)
        case Done(fs, r) => Done(Head(line[9..], fs), r)
        case More => More
        case Bad => Bad
  }

  // A decided answer survives further octets

  lemma {:induction false} ParseFieldsStable(s: string, t: string)
    ensures Stable(ParseFields(s), ParseFields(s + t), t)
    decreases |s|
  {
    if TakeLine(s).Some? {
      TakeLineExtends(s, t);
      var line, rest := TakeLine(s).value.0, TakeLine(s).value.1;
      if line != "" && ParseField(line).Some? {
        ParseFieldsStable(rest, t);
      }
    }
  }

  lemma ParseHeadStable(s: string, t: string)
    ensures Stable(ParseHead(s), ParseHead(s + t), t)
  {
    if TakeLine(s).Some? {
      TakeLineExtends(s, t);
      ParseFieldsStable(TakeLine(s).value.1, t);
    }
  }

  // Rendered fields parse back

  function FieldLine(f: Field): string { f.name + ": " + f.value }

  function FieldLines(fs: seq<Field>): string {
    if fs == [] then "" else FieldLine(fs[0]) + CRLF + FieldLines(fs[1..])
  }

  /** What RFC 7230 lets a sender write: a token for a name, no CR in the value. */
  predicate Printable(f: Field) { IsToken(f.name) && NoCR(f.value) }

  predicate AllPrintable(fs: seq<Field>) { forall i :: 0 <= i < |fs| ==> Printable(fs[i]) }

  /** The field as a client sees it: the white space around the value is not part of it. */
  function Received(f: Field): Field { Field(f.name, Trim(f.value)) }

  function AllReceived(fs: seq<Field>): (r: seq<Field>)
    ensures |r| == |fs|
    ensures forall i :: 0 <= i < |fs| ==> r[i] == Received(fs[i])
  {
    if fs == [] then [] else [Received(fs[0])] + AllReceived(fs[1..])
  }

  lemma ParseFieldLine(f: Field)
    requires Printable(f)
    ensures NoCR(FieldLine(f)) && FieldLine(f) != ""
    ensures ParseField(FieldLine(f)) == Some(Received(f))
  {
    var line := FieldLine(f);
    var i := ColonAt(line);
    assert line[|f.name|] == ':';
    assert !IsTokenChar(':') && !IsTokenChar('\r');
    assert forall k :: 0 <= k < |f.name| ==> line[k] == f.name[k] && f.name[k] in f.name;
    assert i == |f.name|;
    assert line[..i] == f.name && line[i + 1..] == " " + f.value;
    TrimLeadingBlank(f.value);
  }

  lemma {:induction false} ParseRenderedFields(fs: seq<Field>, rest: string)
    requires AllPrintable(fs)
    ensures ParseFields(FieldLines(fs) + CRLF + rest) == Done(AllReceived(fs), rest)
  {
    var s := FieldLines(fs) + CRLF + rest;
    if fs == [] {
      TakeLineOf("", rest);
      assert s == "" + CRLF + rest;
    } else {
      assert Printable(fs[0]);
      ParseFieldLine(fs[0]);
      var behind := FieldLines(fs[1..]) + CRLF + rest;
      assert s == FieldLine(fs[0]) + CRLF + behind;
      TakeLineOf(FieldLine(fs[0]), behind);
      ParseRenderedFields(fs[1..], rest);
    }
  }
}
