/** Octet strings and the small tools every other module shares.

    An octet string is a Dafny `string`, one character per octet (the Latin-1
    reading that the server itself uses to move between Python's str and bytes).
    Nothing in the proofs needs the characters to stay below 256. */
module Octets {

  datatype Option<+T> = None | Some(value: T)

  const CRLF := "\r\n"

  /** What an incremental reader says about the octets seen so far: an answer and
      the octets it did not use, a wish for more, or a refusal. */
  datatype Parse<+T> = Done(value: T, rest: string) | More | Bad

  /** A decided answer stays decided when `t` arrives behind the octets read. */
  predicate Stable<T(==)>(before: Parse<T>, after: Parse<T>, t: string) {
    match before
    case Done(v, r) => after == Done(v, r + t)
    case Bad => after == Bad
    case More => true
  }

  function Min(a: int, b: int): int { if a < b then a else b }

  function Max(a: int, b: int): int { if a < b then b else a }

  lemma Regrouped(a: string, b: string, c: string)
    ensures (a + b) + c == a + (b + c)
  {
  }

  function Flatten(parts: seq<string>): string {
    if parts == [] then "" else parts[0] + Flatten(parts[1..])
  }

  lemma {:induction false} FlattenAppend(a: seq<string>, b: seq<string>)
    ensures Flatten(a + b) == Flatten(a) + Flatten(b)
  {
    if a == [] {
      assert a + b == b;
    } else {
      assert (a + b)[1..] == a[1..] + b;
      FlattenAppend(a[1..], b);
      assert a[0] + (Flatten(a[1..]) + Flatten(b)) == (a[0] + Flatten(a[1..])) + Flatten(b);
    }
  }

  lemma FlattenSingle(s: string)
    ensures Flatten([s]) == s
  {
    assert [s][1..] == [];
    assert s + "" == s;
  }

  lemma {:induction false} FlattenSnoc(a: seq<string>, s: string)
    ensures Flatten(a + [s]) == Flatten(a) + s
  {
    FlattenAppend(a, [s]);
    FlattenSingle(s);
  }

  // ASCII case

  function Lower(c: char): char {
    if 'A' <= c <= 'Z' then (c as int + 32) as char else c
  }

  predicate EqualIgnoringCase(a: string, b: string) {
    |a| == |b| && forall i :: 0 <= i < |a| ==> Lower(a[i]) == Lower(b[i])
  }

  // Lines

  predicate NoCR(s: string) { '\r' !in s }

  /** Splits at the first CRLF. */
  function TakeLine(s: string): (r: Option<(string, string)>)
    ensures r.Some? ==> s == r.value.0 + CRLF + r.value.1
  {
    if |s| < 2 then None
    else if s[0] == '\r' && s[1] == '\n' then
      assert s == "" + CRLF + s[2..];
      Some(("", s[2..]))
    else
      match TakeLine(s[1..])
      case None => None
      case Some((line, rest)) =>
        assert s == ([s[0]] + line) + CRLF + rest;
        Some(([s[0]] + line, rest))
  }

  predicate NoBreak(line: string) {
    forall i :: 0 <= i < |line| - 1 && line[i] == '\r' ==> line[i + 1] != '\n'
  }

  lemma {:induction false} TakeLineWithin(line: string, rest: string)
    requires NoBreak(line)
    ensures TakeLine(line + CRLF + rest) == Some((line, rest))
  {
    var s := line + CRLF + rest;
    if line == "" {
      assert s[2..] == rest;
    } else {
      assert s[0] == line[0];
      assert s[1..] == line[1..] + CRLF + rest;
      assert forall i :: 0 <= i < |line[1..]| ==> line[1..][i] == line[i + 1];
      TakeLineWithin(line[1..], rest);
      assert [line[0]] + line[1..] == line;
    }
  }

  lemma TakeLineOf(line: string, rest: string)
    requires NoCR(line)
    ensures TakeLine(line + CRLF + rest) == Some((line, rest))
  {
    assert forall i :: 0 <= i < |line| ==> line[i] in line;
    TakeLineWithin(line, rest);
  }

  lemma {:induction false} TakeLineExtends(s: string, t: string)
    requires TakeLine(s).Some?
    ensures TakeLine(s + t) == Some((TakeLine(s).value.0, TakeLine(s).value.1 + t))
  {
    assert (s + t)[0] == s[0] && (s + t)[1] == s[1];
    if s[0] == '\r' && s[1] == '\n' {
      assert (s + t)[2..] == s[2..] + t;
    } else {
      assert (s + t)[1..] == s[1..] + t;
      TakeLineExtends(s[1..], t);
    }
  }

  // White space around a field value (RFC 7230, section 3.2.3)

  predicate IsBlank(c: char) { c == ' ' || c == '\t' }

  function TrimLeft(s: string): string {
    if s != "" && IsBlank(s[0]) then TrimLeft(s[1..]) else s
  }

  function TrimRight(s: string): string {
    if s != "" && IsBlank(s[|s| - 1]) then TrimRight(s[..|s| - 1]) else s
  }

  function Trim(s: string): string { TrimRight(TrimLeft(s)) }

  lemma TrimLeadingBlank(s: string)
    ensures Trim(" " + s) == Trim(s)
  {
    assert (" " + s)[1..] == s;
  }

  // Numbers

  predicate IsDigit(c: char) { '0' <= c <= '9' }

  function DecimalValue(s: string): (n: nat)
    requires forall c :: c in s ==> IsDigit(c)
  {
    if s == "" then 0
    else
      assert IsDigit(s[|s| - 1]);
      DecimalValue(s[..|s| - 1]) * 10 + (s[|s| - 1] as int - '0' as int)
  }

  function ParseDecimal(s: string): Option<nat> {
    if s != "" && forall c :: c in s ==> IsDigit(c) then Some(DecimalValue(s)) else None
  }

  /** The value of a hexadecimal digit, or -1. */
  function HexDigitValue(c: char): (v: int)
    ensures -1 <= v < 16
  {
    if '0' <= c <= '9' then c as int - '0' as int
    else if 'a' <= c <= 'f' then c as int - 'a' as int + 10
    else if 'A' <= c <= 'F' then c as int - 'A' as int + 10
    else -1
  }

  // Writing through a moving pointer

  /** Copies `src` into `buf` from `p` on, as memcpy and sprintf do. */
  method Put(buf: array<char>, p: nat, src: string) returns (q: nat)
    requires p + |src| <= buf.Length
    modifies buf
    ensures q == p + |src|
    ensures buf[..q] == old(buf[..p]) + src
    ensures buf[q..] == old(buf[q..])
  {
    var i := 0;
    while i < |src|
      invariant 0 <= i <= |src|
      invariant buf[..p + i] == old(buf[..p]) + src[..i]
      invariant buf[p + |src|..] == old(buf[p + |src|..])
    {
      ghost var before := buf[..p + i];
      buf[p + i] := src[i];
      assert buf[..p + i + 1] == before + [src[i]];
      i := i + 1;
    }
    assert src[..|src|] == src;
    return p + |src|;
  }
}
