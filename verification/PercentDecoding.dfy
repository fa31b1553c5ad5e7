/** bjoern/common.c: percent-decoding a URL path inside its own buffer. */
module PercentDecoding {
  import opened Octets

  function Octet(hi: char, lo: char): char
    requires HexDigitValue(hi) >= 0 && HexDigitValue(lo) >= 0
  {
    (HexDigitValue(hi) * 16 + HexDigitValue(lo)) as char
  }

  function Prepend(a: string, r: Option<string>): Option<string> {
    if r.Some? then Some(a + r.value) else None
  }

  /** RFC 3986, section 2.1, octet by octet from the left. */
  function Decode(s: string): (r: Option<string>) {
    if s == "" then Some("")
    else if s[0] != '%' then Prepend([s[0]], Decode(s[1..]))
    else if |s| < 3 || HexDigitValue(s[1]) < 0 || HexDigitValue(s[2]) < 0 then None
    else Prepend([Octet(s[1], s[2])], Decode(s[3..]))
  }

  lemma PrependTwice(a: string, b: string, r: Option<string>)
    ensures Prepend(a, Prepend(b, r)) == Prepend(a + b, r)
  {
    if r.Some? {
      assert a + (b + r.value) == (a + b) + r.value;
    }
  }

  /** One octet further, if no escape starts here. */
  lemma PlainStep(s: string, i: nat, done: string)
    requires i < |s| && s[i] != '%'
    ensures Prepend(done, Decode(s[i..])) == Prepend(done + [s[i]], Decode(s[i + 1..]))
  {
    PrependTwice(done, [s[i]], Decode(s[i + 1..]));
    assert s[i..][1..] == s[i + 1..];
  }

  /** Three octets further behind an escape. */
  lemma EscapeStep(s: string, i: nat, done: string)
    requires i + 2 < |s| && s[i] == '%' && HexDigitValue(s[i + 1]) >= 0 && HexDigitValue(s[i + 2]) >= 0
    ensures Prepend(done, Decode(s[i..])) == Prepend(done + [Octet(s[i + 1], s[i + 2])], Decode(s[i + 3..]))
  {
    PrependTwice(done, [Octet(s[i + 1], s[i + 2])], Decode(s[i + 3..]));
    assert s[i..][3..] == s[i + 3..];
  }

  lemma NoStep(s: string, i: nat, done: string)
    requires i < |s| && s[i] == '%'
    requires i + 2 < |s| ==> HexDigitValue(s[i + 1]) < 0 || HexDigitValue(s[i + 2]) < 0
    ensures Prepend(done, Decode(s[i..])) == None
  {
  }

  lemma NothingDone(s: string)
    ensures Prepend("", Decode(s)) == Decode(s) && s[0..] == s
  {
    if Decode(s).Some? { assert "" + Decode(s).value == Decode(s).value; }
  }

  /** One octet behind those decoded so far. */
  method Store(buf: array<char>, at: nat, c: char, ghost start: nat, ghost done: string)
    requires start <= at < buf.Length && buf[start..at] == done
    modifies buf
    ensures buf[start..at + 1] == done + [c]
    ensures forall k :: 0 <= k < buf.Length && k != at ==> buf[k] == old(buf[k])
  {
    buf[at] := c;
  }

  /** unquote_url_inplace, on the `n` octets that start at `url` in a larger buffer: `i` reads, `p`
      writes, `len` counts down by two per escape. Returns 0 where the source does: for a malformed
      or an empty path. */
  method UnquoteUrlInplace(buf: array<char>, url: nat, n: nat) returns (len: nat)
    requires url + n <= buf.Length
    modifies buf
    ensures var d := Decode(old(buf[url..url + n]));
            if d.Some? then len == |d.value| <= n && buf[url..url + len] == d.value else len == 0
    ensures forall k :: 0 <= k < url || url + n <= k < buf.Length ==> buf[k] == old(buf[k])
  {
    ghost var orig := buf[url..url + n];
    len := n;
    var i, p := 0, 0;
    ghost var done := "";
    NothingDone(orig);
    while i != n
      invariant 0 <= p <= i <= n
      invariant len == n - (i - p)
      invariant forall k :: 0 <= k < url || url + i <= k < buf.Length ==> buf[k] == old(buf[k])
      invariant buf[url..url + p] == done
      invariant Decode(orig) == Prepend(done, Decode(orig[i..]))
      decreases n - i
    {
      var c := buf[url + i];
      assert c == orig[i];
      if c == '%' {
        if i >= n - 2 {
          NoStep(orig, i, done);
          return 0;
        }
        var a, b := HexDigitValue(buf[url + i + 1]), HexDigitValue(buf[url + i + 2]);
        assert buf[url + i + 1] == orig[i + 1] && buf[url + i + 2] == orig[i + 2];
        if a == -1 || b == -1 {
          NoStep(orig, i, done);
          return 0;
        }
        EscapeStep(orig, i, done);
        c := (a * 16 + b) as char;
        i := i + 2;
        len := len - 2;
      } else {
        PlainStep(orig, i, done);
      }
      Store(buf, url + p, c, url, done);
      done := done + [c];
      i, p := i + 1, p + 1;
    }
    assert orig[n..] == "" && done + "" == done;
  }

  // Which paths decode, and how long the result is

  /** The escape that starts at `i` is whole. */
  predicate EscapeAt(s: string, i: nat)
    requires i < |s|
  {
    i + 2 < |s| && HexDigitValue(s[i + 1]) >= 0 && HexDigitValue(s[i + 2]) >= 0
  }

  /** Said without recursion: every '%' is followed by two hexadecimal digits. */
  predicate WellFormed(s: string) {
    forall i :: 0 <= i < |s| && s[i] == '%' ==> EscapeAt(s, i)
  }

  /** Dropping `k` octets that hold no '%' beyond a leading escape keeps the question. */
  lemma WellFormedDrop(s: string, k: nat)
    requires k <= |s|
    requires forall i :: 0 <= i < k && s[i] == '%' ==> EscapeAt(s, i)
    ensures WellFormed(s) <==> WellFormed(s[k..])
  {
    var t := s[k..];
    forall i | 0 <= i < |t|
      ensures t[i] == s[i + k] && (EscapeAt(t, i) <==> EscapeAt(s, i + k))
    {
    }
    if WellFormed(t) {
      forall i | 0 <= i < |s| && s[i] == '%'
        ensures EscapeAt(s, i)
      {
        if k <= i { assert t[i - k] == '%'; }
      }
    }
  }

  lemma {:induction false} DecodesIffWellFormed(s: string)
    ensures Decode(s).Some? <==> WellFormed(s)
  {
    if s == "" {
    } else if s[0] != '%' {
      WellFormedDrop(s, 1);
      DecodesIffWellFormed(s[1..]);
    } else if EscapeAt(s, 0) {
      WellFormedDrop(s, 3);
      DecodesIffWellFormed(s[3..]);
    }
  }

  function Escapes(s: string): nat {
    if s == "" then 0 else (if s[0] == '%' then 1 else 0) + Escapes(s[1..])
  }

  lemma {:induction false} DecodedLength(s: string)
    requires WellFormed(s)
    ensures Decode(s).Some?
    ensures |Decode(s).value| == |s| - 2 * Escapes(s)
  {
    DecodesIffWellFormed(s);
    if s == "" {
    } else if s[0] != '%' {
      WellFormedDrop(s, 1);
      DecodedLength(s[1..]);
    } else {
      assert EscapeAt(s, 0);
      WellFormedDrop(s, 3);
      DecodedLength(s[3..]);
      assert s[1..][1..] == s[2..] && s[2..][1..] == s[3..];
      assert Escapes(s[1..]) == Escapes(s[2..]) == Escapes(s[3..]);
    }
  }

  // Every encoding of an octet string decodes to it, and nothing else decodes

  /** HEXDIG of RFC 3986, section 2.1: either case is allowed. */
  const UPPER_DIGITS := "0123456789ABCDEF"
  const LOWER_DIGITS := "0123456789abcdef"

  function HexDigit(v: nat, upper: bool): char
    requires v < 16
  {
    if upper then UPPER_DIGITS[v] else LOWER_DIGITS[v]
  }

  /** How one octet is spelled: as it is, or as an escape with its two digits in either case. */
  datatype Style = Literal | Escape(hiUpper: bool, loUpper: bool)

  /** Only '%' must be escaped, and an escape holds one octet. */
  predicate Encodable(c: char, u: Style) { if u.Literal? then c != '%' else c as int < 256 }

  predicate AllEncodable(s: string, us: seq<Style>) {
    |s| == |us| && forall i :: 0 <= i < |s| ==> Encodable(s[i], us[i])
  }

  function EncodeOctet(c: char, u: Style): string
    requires Encodable(c, u)
  {
    match u
    case Literal => [c]
    case Escape(hiUpper, loUpper) => ['%', HexDigit(c as int / 16, hiUpper), HexDigit(c as int % 16, loUpper)]
  }

  function PercentEncode(s: string, us: seq<Style>): string
    requires AllEncodable(s, us)
  {
    if s == "" then ""
    else
      assert Encodable(s[0], us[0]);
      assert forall i :: 0 <= i < |s[1..]| ==> s[1..][i] == s[i + 1] && us[1..][i] == us[i + 1];
      EncodeOctet(s[0], us[0]) + PercentEncode(s[1..], us[1..])
  }

  /** The decoder's digits are the encoder's. */
  lemma DigitsAgree(v: nat, upper: bool)
    requires v < 16
    ensures HexDigitValue(HexDigit(v, upper)) == v
  {
  }

  lemma DigitFound(c: char) returns (upper: bool)
    requires HexDigitValue(c) >= 0
    ensures HexDigit(HexDigitValue(c), upper) == c
  {
    upper := c < 'a';
  }

  lemma EscapeDenotes(c: char, hiUpper: bool, loUpper: bool)
    requires c as int < 256
    ensures var e := EncodeOctet(c, Escape(hiUpper, loUpper));
            HexDigitValue(e[1]) >= 0 && HexDigitValue(e[2]) >= 0 && Octet(e[1], e[2]) == c
  {
    DigitsAgree(c as int / 16, hiUpper);
    DigitsAgree(c as int % 16, loUpper);
  }

  /** Whatever way the octets are spelled, they are what comes out. */
  lemma {:induction false} DecodeEncoded(s: string, us: seq<Style>)
    requires AllEncodable(s, us)
    ensures Decode(PercentEncode(s, us)) == Some(s)
  {
    if s != "" {
      DecodeEncoded(s[1..], us[1..]);
      assert Encodable(s[0], us[0]);
      var t := PercentEncode(s, us);
      if us[0].Literal? {
        assert t[1..] == PercentEncode(s[1..], us[1..]);
      } else {
        EscapeDenotes(s[0], us[0].hiUpper, us[0].loUpper);
        assert t[3..] == PercentEncode(s[1..], us[1..]);
      }
      assert [s[0]] + s[1..] == s;
    }
  }

  lemma OctetSplits(hi: char, lo: char)
    requires HexDigitValue(hi) >= 0 && HexDigitValue(lo) >= 0
    ensures var c := Octet(hi, lo) as int;
            c < 256 && c / 16 == HexDigitValue(hi) && c % 16 == HexDigitValue(lo)
  {
  }

  /** The way the first octet of `t` is spelled. */
  lemma StyleFound(t: string) returns (u: Style, c: char)
    requires t != "" && (t[0] == '%' ==> EscapeAt(t, 0))
    ensures c == if t[0] == '%' then Octet(t[1], t[2]) else t[0]
    ensures Encodable(c, u) && EncodeOctet(c, u) == t[..if t[0] == '%' then 3 else 1]
  {
    if t[0] == '%' {
      var hi := DigitFound(t[1]);
      var lo := DigitFound(t[2]);
      u, c := Escape(hi, lo), Octet(t[1], t[2]);
      OctetSplits(t[1], t[2]);
      assert t[..3] == [t[0], t[1], t[2]];
    } else {
      u, c := Literal, t[0];
    }
  }

  /** And whatever decodes is a spelling of what comes out. */
  lemma {:induction false} DecodedIsEncoded(t: string) returns (us: seq<Style>)
    requires Decode(t).Some?
    ensures AllEncodable(Decode(t).value, us) && PercentEncode(Decode(t).value, us) == t
  {
    if t == "" {
      us := [];
    } else {
      var k := if t[0] == '%' then 3 else 1;
      var more := DecodedIsEncoded(t[k..]);
      var u, c := StyleFound(t);
      us := [u] + more;
      var s := Decode(t).value;
      assert s == [c] + Decode(t[k..]).value && s[1..] == Decode(t[k..]).value && us[1..] == more;
      assert t == t[..k] + t[k..];
    }
  }

  // A path that arrives in pieces

  lemma {:induction false} DecodeConcat(a: string, b: string)
    requires WellFormed(a)
    ensures Decode(a).Some?
    ensures Decode(a + b) == Prepend(Decode(a).value, Decode(b))
  {
    DecodesIffWellFormed(a);
    if a == "" {
      assert a + b == b;
      if Decode(b).Some? { assert "" + Decode(b).value == Decode(b).value; }
    } else {
      var k := if a[0] == '%' then 3 else 1;
      if a[0] == '%' { assert EscapeAt(a, 0); }
      WellFormedDrop(a, k);
      DecodeConcat(a[k..], b);
      assert (a + b)[k..] == a[k..] + b;
      var c := if a[0] == '%' then Octet(a[1], a[2]) else a[0];
      PrependTwice([c], Decode(a[k..]).value, Decode(b));
    }
  }

  /** The two octets after position `i` of piece `j` exist in the whole path, but not in that piece. */
  predicate SpillsOver(pieces: seq<string>, j: nat, i: nat)
    requires j < |pieces| && i < |pieces[j]|
  {
    i + 2 < |pieces[j]| + |Flatten(pieces[j + 1..])|
  }

  /** Some boundary of `pieces` falls behind a '%' and before the end of its escape. */
  predicate CutsEscape(pieces: seq<string>) {
    exists j, i :: 0 <= j < |pieces| && 0 <= i < |pieces[j]| && pieces[j][i] == '%'
      && |pieces[j]| <= i + 2 && SpillsOver(pieces, j, i)
  }

  predicate AllWellFormed(pieces: seq<string>) {
    forall j :: 0 <= j < |pieces| ==> WellFormed(pieces[j])
  }

  function DecodedPieces(pieces: seq<string>): (r: seq<string>)
    requires AllWellFormed(pieces)
    ensures |r| == |pieces|
    ensures forall j :: 0 <= j < |r| ==> Decode(pieces[j]) == Some(r[j])
  {
    if pieces == [] then []
    else
      assert Decode(pieces[0]).Some? by { DecodesIffWellFormed(pieces[0]); }
      [Decode(pieces[0]).value] + DecodedPieces(pieces[1..])
  }

  lemma {:induction false} PiecesDecode(pieces: seq<string>)
    requires AllWellFormed(pieces)
    ensures Decode(Flatten(pieces)) == Some(Flatten(DecodedPieces(pieces)))
  {
    if pieces != [] {
      assert WellFormed(pieces[0]);
      DecodesIffWellFormed(pieces[0]);
      PiecesDecode(pieces[1..]);
      DecodeConcat(pieces[0], Flatten(pieces[1..]));
      assert DecodedPieces(pieces)[1..] == DecodedPieces(pieces[1..]);
    }
  }

  /** Where the octets of piece `j` lie in the whole path. */
  lemma {:induction false} PieceInWhole(pieces: seq<string>, j: nat)
    requires j < |pieces|
    ensures Flatten(pieces) == Flatten(pieces[..j]) + pieces[j] + Flatten(pieces[j + 1..])
  {
    assert pieces == pieces[..j] + ([pieces[j]] + pieces[j + 1..]);
    FlattenAppend(pieces[..j], [pieces[j]] + pieces[j + 1..]);
    FlattenAppend([pieces[j]], pieces[j + 1..]);
    FlattenSingle(pieces[j]);
    assert Flatten(pieces[..j]) + (pieces[j] + Flatten(pieces[j + 1..]))
        == Flatten(pieces[..j]) + pieces[j] + Flatten(pieces[j + 1..]);
  }

  lemma WellFormedPieces(pieces: seq<string>)
    requires AllWellFormed(pieces)
    ensures WellFormed(Flatten(pieces)) && !CutsEscape(pieces)
  {
    PiecesDecode(pieces);
    DecodesIffWellFormed(Flatten(pieces));
    forall j, i | 0 <= j < |pieces| && 0 <= i < |pieces[j]| && pieces[j][i] == '%'
      ensures i + 2 < |pieces[j]|
    {
      assert WellFormed(pieces[j]);
      assert EscapeAt(pieces[j], i);
    }
  }

  lemma EscapeOfWhole(pieces: seq<string>, j: nat, i: nat)
    requires WellFormed(Flatten(pieces)) && !CutsEscape(pieces)
    requires j < |pieces| && i < |pieces[j]| && pieces[j][i] == '%'
    ensures EscapeAt(pieces[j], i)
  {
    var whole := Flatten(pieces);
    PieceInWhole(pieces, j);
    var k := |Flatten(pieces[..j])| + i;
    assert whole[k] == '%';
    assert EscapeAt(whole, k);
    assert SpillsOver(pieces, j, i);
    assert i + 2 < |pieces[j]|;
    assert whole[k + 1] == pieces[j][i + 1] && whole[k + 2] == pieces[j][i + 2];
  }

  lemma PiecesOfWellFormed(pieces: seq<string>)
    requires WellFormed(Flatten(pieces)) && !CutsEscape(pieces)
    ensures AllWellFormed(pieces)
  {
    forall j, i | 0 <= j < |pieces| && 0 <= i < |pieces[j]| && pieces[j][i] == '%'
      ensures EscapeAt(pieces[j], i)
    {
      EscapeOfWhole(pieces, j, i);
    }
  }

  /** Every piece is well formed exactly when the whole is and no cut splits an escape. */
  lemma PiecesWellFormedIff(pieces: seq<string>)
    ensures AllWellFormed(pieces) <==> WellFormed(Flatten(pieces)) && !CutsEscape(pieces)
  {
    if AllWellFormed(pieces) {
      WellFormedPieces(pieces);
    } else if WellFormed(Flatten(pieces)) && !CutsEscape(pieces) {
      PiecesOfWellFormed(pieces);
    }
  }
}
