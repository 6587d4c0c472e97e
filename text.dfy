/** The JavaScript string and number primitives the panel's client code relies on:
    String.prototype.trim, parseInt with radix 10, and Number#toString of a
    non-negative integer. */
module Text {

  /** ECMAScript WhiteSpace and LineTerminator code points: what `trim` strips
      and what `parseInt` skips before the number. */
  predicate IsWhitespace(c: char) {
    || c == '\t' || c == '\n' || c == '\U{B}' || c == '\U{C}' || c == '\r' || c == ' '
    || c == '\U{A0}' || c == '\U{1680}' || ('\U{2000}' <= c <= '\U{200A}')
    || c == '\U{2028}' || c == '\U{2029}' || c == '\U{202F}' || c == '\U{205F}'
    || c == '\U{3000}' || c == '\U{FEFF}'
  }

  predicate AllWhitespace(s: string) {
    forall i :: 0 <= i < |s| ==> IsWhitespace(s[i])
  }

  /** A string `trim` leaves as it is: empty, or neither end is whitespace. */
  predicate Trimmed(s: string) {
    s == [] || (!IsWhitespace(s[0]) && !IsWhitespace(s[|s| - 1]))
  }

  /** Drops the leading whitespace. */
  function TrimStart(s: string): string
    decreases |s|
  {
    if |s| > 0 && IsWhitespace(s[0]) then TrimStart(s[1..]) else s
  }

  /** The result of TrimStart is a suffix of `s`, what was dropped is all
      whitespace, and the result does not start with whitespace. Stated as a
      lemma so that these slice facts are in scope only where a proof asks. */
  lemma {:induction false} TrimStartDrops(s: string)
    ensures |TrimStart(s)| <= |s| && TrimStart(s) == s[|s| - |TrimStart(s)|..]
    ensures AllWhitespace(s[..|s| - |TrimStart(s)|])
    ensures TrimStart(s) == [] || !IsWhitespace(TrimStart(s)[0])
    decreases |s|
  {
    if |s| > 0 && IsWhitespace(s[0]) {
      var t := s[1..];
      var r := TrimStart(t);
      TrimStartDrops(t);
      assert TrimStart(s) == r;
      assert r == s[|s| - |r|..];
      assert s[..|s| - |r|] == [s[0]] + t[..|t| - |r|];
      AllWhitespaceConcat([s[0]], t[..|t| - |r|]);
    }
  }

  /** Drops the trailing whitespace. */
  function TrimEnd(s: string): string
    decreases |s|
  {
    if |s| > 0 && IsWhitespace(s[|s| - 1]) then TrimEnd(s[..|s| - 1]) else s
  }

  /** The result of TrimEnd is a prefix of `s`, what was dropped is all
      whitespace, and the result does not end with whitespace. Stated as a
      lemma, like TrimStartDrops. */
  lemma {:induction false} TrimEndDrops(s: string)
    ensures |TrimEnd(s)| <= |s| && TrimEnd(s) == s[..|TrimEnd(s)|]
    ensures AllWhitespace(s[|TrimEnd(s)|..])
    ensures TrimEnd(s) == [] || !IsWhitespace(TrimEnd(s)[|TrimEnd(s)| - 1])
    decreases |s|
  {
    if |s| > 0 && IsWhitespace(s[|s| - 1]) {
      var t := s[..|s| - 1];
      var r := TrimEnd(t);
      TrimEndDrops(t);
      assert TrimEnd(s) == r;
      assert r == s[..|r|];
      assert s[|r|..] == t[|r|..] + [s[|s| - 1]];
      AllWhitespaceConcat(t[|r|..], [s[|s| - 1]]);
    }
  }

  /** String.prototype.trim: starts and ends with a non-whitespace character,
      and is empty exactly when `s` is all whitespace. */
  function Trim(s: string): (r: string)
    ensures Trimmed(r)
    ensures r == [] <==> AllWhitespace(s)
  {
    var t := TrimStart(s);
    var r := TrimEnd(t);
    TrimStartDrops(s);
    TrimEndDrops(t);
    SplitParts(s, t, r);
    r
  }

  /** The result of `trim` is the middle of `s`: what it cut off before and
      after is all whitespace. */
  lemma TrimStrips(s: string) returns (before: string, after: string)
    ensures s == before + Trim(s) + after
    ensures AllWhitespace(before) && AllWhitespace(after)
  {
    var t := TrimStart(s);
    var r := TrimEnd(t);
    TrimStartDrops(s);
    TrimEndDrops(t);
    before := s[..|s| - |t|];
    after := t[|r|..];
    assert t == r + after;
    assert s == before + t;
  }

  lemma AllWhitespaceConcat(a: string, b: string)
    ensures AllWhitespace(a + b) <==> AllWhitespace(a) && AllWhitespace(b)
  {
    if AllWhitespace(a + b) {
      forall i | 0 <= i < |a| ensures IsWhitespace(a[i]) { assert a[i] == (a + b)[i]; }
      forall i | 0 <= i < |b| ensures IsWhitespace(b[i]) { assert b[i] == (a + b)[|a| + i]; }
    }
  }

  lemma SplitParts(s: string, t: string, r: string)
    requires |t| <= |s| && t == s[|s| - |t|..] && AllWhitespace(s[..|s| - |t|])
    requires t == [] || !IsWhitespace(t[0])
    requires |r| <= |t| && r == t[..|r|] && AllWhitespace(t[|r|..])
    ensures r == [] <==> AllWhitespace(s)
  {
    var k := |s| - |t|;
    assert s == s[..k] + t;
    AllWhitespaceConcat(s[..k], t);
    if r == [] {
      assert t[|r|..] == t;
    }
  }

  lemma {:induction false} TrimStartOfPadded(a: string, m: string)
    requires AllWhitespace(a) && (m == [] || !IsWhitespace(m[0]))
    ensures TrimStart(a + m) == m
    decreases |a|
  {
    if a != [] {
      assert (a + m)[1..] == a[1..] + m;
      TrimStartOfPadded(a[1..], m);
    } else {
      assert a + m == m;
    }
  }

  lemma {:induction false} TrimEndOfPadded(m: string, b: string)
    requires AllWhitespace(b) && (m == [] || !IsWhitespace(m[|m| - 1]))
    ensures TrimEnd(m + b) == m
    decreases |b|
  {
    if b != [] {
      assert (m + b)[..|m + b| - 1] == m + b[..|b| - 1];
      TrimEndOfPadded(m, b[..|b| - 1]);
    } else {
      assert m + b == m;
    }
  }

  /** `trim` is determined by its characterisation: whatever whitespace pads a
      trimmed string on either side, trimming gives that string back. */
  lemma TrimOfPadded(a: string, m: string, b: string)
    requires AllWhitespace(a) && AllWhitespace(b) && Trimmed(m)
    ensures Trim(a + m + b) == m
  {
    if m == [] {
      assert a + m + b == a + b;
      assert AllWhitespace(a + b) by {
        forall i | 0 <= i < |a + b| ensures IsWhitespace((a + b)[i]) {
          if i >= |a| { assert (a + b)[i] == b[i - |a|]; }
        }
      }
      assert Trim(a + b) == [];
    } else {
      assert a + m + b == a + (m + b);
      TrimStartOfPadded(a, m + b);
      TrimEndOfPadded(m, b);
    }
  }

  /** Trimming twice is trimming once. */
  lemma TrimIdempotent(s: string)
    ensures Trim(Trim(s)) == Trim(s)
  {
    TrimOfPadded([], Trim(s), []);
    assert [] + Trim(s) + [] == Trim(s);
  }

  predicate IsDigit(c: char) {
    '0' <= c <= '9'
  }

  predicate AllDigits(s: string) {
    forall i :: 0 <= i < |s| ==> IsDigit(s[i])
  }

  function DigitValue(c: char): (d: nat)
    requires IsDigit(c)
    ensures d < 10
  {
    c as int - '0' as int
  }

  function DigitChar(d: nat): (c: char)
    requires d < 10
    ensures IsDigit(c) && DigitValue(c) == d
  {
    ('0' as int + d) as char
  }

  /** The decimal value of a string of digits, most significant first. */
  function DigitsValue(s: string): nat
    requires AllDigits(s)
  {
    if s == [] then 0 else DigitsValue(s[..|s| - 1]) * 10 + DigitValue(s[|s| - 1])
  }

  /** The longest prefix of `s` made of digits. */
  function DigitPrefix(s: string): (r: string)
    ensures |r| <= |s| && r == s[..|r|] && AllDigits(r)
    ensures |r| == |s| || !IsDigit(s[|r|])
  {
    if |s| > 0 && IsDigit(s[0]) then [s[0]] + DigitPrefix(s[1..]) else []
  }

  /** A JavaScript number as far as the client code uses it: an integer, or NaN. */
  datatype Numeric = Num(value: int) | NaN

  /** parseInt(s, 10): skip leading whitespace, take an optional sign, then the
      longest run of digits; NaN when that run is empty. */
  function ParseInt(s: string): Numeric {
    var t := TrimStart(s);
    var signed := |t| > 0 && (t[0] == '-' || t[0] == '+');
    var rest := if signed then t[1..] else t;
    var digits := DigitPrefix(rest);
    if digits == [] then NaN
    else if signed && t[0] == '-' then Num(0 - DigitsValue(digits))
    else Num(DigitsValue(digits))
  }

  /** Number#toString of a non-negative integer: its decimal digits, without
      leading zeros. */
  function NatToString(n: nat): (r: string)
    ensures r != [] && AllDigits(r) && DigitsValue(r) == n
    ensures r[0] != '0' || n == 0
  {
    if n < 10 then [DigitChar(n)]
    else
      var r := NatToString(n / 10) + [DigitChar(n % 10)];
      assert r[..|r| - 1] == NatToString(n / 10);
      r
  }

  lemma {:induction false} DigitPrefixOfDigits(d: string, t: string)
    requires AllDigits(d) && (t == [] || !IsDigit(t[0]))
    ensures DigitPrefix(d + t) == d
    decreases |d|
  {
    if d == [] {
      assert d + t == t;
    } else {
      assert (d + t)[1..] == d[1..] + t;
      DigitPrefixOfDigits(d[1..], t);
      assert [d[0]] + d[1..] == d;
    }
  }

  /** parseInt reads a leading run of digits and ignores whatever non-digit text
      follows it ("12px" reads as 12). */
  lemma ParseIntOfDigits(d: string, t: string)
    requires d != [] && AllDigits(d) && (t == [] || !IsDigit(t[0]))
    ensures ParseInt(d + t) == Num(DigitsValue(d))
  {
    var s := d + t;
    assert s[0] == d[0];
    DigitNotWhitespace(s[0]);
    assert TrimStart(s) == s;
    DigitPrefixOfDigits(d, t);
  }

  lemma DigitNotWhitespace(c: char)
    requires IsDigit(c)
    ensures !IsWhitespace(c) && c != '-' && c != '+'
  {
  }

  /** parseInt skips leading whitespace. */
  lemma ParseIntSkipsWhitespace(ws: string, m: string)
    requires AllWhitespace(ws) && (m == [] || !IsWhitespace(m[0]))
    ensures ParseInt(ws + m) == ParseInt(m)
  {
    TrimStartOfPadded(ws, m);
    assert TrimStart(m) == m;
  }

  /** parseInt skips leading whitespace, reads the run of digits after it and
      ignores whatever non-digit text follows ("  12px" reads as 12). */
  lemma ParseIntOfPadded(ws: string, d: string, t: string)
    requires AllWhitespace(ws)
    requires d != [] && AllDigits(d) && (t == [] || !IsDigit(t[0]))
    ensures ParseInt(ws + (d + t)) == Num(DigitsValue(d))
  {
    var m := d + t;
    assert ParseInt(m) == Num(DigitsValue(d)) && !IsWhitespace(m[0]) by {
      assert m[0] == d[0];
      DigitNotWhitespace(d[0]);
      ParseIntOfDigits(d, t);
    }
    ParseIntSkipsWhitespace(ws, m);
  }

  /** The number with its sign flipped; NaN stays NaN. */
  function Negated(n: Numeric): Numeric {
    match n
    case Num(v) => Num(0 - v)
    case NaN => NaN
  }

  /** After the leading whitespace, parseInt takes one sign character: "-x"
      reads as the negation of "x" and "+x" as "x" itself, for any `x` that
      does not start with whitespace or a sign of its own. */
  lemma ParseIntOfSigned(ws: string, sign: char, m: string)
    requires AllWhitespace(ws) && (sign == '-' || sign == '+')
    requires m == [] || (!IsWhitespace(m[0]) && m[0] != '-' && m[0] != '+')
    ensures ParseInt(ws + ([sign] + m)) == if sign == '-' then Negated(ParseInt(m)) else ParseInt(m)
  {
    var s := [sign] + m;
    assert s[0] == sign && s[1..] == m;
    assert TrimStart(s) == s;
    assert TrimStart(m) == m;
    ParseIntSkipsWhitespace(ws, s);
  }

  /** Text with no digit in it, the empty string included, reads as NaN. */
  lemma ParseIntWithoutDigits(s: string)
    requires forall i :: 0 <= i < |s| ==> !IsDigit(s[i])
    ensures ParseInt(s) == NaN
  {
    var t := TrimStart(s);
    TrimStartDrops(s);
    var rest := if |t| > 0 && (t[0] == '-' || t[0] == '+') then t[1..] else t;
    assert DigitPrefix(rest) == [] by {
      if rest != [] {
        assert rest[0] == s[|s| - |rest|];
      }
    }
  }

  /** parseInt reads back what Number#toString wrote. */
  lemma ParseIntOfNatToString(n: nat)
    ensures ParseInt(NatToString(n)) == Num(n)
  {
    var s := NatToString(n);
    ParseIntOfDigits(s, []);
    assert s + [] == s;
  }
}
