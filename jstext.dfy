/**
 * The pieces of JavaScript's string handling the control relies on:
 * `trim`, `split` on one character, `replace` of the first occurrence of a
 * character, and the prefix parsers `parseInt(_, 10)` and `parseFloat`.
 * Out-of-range results (NaN) are `None`.
 */
module JsText {
  import opened Host
  import opened Seqs

  /** JavaScript's WhiteSpace and LineTerminator characters, as `trim` and the number parsers skip them. */
  predicate IsSpace(c: char) {
    c == '\t' || c == '\n' || c == '\U{000B}' || c == '\U{000C}' || c == '\r' || c == ' '
    || c == '\U{00A0}' || c == '\U{1680}' || ('\U{2000}' <= c <= '\U{200A}')
    || c == '\U{2028}' || c == '\U{2029}' || c == '\U{202F}' || c == '\U{205F}'
    || c == '\U{3000}' || c == '\U{FEFF}'
  }

  predicate AllSpace(s: string) {
    forall i :: 0 <= i < |s| ==> IsSpace(s[i])
  }

  function TrimStart(s: string): (r: string)
    ensures |r| <= |s|
  {
    if s != [] && IsSpace(s[0]) then TrimStart(s[1..]) else s
  }

  function TrimEnd(s: string): (r: string)
    ensures |r| <= |s|
  {
    if s != [] && IsSpace(s[|s| - 1]) then TrimEnd(s[..|s| - 1]) else s
  }

  /** `String.prototype.trim`. */
  function Trim(s: string): string {
    TrimEnd(TrimStart(s))
  }

  /** `trimStart` drops exactly the leading white space. */
  lemma {:induction false} TrimStartSpec(s: string)
    ensures TrimStart(s) == s[|s| - |TrimStart(s)|..]
    ensures AllSpace(s[..|s| - |TrimStart(s)|])
    ensures TrimStart(s) != [] ==> !IsSpace(TrimStart(s)[0])
  {
    if s != [] && IsSpace(s[0]) {
      TrimStartSpec(s[1..]);
      var k := |s| - |TrimStart(s)|;
      assert s[..k] == [s[0]] + s[1..][..k - 1];
    }
  }

  /** `trimEnd` drops exactly the trailing white space. */
  lemma {:induction false} TrimEndSpec(s: string)
    ensures TrimEnd(s) == s[..|TrimEnd(s)|]
    ensures AllSpace(s[|TrimEnd(s)|..])
    ensures TrimEnd(s) != [] ==> !IsSpace(TrimEnd(s)[|TrimEnd(s)| - 1])
  {
    if s != [] && IsSpace(s[|s| - 1]) {
      TrimEndSpec(s[..|s| - 1]);
      var k := |TrimEnd(s)|;
      assert s[k..] == s[..|s| - 1][k..] + [s[|s| - 1]];
    }
  }

  /** `trim` removes exactly the white space at both ends: `s` is spaces, then the result, then spaces. */
  lemma TrimSplitsInput(s: string)
    ensures exists i, j :: 0 <= i <= j <= |s| && Trim(s) == s[i..j] && AllSpace(s[..i]) && AllSpace(s[j..])
    ensures Trim(s) != [] ==> !IsSpace(Trim(s)[0]) && !IsSpace(Trim(s)[|Trim(s)| - 1])
  {
    var t := TrimStart(s);
    TrimStartSpec(s);
    TrimEndSpec(t);
    var i := |s| - |t|;
    var j := i + |TrimEnd(t)|;
    assert Trim(s) == s[i..j];
    assert s[j..] == t[|TrimEnd(t)|..];
  }

  lemma {:induction false} TrimStartOfTrimmed(s: string)
    requires s == [] || !IsSpace(s[0])
    ensures TrimStart(s) == s
  {
  }

  lemma {:induction false} TrimEndOfTrimmed(s: string)
    requires s == [] || !IsSpace(s[|s| - 1])
    ensures TrimEnd(s) == s
  {
  }

  /** Trimming twice is trimming once. */
  lemma TrimIdempotent(s: string)
    ensures Trim(Trim(s)) == Trim(s)
  {
    var t := Trim(s);
    TrimSplitsInput(s);
    TrimStartOfTrimmed(t);
    TrimEndOfTrimmed(t);
  }

  /** `s.split(c)`: the pieces between occurrences of `c`; the empty string gives `[""]`. */
  function Split(s: string, c: char): (r: seq<string>)
    ensures |r| >= 1
    ensures forall i :: 0 <= i < |r| ==> c !in r[i]
  {
    if s == [] then [[]]
    else
      var rest := Split(s[1..], c);
      if s[0] == c then [[]] + rest else [[s[0]] + rest[0]] + rest[1..]
  }

  /** `parts.join(c)`. */
  function Join(parts: seq<string>, c: char): string
    requires |parts| >= 1
  {
    if |parts| == 1 then parts[0] else parts[0] + [c] + Join(parts[1..], c)
  }

  /** Joining the pieces again gives back the input. */
  lemma {:induction false} JoinSplit(s: string, c: char)
    ensures Join(Split(s, c), c) == s
  {
    if s != [] {
      var rest := Split(s[1..], c);
      JoinSplit(s[1..], c);
      if s[0] == c {
        assert Split(s, c)[1..] == rest;
      } else {
        var r := Split(s, c);
        if |rest| == 1 {
          assert r == [[s[0]] + rest[0]];
        } else {
          assert r[1..] == rest[1..];
          assert Join(rest, c) == rest[0] + [c] + Join(rest[1..], c);
        }
      }
      assert s == [s[0]] + s[1..];
    }
  }

  /** The number of pieces is one more than the number of separators. */
  lemma {:induction false} SplitCount(s: string, c: char)
    ensures |Split(s, c)| == multiset(s)[c] + 1
  {
    if s != [] {
      SplitCount(s[1..], c);
      assert s == [s[0]] + s[1..];
    }
  }

  /** `s.replace(a, b)` with one-character strings: only the first `a` is replaced. */
  function ReplaceFirst(s: string, a: char, b: char): (r: string)
    ensures |r| == |s|
    ensures a !in s ==> r == s
    ensures forall i :: 0 <= i < |s| ==> r[i] == if a in s && i == FirstIndex(s, a) then b else s[i]
  {
    if a in s then
      var k := FirstIndex(s, a);
      s[..k] + [b] + s[k + 1..]
    else s
  }

  predicate IsDigit(c: char) { '0' <= c <= '9' }

  predicate AllDigits(s: string) {
    forall i :: 0 <= i < |s| ==> IsDigit(s[i])
  }

  /** Length of the longest run of decimal digits at the start of `s`. */
  function DigitRun(s: string): (n: nat)
    ensures n <= |s|
  {
    if s != [] && IsDigit(s[0]) then 1 + DigitRun(s[1..]) else 0
  }

  /** The run is all digits and stops at a non-digit or at the end. */
  lemma {:induction false} DigitRunSpec(s: string)
    ensures AllDigits(s[..DigitRun(s)])
    ensures DigitRun(s) < |s| ==> !IsDigit(s[DigitRun(s)])
  {
    if s != [] && IsDigit(s[0]) {
      DigitRunSpec(s[1..]);
      assert s[..DigitRun(s)] == [s[0]] + s[1..][..DigitRun(s[1..])];
    }
  }

  lemma {:induction false} DigitRunOfDigits(s: string, rest: string)
    requires AllDigits(s) && (rest == [] || !IsDigit(rest[0]))
    ensures DigitRun(s + rest) == |s|
  {
    if s != [] {
      assert (s + rest)[1..] == s[1..] + rest;
      DigitRunOfDigits(s[1..], rest);
    } else {
      assert s + rest == rest;
    }
  }

  function DigitValue(c: char): nat {
    if IsDigit(c) then (c as int - '0' as int) as nat else 0
  }

  /** The value of a string of decimal digits (0 for the empty string). */
  function DigitsValue(s: string): nat {
    if s == [] then 0 else DigitsValue(s[..|s| - 1]) * 10 + DigitValue(s[|s| - 1])
  }

  /** The decimal text of a natural number, without leading zeros. */
  function NatText(n: nat): (r: string)
    ensures r != [] && AllDigits(r)
  {
    var d := ['0', '1', '2', '3', '4', '5', '6', '7', '8', '9'][n % 10];
    if n < 10 then [d] else NatText(n / 10) + [d]
  }

  lemma {:induction false} DigitsValueOfNatText(n: nat)
    ensures DigitsValue(NatText(n)) == n
  {
    if n >= 10 {
      DigitsValueOfNatText(n / 10);
      var t := NatText(n);
      assert t[..|t| - 1] == NatText(n / 10);
    }
  }

  /** The text after an optional leading sign, and whether the sign was a minus. */
  datatype Signed = Signed(negative: bool, body: string)

  function SignOf(t: string): Signed {
    if t != [] && (t[0] == '-' || t[0] == '+') then Signed(t[0] == '-', t[1..]) else Signed(false, t)
  }

  function ApplySign(negative: bool, v: int): int {
    if negative then -v else v
  }

  /** An optional sign followed by at least one digit, read as far as the digits go. */
  function SignedDigits(t: string): Option<int> {
    var sg := SignOf(t);
    var n := DigitRun(sg.body);
    if n == 0 then None else Some(ApplySign(sg.negative, DigitsValue(sg.body[..n])))
  }

  /** `parseInt(s, 10)`: leading white space, an optional sign, then the longest run of digits; NaN is `None`. */
  function ParseInt(s: string): Option<int> {
    SignedDigits(TrimStart(s))
  }

  lemma SignedDigitsOfText(n: nat, rest: string)
    requires rest == [] || !IsDigit(rest[0])
    ensures SignedDigits(NatText(n) + rest) == Some(n as int)
  {
    var t := NatText(n);
    DigitRunOfDigits(t, rest);
    DigitsValueOfNatText(n);
    assert (t + rest)[..|t|] == t;
  }

  lemma SignedDigitsOfNegativeText(n: nat, rest: string)
    requires rest == [] || !IsDigit(rest[0])
    ensures SignedDigits("-" + NatText(n) + rest) == Some(-(n as int))
  {
    var t := NatText(n);
    assert "-" + t + rest == "-" + (t + rest);
    assert (t + rest)[0] == t[0] && IsDigit(t[0]);
    SignedDigitsOfText(n, rest);
    MinusSign(t + rest);
  }

  /** A minus sign before text that has no sign of its own negates what the text reads as. */
  lemma MinusSign(x: string)
    requires x == [] || (x[0] != '-' && x[0] != '+')
    ensures SignedDigits("-" + x) == if SignedDigits(x).None? then None else Some(-SignedDigits(x).value)
  {
    assert ("-" + x)[1..] == x;
    assert SignOf("-" + x) == Signed(true, x);
  }

  /** The decimal text of a natural number parses back to it, whatever non-digit text follows. */
  lemma NatTextParsesBack(n: nat, rest: string)
    requires rest == [] || !IsDigit(rest[0])
    ensures ParseInt(NatText(n) + rest) == Some(n as int)
    ensures ParseInt("-" + NatText(n) + rest) == Some(-(n as int))
  {
    SignedDigitsOfText(n, rest);
    SignedDigitsOfNegativeText(n, rest);
    TrimStartOfTrimmed(NatText(n) + rest);
    TrimStartOfTrimmed("-" + NatText(n) + rest);
  }

  lemma {:induction false} TrimStartSkipsSpace(ws: string, s: string)
    requires AllSpace(ws)
    ensures TrimStart(ws + s) == TrimStart(s)
  {
    if ws != [] {
      assert (ws + s)[1..] == ws[1..] + s;
      TrimStartSkipsSpace(ws[1..], s);
    } else {
      assert ws + s == s;
    }
  }

  /** White space in front does not change what `parseInt` reads. */
  lemma ParseIntSkipsSpace(ws: string, s: string)
    requires AllSpace(ws)
    ensures ParseInt(ws + s) == ParseInt(s)
  {
    TrimStartSkipsSpace(ws, s);
  }

  /** Text with no digit after the optional sign is NaN. */
  lemma ParseIntNoDigits(s: string)
    requires var b := SignOf(TrimStart(s)).body; b == [] || !IsDigit(b[0])
    ensures ParseInt(s) == None
  {
  }

  function NatPow10(n: nat): (r: nat)
    ensures r >= 1
  {
    if n == 0 then 1 else 10 * NatPow10(n - 1)
  }

  lemma {:induction false} NatPow10Monotone(a: nat, b: nat)
    requires a <= b
    ensures NatPow10(a) <= NatPow10(b)
  {
    if a < b {
      NatPow10Monotone(a, b - 1);
    }
  }

  /** `n` digits spell a value below 10^n. */
  lemma {:induction false} DigitsValueBelow(s: string)
    ensures DigitsValue(s) < NatPow10(|s|)
  {
    if s != [] {
      DigitsValueBelow(s[..|s| - 1]);
    }
  }

  /** `parseInt` of at most four characters lies in -999..9999. */
  lemma ParseIntOfFour(s: string)
    requires |s| <= 4
    ensures ParseInt(s).Some? ==> -999 <= ParseInt(s).value <= 9999
  {
    var sg := SignOf(TrimStart(s));
    var n := DigitRun(sg.body);
    DigitsValueBelow(sg.body[..n]);
    if sg.negative {
      NatPow10Monotone(n, 3);
      assert NatPow10(3) == 1000;
    } else {
      NatPow10Monotone(n, 4);
      assert NatPow10(4) == 10000;
    }
  }

  function Pow10(n: nat): (r: real)
    ensures r >= 1.0
  {
    if n == 0 then 1.0 else 10.0 * Pow10(n - 1)
  }

  function Scale(m: real, e: int): (r: real)
    ensures m >= 0.0 ==> r >= 0.0
  {
    if e >= 0 then m * Pow10(e) else m / Pow10(-e)
  }

  /** A decimal literal split into its integer digits, its fraction digits and what follows them. */
  datatype Literal = Literal(intDigits: string, fracDigits: string, after: string)

  function Mantissa(u: string): Literal {
    var i := DigitRun(u);
    var rest := u[i..];
    if rest != [] && rest[0] == '.' then
      var f := DigitRun(rest[1..]);
      Literal(u[..i], rest[1..][..f], rest[1..][f..])
    else Literal(u[..i], [], rest)
  }

  /** The value of `a.b` for digit strings `a` and `b`. */
  function DecimalValue(a: string, b: string): (r: real)
    ensures r >= 0.0
  {
    DigitsValue(a) as real + DigitsValue(b) as real / Pow10(|b|)
  }

  function LiteralValue(l: Literal): (r: real)
    ensures r >= 0.0
  {
    DecimalValue(l.intDigits, l.fracDigits)
  }

  /** The exponent part `e[sign]digits` at the start of `t`, if it is well formed. */
  function ExponentOf(t: string): Option<int> {
    if t != [] && (t[0] == 'e' || t[0] == 'E') then SignedDigits(t[1..]) else None
  }

  /** An unsigned decimal literal at the start of `u`: digits, optional `.digits`, optional exponent. */
  function ParseUnsigned(u: string): (r: Option<real>)
    ensures r.Some? ==> r.value >= 0.0
  {
    var l := Mantissa(u);
    if l.intDigits == [] && l.fracDigits == [] then None
    else
      var e := ExponentOf(l.after);
      Some(if e.Some? then Scale(LiteralValue(l), e.value) else LiteralValue(l))
  }

  function Negated(o: Option<real>): Option<real> {
    if o.Some? then Some(-o.value) else None
  }

  /** An optional sign followed by an unsigned decimal literal. */
  function SignedDecimal(t: string): Option<real> {
    var sg := SignOf(t);
    if sg.negative then Negated(ParseUnsigned(sg.body)) else ParseUnsigned(sg.body)
  }

  /** `parseFloat(s)` on exact reals; NaN is `None`. */
  function ParseFloat(s: string): Option<real> {
    SignedDecimal(TrimStart(s))
  }

  lemma MantissaOfDecimal(a: string, b: string)
    requires AllDigits(a) && AllDigits(b)
    ensures Mantissa(a + "." + b) == Literal(a, b, [])
  {
    var s := a + "." + b;
    DigitRunOfDigits(a, "." + b);
    assert s == a + ("." + b);
    assert s[..|a|] == a;
    assert s[|a|..] == "." + b;
    assert s[|a|..][1..] == b;
    DigitRunOfDigits(b, []);
    assert b + [] == b;
  }

  lemma ParseFloatOfTrimmed(t: string)
    requires t == [] || !IsSpace(t[0])
    ensures ParseFloat(t) == SignedDecimal(t)
  {
    TrimStartOfTrimmed(t);
  }

  lemma SignedDecimalUnsigned(u: string)
    requires u == [] || (u[0] != '-' && u[0] != '+')
    ensures SignedDecimal(u) == ParseUnsigned(u)
  {
    assert SignOf(u) == Signed(false, u);
  }

  lemma SignedDecimalNegative(u: string)
    ensures SignedDecimal("-" + u) == Negated(ParseUnsigned(u))
  {
    assert SignOf("-" + u) == Signed(true, u);
  }

  lemma ParseUnsignedDecimal(a: string, b: string)
    requires AllDigits(a) && AllDigits(b) && |a| + |b| > 0
    ensures ParseUnsigned(a + "." + b) == Some(LiteralValue(Literal(a, b, [])))
  {
    MantissaOfDecimal(a, b);
  }

  /** `parseFloat` reads `digits.digits` as the decimal fraction it denotes. */
  lemma ParseFloatDecimal(a: string, b: string)
    requires AllDigits(a) && AllDigits(b) && |a| + |b| > 0
    ensures ParseFloat(a + "." + b) == Some(DecimalValue(a, b))
  {
    var s := a + "." + b;
    assert s[0] == if a == [] then '.' else a[0];
    ParseFloatOfTrimmed(s);
    SignedDecimalUnsigned(s);
    ParseUnsignedDecimal(a, b);
  }

  /** `parseFloat` reads the decimal text of a natural number as that number. */
  lemma ParseFloatNat(n: nat)
    ensures ParseFloat(NatText(n)) == Some(n as real)
  {
    var t := NatText(n);
    ParseFloatOfTrimmed(t);
    SignedDecimalUnsigned(t);
    DigitRunOfDigits(t, []);
    assert t + [] == t;
    assert Mantissa(t) == Literal(t, [], []);
    DigitsValueOfNatText(n);
  }

  /** A leading minus sign negates what `parseFloat` reads. */
  lemma ParseFloatNegative(u: string)
    requires u == [] || (!IsSpace(u[0]) && u[0] != '-' && u[0] != '+')
    ensures ParseFloat("-" + u) == Negated(ParseFloat(u))
  {
    ParseFloatOfTrimmed(u);
    SignedDecimalUnsigned(u);
    assert ("-" + u)[0] == '-';
    ParseFloatOfTrimmed("-" + u);
    SignedDecimalNegative(u);
  }

  /** A canonical array index: the decimal text, without leading zeros, of an integer below 2^32 - 1. */
  predicate IsIndexKey(k: string) {
    k != [] && AllDigits(k) && (k[0] != '0' || |k| == 1) && DigitsValue(k) < 0xFFFF_FFFF
  }

  /**
   * `Object.keys` of an object whose properties were set in the order
   * `inserted`: array-index keys in ascending numeric order, then the other
   * keys in the order they were first set.
   */
  function ObjectKeys(inserted: seq<string>): (r: seq<string>)
    ensures forall k :: k in r <==> k in inserted
  {
    var d := Dedup(inserted);
    var indices := Filter(d, IsIndexKey);
    var sorted := SortBy(indices, k => DigitsValue(k) as real);
    assert forall k :: k in sorted <==> k in multiset(indices);
    sorted + Filter(d, k => !IsIndexKey(k))
  }

  /** Without array-index keys, `Object.keys` lists the keys once each, in first-insertion order. */
  lemma ObjectKeysOfNames(inserted: seq<string>)
    requires forall i :: 0 <= i < |inserted| ==> !IsIndexKey(inserted[i])
    ensures ObjectKeys(inserted) == Dedup(inserted)
  {
    var d := Dedup(inserted);
    forall i | 0 <= i < |d| ensures !IsIndexKey(d[i]) {
      assert d[i] in d;
      var k :| 0 <= k < |inserted| && inserted[k] == d[i];
    }
    FilterNone(d, IsIndexKey);
    FilterAll(d, k => !IsIndexKey(k));
  }
}
