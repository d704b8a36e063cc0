/**
 * The pieces of Python's string handling the scanner relies on: `str.strip()`,
 * `str.replace(c, '')`, and `int()` / `float()` applied to decimal text.
 */
module Text {
  import opened Wrappers

  /** The ASCII characters Python's `str.isspace()` accepts. */
  predicate IsSpace(c: char) {
    c == ' ' || c == '\t' || c == '\n' || c == '\r' || c == '\U{B}' || c == '\U{C}'
    || ('\U{1C}' <= c <= '\U{1F}')
  }

  predicate AllSpace(s: string) {
    forall i :: 0 <= i < |s| ==> IsSpace(s[i])
  }

  /** `s.lstrip()`: the suffix of `s` left after dropping leading whitespace. */
  function TrimStart(s: string): string {
    if s != [] && IsSpace(s[0]) then TrimStart(s[1..]) else s
  }

  /** `s.rstrip()`: the prefix of `s` left after dropping trailing whitespace. */
  function TrimEnd(s: string): string {
    if s != [] && IsSpace(s[|s| - 1]) then TrimEnd(s[..|s| - 1]) else s
  }

  /** `s.strip()`: `s` without its leading and trailing whitespace. */
  function Strip(s: string): string {
    TrimEnd(TrimStart(s))
  }

  /** What `lstrip()` leaves: a suffix, after only whitespace, that does not start with whitespace. */
  lemma {:induction false} TrimStartSuffix(s: string)
    ensures |TrimStart(s)| <= |s| && TrimStart(s) == s[|s| - |TrimStart(s)|..]
    ensures AllSpace(s[..|s| - |TrimStart(s)|])
    ensures TrimStart(s) == [] || !IsSpace(TrimStart(s)[0])
  {
    if s != [] && IsSpace(s[0]) {
      TrimStartSuffix(s[1..]);
      var r := TrimStart(s[1..]);
      assert s[..|s| - |r|] == [s[0]] + s[1..][..|s| - 1 - |r|];
    }
  }

  /** What `rstrip()` leaves: a prefix, before only whitespace, that does not end with whitespace. */
  lemma {:induction false} TrimEndPrefix(s: string)
    ensures |TrimEnd(s)| <= |s| && TrimEnd(s) == s[..|TrimEnd(s)|]
    ensures AllSpace(s[|TrimEnd(s)|..])
    ensures TrimEnd(s) == [] || !IsSpace(TrimEnd(s)[|TrimEnd(s)| - 1])
  {
    if s != [] && IsSpace(s[|s| - 1]) {
      var s' := s[..|s| - 1];
      TrimEndPrefix(s');
      var r := TrimEnd(s');
      assert s[|r|..] == s'[|r|..] + [s[|s| - 1]];
    }
  }

  /** `strip()` leaves text that neither starts nor ends with whitespace. */
  lemma StripTrims(s: string)
    ensures |Strip(s)| <= |s|
    ensures Strip(s) == [] || (!IsSpace(Strip(s)[0]) && !IsSpace(Strip(s)[|Strip(s)| - 1]))
  {
    TrimStartSuffix(s);
    var t := TrimStart(s);
    TrimEndPrefix(t);
    if Strip(s) != [] {
      assert Strip(s)[0] == t[0];
    }
  }

  /** Text that neither starts nor ends with whitespace is its own strip. */
  lemma StripUnpadded(s: string)
    requires s == [] || (!IsSpace(s[0]) && !IsSpace(s[|s| - 1]))
    ensures Strip(s) == s
  {
    assert TrimStart(s) == s;
  }

  /** `s.replace(c, '')`: `s` with every occurrence of `c` removed. */
  function RemoveChar(s: string, c: char): string {
    if s == [] then []
    else (if s[0] == c then [] else [s[0]]) + RemoveChar(s[1..], c)
  }

  lemma {:induction false} RemoveCharAppend(a: string, b: string, c: char)
    ensures RemoveChar(a + b, c) == RemoveChar(a, c) + RemoveChar(b, c)
  {
    if a != [] {
      assert (a + b)[1..] == a[1..] + b;
      RemoveCharAppend(a[1..], b, c);
    } else {
      assert a + b == b;
    }
  }

  /** `replace(c, '')` removes every `c` and adds nothing. */
  lemma {:induction false} RemoveCharRemoves(s: string, c: char)
    ensures |RemoveChar(s, c)| <= |s|
    ensures c !in RemoveChar(s, c)
    ensures forall x :: x in RemoveChar(s, c) ==> x in s
  {
    if s != [] {
      RemoveCharRemoves(s[1..], c);
      assert forall x :: x in s[1..] ==> x in s;
    }
  }

  /** Text without `c` is left alone by `replace(c, '')`. */
  lemma {:induction false} RemoveCharAbsent(s: string, c: char)
    requires c !in s
    ensures RemoveChar(s, c) == s
  {
    if s != [] {
      assert s == [s[0]] + s[1..];
      RemoveCharAbsent(s[1..], c);
    }
  }

  /** Inserting one more `c` anywhere does not change what `replace(c, '')` leaves. */
  lemma RemoveCharIgnoresInserted(a: string, b: string, c: char)
    ensures RemoveChar(a + [c] + b, c) == RemoveChar(a + b, c)
  {
    RemoveCharAppend(a + [c], b, c);
    RemoveCharAppend(a, [c], c);
    RemoveCharAppend(a, b, c);
  }

  predicate IsDigit(c: char) {
    '0' <= c <= '9'
  }

  predicate AllDigits(s: string) {
    forall i :: 0 <= i < |s| ==> IsDigit(s[i])
  }

  function DigitValue(c: char): (d: nat)
    requires IsDigit(c)
    ensures d < 10
  {
    c as int - '0' as int
  }

  function DigitChar(d: nat): (c: char)
    requires d < 10
    ensures IsDigit(c) && DigitValue(c) == d
  {
    ('0' as int + d) as char
  }

  /** The value of a string of decimal digits, most significant first ("" is 0). */
  function NatValue(s: string): nat
    requires AllDigits(s)
  {
    if s == [] then 0 else NatValue(s[..|s| - 1]) * 10 + DigitValue(s[|s| - 1])
  }

  /** The canonical decimal rendering of `n`, as `str(n)` gives it. */
  function NatToDigits(n: nat): (r: string)
    ensures |r| >= 1 && AllDigits(r)
    ensures n >= 10 ==> r[0] != '0'
  {
    if n < 10 then [DigitChar(n)] else NatToDigits(n / 10) + [DigitChar(n % 10)]
  }

  lemma {:induction false} NatToDigitsValue(n: nat)
    ensures NatValue(NatToDigits(n)) == n
  {
    if n >= 10 {
      var r := NatToDigits(n);
      assert r[..|r| - 1] == NatToDigits(n / 10);
      NatToDigitsValue(n / 10);
    }
  }

  /** The index of the first `c` in `s`, or `|s|` when there is none. */
  function IndexOf(s: string, c: char): (k: nat)
    ensures k <= |s|
    ensures c !in s[..k]
    ensures k < |s| ==> s[k] == c
  {
    if s == [] then 0
    else if s[0] == c then 0
    else
      var k := 1 + IndexOf(s[1..], c);
      assert s[..k] == [s[0]] + s[1..][..k - 1];
      k
  }

  /** Whether the text starts with a `+` or `-` sign. */
  predicate Signed(t: string) {
    |t| > 0 && (t[0] == '+' || t[0] == '-')
  }

  /** The text after its sign, if it has one. */
  function Unsigned(t: string): string {
    if Signed(t) then t[1..] else t
  }

  /**
   * Python's `int(s)` on decimal text: surrounding whitespace, an optional
   * sign, then one or more digits; anything else raises `ValueError`, which
   * is `None` here.
   */
  function ParseInt(s: string): Option<int> {
    IntLiteral(Strip(s))
  }

  /** An optional sign followed by one or more digits. */
  function IntLiteral(t: string): Option<int> {
    var body := Unsigned(t);
    if |body| > 0 && AllDigits(body) then
      var magnitude: int := NatValue(body);
      Some(if Signed(t) && t[0] == '-' then -magnitude else magnitude)
    else None
  }

  /** The value of the digits after a decimal point: "25" is 0.25, "" is 0. */
  function FractionValue(f: string): (v: real)
    requires AllDigits(f)
    ensures 0.0 <= v < 1.0
  {
    if f == [] then 0.0 else (DigitValue(f[0]) as real + FractionValue(f[1..])) / 10.0
  }

  /** Digits, optionally one `.` and more digits, at least one digit in all. */
  function UnsignedDecimal(body: string): Option<real> {
    var k := IndexOf(body, '.');
    if k == |body| then
      if |body| > 0 && AllDigits(body) then Some(NatValue(body) as real) else None
    else
      var whole := body[..k];
      var fraction := body[k + 1..];
      if AllDigits(whole) && AllDigits(fraction) && |whole| + |fraction| > 0 then
        Some(NatValue(whole) as real + FractionValue(fraction))
      else None
  }

  /**
   * Python's `float(s)` on plain decimal notation (`12`, `-3.5`, `.5`, `7.`),
   * with surrounding whitespace allowed; anything else raises `ValueError`,
   * which is `None` here.
   */
  function ParseFloat(s: string): Option<real> {
    DecimalLiteral(Strip(s))
  }

  /** An optional sign followed by an unsigned decimal. */
  function DecimalLiteral(t: string): Option<real> {
    match UnsignedDecimal(Unsigned(t))
    case None => None
    case Some(v) => Some(if Signed(t) && t[0] == '-' then -v else v)
  }

  /** On text without surrounding whitespace `int()` reads the literal itself. */
  lemma ParseIntUnpadded(s: string)
    requires s == [] || (!IsSpace(s[0]) && !IsSpace(s[|s| - 1]))
    ensures ParseInt(s) == IntLiteral(s)
  {
    StripUnpadded(s);
  }

  /** On text without surrounding whitespace `float()` reads the literal itself. */
  lemma ParseFloatUnpadded(s: string)
    requires s == [] || (!IsSpace(s[0]) && !IsSpace(s[|s| - 1]))
    ensures ParseFloat(s) == DecimalLiteral(s)
  {
    StripUnpadded(s);
  }

  lemma DigitsHaveNoDot(s: string)
    requires AllDigits(s)
    ensures '.' !in s && IndexOf(s, '.') == |s|
  {
  }

  /** Digits without a point read as their value. */
  lemma UnsignedDigits(d: string)
    requires |d| > 0 && AllDigits(d)
    ensures UnsignedDecimal(d) == Some(NatValue(d) as real)
  {
    DigitsHaveNoDot(d);
  }

  lemma DigitLiterals(d: string)
    requires |d| > 0 && AllDigits(d)
    ensures IntLiteral(d) == Some(NatValue(d) as int)
    ensures DecimalLiteral(d) == Some(NatValue(d) as real)
  {
    assert IsDigit(d[0]);
    UnsignedDigits(d);
  }

  lemma ParseDigits(d: string)
    requires |d| > 0 && AllDigits(d)
    ensures ParseInt(d) == Some(NatValue(d) as int)
    ensures ParseFloat(d) == Some(NatValue(d) as real)
  {
    assert IsDigit(d[0]) && IsDigit(d[|d| - 1]);
    ParseIntUnpadded(d);
    ParseFloatUnpadded(d);
    DigitLiterals(d);
  }

  /** `int(str(n)) == n` and `float(str(n)) == n`. */
  lemma ParseRoundTrip(n: nat)
    ensures ParseInt(NatToDigits(n)) == Some(n as int)
    ensures ParseFloat(NatToDigits(n)) == Some(n as real)
  {
    ParseDigits(NatToDigits(n));
    NatToDigitsValue(n);
  }

  /** A minus sign before digits negates their value, for `int()`. */
  lemma NegativeIntLiteral(d: string)
    requires |d| > 0 && AllDigits(d)
    ensures IntLiteral("-" + d) == Some(-(NatValue(d) as int))
  {
    assert Unsigned("-" + d) == d;
  }

  /** A minus sign before an unsigned decimal negates its value. */
  lemma NegatedLiteral(u: string, v: real)
    requires UnsignedDecimal(u) == Some(v)
    ensures DecimalLiteral("-" + u) == Some(-v)
  {
    assert Unsigned("-" + u) == u;
  }

  /** Text that starts with a digit has no sign: its value is that of the unsigned decimal. */
  lemma UnsignedLiteral(t: string)
    requires |t| > 0 && IsDigit(t[0])
    ensures DecimalLiteral(t) == UnsignedDecimal(t)
  {
  }

  /** `int("-" + str(n)) == -n` and `float("-" + str(n)) == -n`. */
  lemma ParseNegativeRoundTrip(n: nat)
    ensures ParseInt("-" + NatToDigits(n)) == Some(-(n as int))
    ensures ParseFloat("-" + NatToDigits(n)) == Some(-(n as real))
  {
    var d := NatToDigits(n);
    NatToDigitsValue(n);
    NegativeIntText(d, n);
    PrintedDecimal(n);
    NegativeFloatText(d, n as real);
  }

  /** The printed natural read as an unsigned decimal. */
  lemma PrintedDecimal(n: nat)
    ensures UnsignedDecimal(NatToDigits(n)) == Some(n as real)
  {
    UnsignedDigits(NatToDigits(n));
    NatToDigitsValue(n);
  }

  /** `int("-" + d)` negates the value `n` of the digits `d`. */
  lemma NegativeIntText(d: string, n: nat)
    requires |d| > 0 && AllDigits(d) && NatValue(d) == n
    ensures ParseInt("-" + d) == Some(-(n as int))
  {
    NegativeUnpadded(d);
    ParseIntUnpadded("-" + d);
    NegativeIntLiteral(d);
  }

  /** `float("-" + d)` negates the value of the unsigned decimal `d`. */
  lemma NegativeFloatText(d: string, v: real)
    requires |d| > 0 && AllDigits(d) && UnsignedDecimal(d) == Some(v)
    ensures ParseFloat("-" + d) == Some(-v)
  {
    NegativeUnpadded(d);
    ParseFloatUnpadded("-" + d);
    NegatedLiteral(d, v);
  }

  lemma NegativeUnpadded(d: string)
    requires |d| > 0 && AllDigits(d)
    ensures !IsSpace(("-" + d)[0]) && !IsSpace(("-" + d)[|d|])
  {
    assert ("-" + d)[|d|] == d[|d| - 1] && IsDigit(d[|d| - 1]);
  }

  /** Where `int(s)` succeeds, `float(s)` succeeds with the same value. */
  lemma ParseFloatAgreesWithParseInt(s: string)
    requires ParseInt(s).Some?
    ensures ParseFloat(s) == Some(ParseInt(s).value as real)
  {
    var body := Unsigned(Strip(s));
    DigitsHaveNoDot(body);
  }

  /** `float(str(w) + "." + f)` is `w` plus the fraction the digits `f` spell. */
  lemma ParseFloatDecimal(w: nat, f: string)
    requires AllDigits(f)
    ensures ParseFloat(NatToDigits(w) + "." + f) == Some(w as real + FractionValue(f))
  {
    ParseDecimalText(NatToDigits(w), f);
    NatToDigitsValue(w);
  }

  lemma ParseDecimalText(d: string, f: string)
    requires |d| > 0 && AllDigits(d) && AllDigits(f)
    ensures ParseFloat(d + "." + f) == Some(NatValue(d) as real + FractionValue(f))
  {
    var t := d + "." + f;
    assert IsDigit(t[0]);
    assert t[|t| - 1] == if f == [] then '.' else f[|f| - 1];
    ParseFloatUnpadded(t);
    DecimalLiteralParts(d, f);
  }

  lemma DecimalLiteralParts(d: string, f: string)
    requires |d| > 0 && AllDigits(d) && AllDigits(f)
    ensures DecimalLiteral(d + "." + f) == Some(NatValue(d) as real + FractionValue(f))
  {
    var t := d + "." + f;
    UnsignedDecimalParts(d, f);
    assert t[0] == d[0];
    UnsignedLiteral(t);
  }

  lemma UnsignedDecimalParts(d: string, f: string)
    requires |d| > 0 && AllDigits(d) && AllDigits(f)
    ensures UnsignedDecimal(d + "." + f) == Some(NatValue(d) as real + FractionValue(f))
  {
    DigitsHaveNoDot(d);
    DotSplit(d, f);
    UnsignedDecimalAt(d + "." + f, |d|, NatValue(d), FractionValue(f));
  }

  /** In `d + "." + f` with no `.` in `d`, the first `.` separates `d` from `f`. */
  lemma DotSplit(d: string, f: string)
    requires '.' !in d
    ensures IndexOf(d + "." + f, '.') == |d|
    ensures (d + "." + f)[..|d|] == d && (d + "." + f)[|d| + 1..] == f
  {
    IndexOfAfter(d, f);
    var t := d + "." + f;
    assert t[..|d|] == d && t[|d| + 1..] == f;
  }

  /** A body whose first `.` is at `k` and whose `j`-th character after it is not a digit is not a decimal. */
  lemma UnsignedDecimalBadFraction(body: string, k: nat, j: nat)
    requires k + 1 + j < |body| && IndexOf(body, '.') == k && !IsDigit(body[k + 1 + j])
    ensures UnsignedDecimal(body) == None
  {
    assert body[k + 1..][j] == body[k + 1 + j];
  }

  /** The first `c` is at `k` when `s[k]` is `c` and no earlier character is. */
  lemma {:induction false} IndexOfAt(s: string, c: char, k: nat)
    requires k < |s| && s[k] == c && forall i :: 0 <= i < k ==> s[i] != c
    ensures IndexOf(s, c) == k
  {
    if k > 0 {
      IndexOfAt(s[1..], c, k - 1);
    }
  }

  /** A body whose first `.` is at `k`, with digits on both sides, reads as whole plus fraction. */
  lemma UnsignedDecimalAt(body: string, k: nat, w: nat, fraction: real)
    requires k < |body| && IndexOf(body, '.') == k
    requires AllDigits(body[..k]) && AllDigits(body[k + 1..]) && |body| > 1
    requires NatValue(body[..k]) == w && FractionValue(body[k + 1..]) == fraction
    ensures UnsignedDecimal(body) == Some(w as real + fraction)
  {
  }

  lemma {:induction false} IndexOfAfter(d: string, f: string)
    requires '.' !in d
    ensures IndexOf(d + "." + f, '.') == |d|
  {
    if d != [] {
      assert (d + "." + f)[1..] == d[1..] + "." + f;
      IndexOfAfter(d[1..], f);
    }
  }

  /** `float("")` raises: empty text never parses. */
  lemma ParseEmptyFails()
    ensures ParseFloat("") == None && ParseInt("") == None
  {
    assert Strip("") == "";
  }
}
