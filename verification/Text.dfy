/**
 C strings as the sources use them: decimal printing (`%ld`), `strtol` in base 10,
 the splitting that `strtok` performs, and joining.
 */
module Text {

  const LONG_MAX: int := 0x7FFF_FFFF_FFFF_FFFF
  const LONG_MIN: int := -0x8000_0000_0000_0000

  // ---------------------------------------------------------------- decimal numbers

  predicate IsDigit(c: char) { '0' <= c <= '9' }

  predicate AllDigits(s: string) { forall i :: 0 <= i < |s| ==> IsDigit(s[i]) }

  function DigitChar(d: nat): char
    requires d < 10
  {
    ['0', '1', '2', '3', '4', '5', '6', '7', '8', '9'][d]
  }

  function DigitValue(c: char): nat
    requires IsDigit(c)
  {
    c as int - '0' as int
  }

  /** What `%ld` prints for a number that is not negative. */
  function Decimal(n: nat): (s: string)
    ensures AllDigits(s) && s != ""
  {
    if n < 10 then [DigitChar(n)] else Decimal(n / 10) + [DigitChar(n % 10)]
  }

  function DigitsValue(s: string): nat
    requires AllDigits(s)
  {
    if s == "" then 0 else 10 * DigitsValue(s[..|s| - 1]) + DigitValue(s[|s| - 1])
  }

  lemma {:induction false} DecimalReads(n: nat)
    ensures DigitsValue(Decimal(n)) == n
  {
    if n >= 10 {
      DecimalReads(n / 10);
      assert Decimal(n)[..|Decimal(n)| - 1] == Decimal(n / 10);
    } else {
      assert Decimal(n)[..0] == "";
    }
  }

  lemma DecimalInjective(m: nat, n: nat)
    requires Decimal(m) == Decimal(n)
    ensures m == n
  {
    DecimalReads(m);
    DecimalReads(n);
  }

  function Pow10(k: nat): (p: nat)
    ensures p > 0
  {
    if k == 0 then 1 else 10 * Pow10(k - 1)
  }

  /** A number prints in at most `k` digits exactly when it is below 10^k. */
  lemma {:induction false} DecimalLength(n: nat, k: nat)
    requires k >= 1
    ensures |Decimal(n)| <= k <==> n < Pow10(k)
  {
    if n >= 10 && k >= 2 {
      DecimalLength(n / 10, k - 1);
    } else if k == 1 {
      assert Pow10(1) == 10 * Pow10(0);
      if n >= 10 {
        assert |Decimal(n)| == |Decimal(n / 10)| + 1;
      }
    } else {
      assert Pow10(k) == 10 * Pow10(k - 1);
    }
  }

  lemma DivideByTens(n: nat, k: nat)
    requires k > 0
    ensures Pow10(k) == 10 * Pow10(k - 1) && n / 10 / Pow10(k - 1) == n / Pow10(k)
  {
    hide Pow10;
    var p, q := Pow10(k - 1), n / 10 / Pow10(k - 1);
    NextPower(k);
    var r, low := n / 10 % p, n % 10;
    assert n / 10 == q * p + r;
    assert n == q * (10 * p) + (10 * r + low) by {
      assert 10 * (q * p) == q * (10 * p);
    }
    QuotientIs(n, 10 * p, q, 10 * r + low);
  }

  lemma NextPower(k: nat)
    requires k > 0
    ensures Pow10(k) == 10 * Pow10(k - 1)
  {
  }

  lemma QuotientIs(n: nat, p: nat, q: nat, r: nat)
    requires p > 0 && r < p && n == q * p + r
    ensures n / p == q
  {
    var d := n / p;
    assert n == d * p + n % p;
    NoLess(d, q, p, n % p);
    NoLess(q, d, p, r);
  }

  lemma {:induction false} NoLess(a: nat, b: nat, p: nat, r: nat)
    requires r < p && a * p + r >= b * p
    ensures a >= b
  {
    if b > 0 {
      assert b * p == (b - 1) * p + p;
      if a > 0 {
        assert a * p == (a - 1) * p + p;
        NoLess(a - 1, b - 1, p, r);
      }
    }
  }

  /** The printed text is the number, digit by digit from the right, in ASCII. */
  lemma {:induction false} DecimalDigit(n: nat, k: nat)
    requires k < |Decimal(n)|
    ensures Decimal(n)[|Decimal(n)| - 1 - k] as int == 48 + n / Pow10(k) % 10
  {
    var d := ['0', '1', '2', '3', '4', '5', '6', '7', '8', '9'];
    assert forall i :: 0 <= i < 10 ==> d[i] as int == 48 + i;
    if k == 0 {
      assert n / Pow10(0) == n;
    } else {
      DecimalDigit(n / 10, k - 1);
      DivideByTens(n, k);
    }
  }

  // ---------------------------------------------------------------- strtol, base 10

  predicate IsSpace(c: char) { c == ' ' || 9 as char <= c <= 13 as char }

  function SkipSpace(s: string): string {
    if s != "" && IsSpace(s[0]) then SkipSpace(s[1..]) else s
  }

  /** The longest prefix made of digits. */
  function LeadingDigits(s: string): (d: string)
    ensures AllDigits(d) && d <= s
    ensures |d| < |s| ==> !IsDigit(s[|d|])
  {
    if s != "" && IsDigit(s[0]) then [s[0]] + LeadingDigits(s[1..]) else ""
  }

  function Clamp(v: int): int {
    if v > LONG_MAX then LONG_MAX else if v < LONG_MIN then LONG_MIN else v
  }

  function Strtol(s: string): int {
    var t := SkipSpace(s);
    if t != "" && t[0] == '-' then Clamp(-(DigitsValue(LeadingDigits(t[1..])) as int))
    else if t != "" && t[0] == '+' then Clamp(DigitsValue(LeadingDigits(t[1..])))
    else Clamp(DigitsValue(LeadingDigits(t)))
  }

  lemma {:induction false} LeadingDigitsOfDigits(s: string)
    requires AllDigits(s)
    ensures LeadingDigits(s) == s
  {
    if s != "" {
      LeadingDigitsOfDigits(s[1..]);
    }
  }

  /** A leading zero changes nothing. */
  lemma {:induction false} LeadingZero(s: string)
    requires AllDigits(s)
    ensures AllDigits("0" + s) && DigitsValue("0" + s) == DigitsValue(s)
  {
    if s == "" {
      assert ("0" + s)[..0] == "";
    } else {
      LeadingZero(s[..|s| - 1]);
      assert ("0" + s)[..|s|] == "0" + s[..|s| - 1];
    }
  }

  /** The white space of C. */
  predicate Blank(w: string) {
    forall i :: 0 <= i < |w| ==> w[i] == ' ' || w[i] == '\t' || w[i] == '\n' || w[i] == '\r' || 11 <= w[i] as int <= 12
  }

  lemma {:induction false} SkipBlank(w: string, t: string)
    requires Blank(w)
    ensures SkipSpace(w + t) == SkipSpace(t)
  {
    if w == "" {
      assert w + t == t;
    } else {
      assert (w + t)[1..] == w[1..] + t;
      SkipBlank(w[1..], t);
    }
  }

  lemma {:induction false} LeadingDigitsStop(d: string, rest: string)
    requires AllDigits(d) && (rest == "" || !IsDigit(rest[0]))
    ensures LeadingDigits(d + rest) == d
  {
    if d == "" {
      assert d + rest == rest;
    } else {
      assert (d + rest)[1..] == d[1..] + rest;
      LeadingDigitsStop(d[1..], rest);
    }
  }

  /** `strtol` skips white space, takes a sign and all the digits, stops at the next character, and saturates. */
  lemma StrtolReads(w: string, sign: string, d: string, rest: string)
    requires Blank(w) && sign in {"", "+", "-"} && AllDigits(d) && d != "" && (rest == "" || !IsDigit(rest[0]))
    ensures var v := if sign == "-" then -(DigitsValue(d) as int) else DigitsValue(d);
      Strtol(w + (sign + d + rest))
      == if v > 9223372036854775807 then 9223372036854775807
         else if v < -9223372036854775808 then -9223372036854775808 else v
  {
    hide LeadingDigits, DigitsValue;
    var t := sign + d + rest;
    SkipBlank(w, t);
    LeadingDigitsStop(d, rest);
    assert IsDigit(d[0]);
    if sign == "" {
      assert t == d + rest && t[0] == d[0];
    } else {
      assert t[0] == sign[0] && t[1..] == d + rest;
    }
    assert SkipSpace(t) == t;
  }

  /** A text that does not start with a number reads as zero. */
  lemma StrtolWithout(w: string, t: string)
    requires Blank(w) && (t != "" ==> !IsSpace(t[0]) && !IsDigit(t[0]))
    requires |t| > 1 && (t[0] == '-' || t[0] == '+') ==> !IsDigit(t[1])
    ensures Strtol(w + t) == 0
  {
    SkipBlank(w, t);
    if t != "" {
      assert SkipSpace(t) == t;
      assert LeadingDigits(t[1..]) == "" || IsDigit(t[1]);
    }
  }

  /** `strtol` reads back what `%ld` printed, over the whole non-negative range of a long. */
  lemma StrtolReadsDecimal(n: nat)
    requires n <= LONG_MAX
    ensures Strtol(Decimal(n)) == n
  {
    var s := Decimal(n);
    assert IsDigit(s[0]);
    assert SkipSpace(s) == s;
    LeadingDigitsOfDigits(s);
    DecimalReads(n);
  }

  // ---------------------------------------------------------------- strtok

  /** The length of the longest prefix without the delimiter. */
  function RunLength(s: string, d: char): (n: nat)
    ensures n <= |s| && d !in s[..n]
    ensures n < |s| ==> s[n] == d
    ensures s != "" && s[0] != d ==> n > 0
  {
    if s == "" || s[0] == d then 0
    else
      var n := 1 + RunLength(s[1..], d);
      assert s[..n] == [s[0]] + s[1..][..n - 1];
      n
  }

  /** The non-empty maximal delimiter-free runs of `s`, in order. */
  function Tokens(s: string, d: char): (ts: seq<string>)
    ensures forall i :: 0 <= i < |ts| ==> ts[i] != "" && d !in ts[i]
    decreases |s|
  {
    if s == "" then []
    else if s[0] == d then Tokens(s[1..], d)
    else
      var n := RunLength(s, d);
      [s[..n]] + Tokens(s[n..], d)
  }

  function Join(ts: seq<string>, d: char): string {
    if ts == [] then "" else if |ts| == 1 then ts[0] else ts[0] + [d] + Join(ts[1..], d)
  }

  lemma {:induction false} RunLengthOf(a: string, rest: string, d: char)
    requires d !in a
    requires rest == "" || rest[0] == d
    ensures RunLength(a + rest, d) == |a|
  {
    if a == "" {
      assert a + rest == rest;
    } else {
      RunLengthOf(a[1..], rest, d);
      assert (a + rest)[1..] == a[1..] + rest;
    }
  }

  /** A delimiter-free prefix before a delimiter is the first token. */
  lemma TokensCons(a: string, rest: string, d: char)
    requires a != "" && d !in a
    ensures Tokens(a + [d] + rest, d) == [a] + Tokens(rest, d)
  {
    var s := a + [d] + rest;
    assert s == a + ([d] + rest);
    RunLengthOf(a, [d] + rest, d);
    assert s[0] == a[0];
    assert s[..|a|] == a;
    assert s[|a|..] == [d] + rest;
    assert ([d] + rest)[1..] == rest;
  }

  lemma TokensSingle(a: string, d: char)
    requires a != "" && d !in a
    ensures Tokens(a, d) == [a]
  {
    assert a + "" == a;
    RunLengthOf(a, "", d);
    assert a[..|a|] == a && a[|a|..] == "";
  }

  lemma ConcatAfterRun(a: string, z: string, y: string, d: char)
    requires a != "" && d !in a
    requires Tokens(z + [d] + y, d) == Tokens(z, d) + Tokens(y, d)
    ensures Tokens(a + [d] + z + [d] + y, d) == Tokens(a + [d] + z, d) + Tokens(y, d)
  {
    hide Tokens;
    TokensCons(a, z, d);
    TokensCons(a, z + [d] + y, d);
    assert a + [d] + (z + [d] + y) == a + [d] + z + [d] + y;
  }

  /** A text and a text after a delimiter are split independently. */
  lemma {:induction false} TokensConcat(x: string, y: string, d: char)
    ensures Tokens(x + [d] + y, d) == Tokens(x, d) + Tokens(y, d)
    decreases |x|
  {
    if x == "" {
      assert (x + [d] + y)[1..] == y;
    } else if x[0] == d {
      assert (x + [d] + y)[1..] == x[1..] + [d] + y;
      TokensConcat(x[1..], y, d);
    } else {
      var n := RunLength(x, d);
      if n == |x| {
        assert x[..n] == x;
        TokensSingle(x, d);
        TokensCons(x, y, d);
      } else {
        TokensConcat(x[n + 1..], y, d);
        ConcatAfterRun(x[..n], x[n + 1..], y, d);
        assert x == x[..n] + [d] + x[n + 1..];
      }
    }
  }

  /** Splitting undoes joining. */
  lemma {:induction false} TokensOfJoin(ts: seq<string>, d: char)
    requires forall i :: 0 <= i < |ts| ==> ts[i] != "" && d !in ts[i]
    ensures Tokens(Join(ts, d), d) == ts
  {
    if |ts| == 1 {
      TokensSingle(ts[0], d);
    } else if |ts| > 1 {
      TokensOfJoin(ts[1..], d);
      TokensCons(ts[0], Join(ts[1..], d), d);
      assert ts == [ts[0]] + ts[1..];
    }
  }

  function Without(s: string, d: char): string {
    if s == "" then "" else (if s[0] == d then "" else [s[0]]) + Without(s[1..], d)
  }

  function Flatten(ts: seq<string>): string {
    if ts == [] then "" else ts[0] + Flatten(ts[1..])
  }

  lemma {:induction false} WithoutRun(a: string, rest: string, d: char)
    requires d !in a
    ensures Without(a + rest, d) == a + Without(rest, d)
  {
    if a == "" {
      assert a + rest == rest;
    } else {
      WithoutRun(a[1..], rest, d);
      assert (a + rest)[1..] == a[1..] + rest;
      assert a == [a[0]] + a[1..];
      calc {
        Without(a + rest, d);
        [a[0]] + Without(a[1..] + rest, d);
        [a[0]] + (a[1..] + Without(rest, d));
        a + Without(rest, d);
      }
    }
  }

  /** Splitting loses nothing but delimiters. */
  lemma {:induction false} TokensFlatten(s: string, d: char)
    ensures Flatten(Tokens(s, d)) == Without(s, d)
    decreases |s|
  {
    if s == "" {
    } else if s[0] == d {
      TokensFlatten(s[1..], d);
    } else {
      var n := RunLength(s, d);
      TokensFlatten(s[n..], d);
      assert s == s[..n] + s[n..];
      WithoutRun(s[..n], s[n..], d);
      var ts := [s[..n]] + Tokens(s[n..], d);
      assert ts[1..] == Tokens(s[n..], d);
    }
  }
}
