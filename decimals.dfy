/**
 * Exact decimals standing in for Python's `decimal.Decimal`: the string
 * syntax `Decimal(s)` accepts, truncation by `int(...)`, exact comparison
 * with an integer, and the plain rendering `format_satoshis_plain` gives a
 * satoshi amount. Powers of ten are written with `Shift`, so that every
 * proof stays in linear arithmetic.
 */
module Decimals {
  import opened Wrappers
  import opened Text

  /** Satoshis per bitcoin (`bitcoin.COIN`). */
  const Coin: nat := 100000000

  /** `a * 10^k`. */
  function Shift(a: int, k: nat): int {
    if k == 0 then a else 10 * Shift(a, k - 1)
  }

  lemma {:induction false} ShiftAdd(a: int, b: int, k: nat)
    ensures Shift(a + b, k) == Shift(a, k) + Shift(b, k)
  {
    if k > 0 { ShiftAdd(a, b, k - 1); }
  }

  lemma {:induction false} ShiftNeg(a: int, k: nat)
    ensures Shift(-a, k) == -Shift(a, k)
  {
    if k > 0 { ShiftNeg(a, k - 1); }
  }

  lemma {:induction false} ShiftCompose(a: int, j: nat, k: nat)
    ensures Shift(Shift(a, j), k) == Shift(a, j + k)
  {
    if k > 0 { ShiftCompose(a, j, k - 1); }
  }

  /** Scaling by a power of ten keeps the sign, and grows a positive number. */
  lemma {:induction false} ShiftSign(c: int, k: nat)
    ensures c > 0 ==> Shift(c, k) >= c
    ensures c == 0 ==> Shift(c, k) == 0
    ensures c < 0 ==> Shift(c, k) < 0
  {
    if k > 0 { ShiftSign(c, k - 1); }
  }

  /** Scaling by a power of ten is strictly monotone. */
  lemma ShiftMonotone(a: int, b: int, k: nat)
    ensures a < b <==> Shift(a, k) < Shift(b, k)
  {
    ShiftAdd(b - a, a, k);
    ShiftSign(b - a, k);
  }

  lemma ShiftEight(a: int)
    ensures Shift(a, 8) == a * Coin
  {
    assert Shift(a, 1) == 10 * a;
    assert Shift(a, 2) == 100 * a;
    assert Shift(a, 3) == 1000 * a;
    assert Shift(a, 4) == 10000 * a;
    assert Shift(a, 5) == 100000 * a;
    assert Shift(a, 6) == 1000000 * a;
    assert Shift(a, 7) == 10000000 * a;
  }

  /** The number `mant * 10^exp`, exactly. */
  datatype Dec = Dec(mant: int, exp: int)

  /** What `Decimal(s)` constructs: a finite number, an infinity or a NaN. */
  datatype DecimalValue = Finite(d: Dec) | Infinity(negative: bool) | NaN(signaling: bool)

  function DigitVal(c: char): nat
    requires IsDigit(c)
  {
    c as int - '0' as int
  }

  function DigitChar(d: nat): (c: char)
    requires d < 10
    ensures IsDigit(c) && DigitVal(c) == d
  {
    ('0' as int + d) as char
  }

  /** The value of a string of decimal digits. */
  function DigitsValue(ds: string): nat
    requires AllDigits(ds)
  {
    if ds == [] then 0 else DigitsValue(ds[..|ds| - 1]) * 10 + DigitVal(ds[|ds| - 1])
  }

  lemma AllDigitsConcat(a: string, b: string)
    requires AllDigits(a) && AllDigits(b)
    ensures AllDigits(a + b)
  {
    forall i | 0 <= i < |a + b| ensures IsDigit((a + b)[i]) {
      if i < |a| { assert (a + b)[i] == a[i]; } else { assert (a + b)[i] == b[i - |a|]; }
    }
  }

  /** Digits written after `a` shift its value left by one place per digit. */
  lemma {:induction false} DigitsValueConcat(a: string, b: string)
    requires AllDigits(a) && AllDigits(b)
    ensures AllDigits(a + b) && DigitsValue(a + b) == Shift(DigitsValue(a), |b|) + DigitsValue(b)
  {
    AllDigitsConcat(a, b);
    if b != [] {
      var b' := b[..|b| - 1];
      assert (a + b)[..|a + b| - 1] == a + b';
      assert (a + b)[|a + b| - 1] == b[|b| - 1];
      DigitsValueConcat(a, b');
    } else {
      assert a + b == a;
    }
  }

  /**
   * `Decimal(s)`: surrounding whitespace is ignored; then an optional sign and
   * either `Inf`/`Infinity`, `NaN`/`sNaN` with optional digits, or
   * digits with at most one point (at least one digit) and an optional
   * exponent `e`/`E`, optional sign, digits. Case does not matter.
   * `None` is the `InvalidOperation` that any other text raises.
   */
  function ParseDecimal(s: string): Option<DecimalValue> {
    ParseSignedText(Strip(s))
  }

  /** Stripped text: an optional sign, then the rest. */
  function ParseSignedText(t: string): Option<DecimalValue> {
    var signed := t != [] && (t[0] == '+' || t[0] == '-');
    ParseBody(signed && t[0] == '-', if signed then t[1..] else t)
  }

  function Negate(neg: bool, d: Dec): Dec {
    if neg then Dec(-d.mant, d.exp) else d
  }

  /**
   * The text after the sign. A number starts with a digit or a point; any
   * other text can only be one of the special words.
   */
  function ParseBody(neg: bool, body: string): Option<DecimalValue> {
    if body != [] && (IsDigit(body[0]) || body[0] == '.') then SignedFinite(neg, ParseUnsigned(body))
    else SpecialValue(neg, Lower(body))
  }

  /** A finite value with its sign, when the unsigned part reads. */
  function SignedFinite(neg: bool, u: Option<Dec>): Option<DecimalValue> {
    match u
    case None => None
    case Some(d) => Some(Finite(Negate(neg, d)))
  }

  /** `Inf`, `Infinity`, `NaN` and `sNaN` (with optional digits after a NaN), in any case. */
  function SpecialValue(neg: bool, low: string): Option<DecimalValue> {
    if low == "inf" || low == "infinity" then Some(Infinity(neg))
    else if StartsWith(low, "nan") && AllDigits(low[3..]) then Some(NaN(false))
    else if StartsWith(low, "snan") && AllDigits(low[4..]) then Some(NaN(true))
    else None
  }

  /** The unsigned part `digits [. digits] [e [sign] digits]`. */
  function ParseUnsigned(b: string): Option<Dec> {
    var low := Lower(b);
    var i := if 'e' in low then IndexOf(low, 'e') else |b|;
    ParseMantissa(b[..i], if i < |b| then ParseExponent(b[i + 1..]) else Some(0))
  }

  /** `digits [. digits]` scaled by the exponent already read. */
  function ParseMantissa(mpart: string, expo: Option<int>): Option<Dec> {
    if expo.None? then None
    else if '.' in mpart then
      var i := IndexOf(mpart, '.');
      ParsePointed(mpart[..i], mpart[i + 1..], expo.value)
    else if AllDigits(mpart) && |mpart| >= 1 then Some(Dec(DigitsValue(mpart), expo.value))
    else None
  }

  /** Digits before and after the point; at least one digit in all. */
  function ParsePointed(whole: string, frac: string, e: int): Option<Dec> {
    if AllDigits(whole + frac) && |whole| + |frac| >= 1 then
      Some(Dec(DigitsValue(whole + frac), e - |frac|))
    else None
  }

  function ParseExponent(e: string): Option<int> {
    var neg := e != [] && e[0] == '-';
    var ds := if e != [] && (e[0] == '+' || e[0] == '-') then e[1..] else e;
    if AllDigits(ds) && |ds| >= 1 then
      var v: int := DigitsValue(ds);
      Some(if neg then -v else v)
    else None
  }

  /** `d * 10^k`, exactly. */
  function Scale(d: Dec, k: int): Dec {
    Dec(d.mant, d.exp + k)
  }

  function Abs(x: int): nat { if x < 0 then -x else x }

  /** Integer division by ten, truncated toward zero. */
  function Quot10(m: int): (q: int)
    ensures Abs(q) == Abs(m) / 10
    ensures (q < 0 ==> m < 0) && (m >= 0 ==> q >= 0) && (m < 0 ==> q <= 0)
  {
    if m >= 0 then m / 10 else -((-m) / 10)
  }

  /** `int(d)`: the integer part, truncated toward zero (not floored), one digit at a time. */
  function Truncate(d: Dec): int
    decreases if d.exp < 0 then -d.exp else 0
  {
    if d.exp >= 0 then Shift(d.mant, d.exp) else Truncate(Dec(Quot10(d.mant), d.exp + 1))
  }

  /** Truncation keeps the sign and drops less than one unit of magnitude. */
  lemma {:induction false} TruncateBounds(d: Dec)
    requires d.exp < 0
    ensures var n := Truncate(d);
      (n < 0 ==> d.mant < 0) && (d.mant >= 0 ==> n >= 0) && (d.mant < 0 ==> n <= 0) &&
      Shift(Abs(n), -d.exp) <= Abs(d.mant) < Shift(Abs(n) + 1, -d.exp)
    decreases -d.exp
  {
    var d' := Dec(Quot10(d.mant), d.exp + 1);
    if d'.exp < 0 {
      TruncateBounds(d');
      ShiftSign(Abs(Truncate(d')), -d'.exp);
    } else {
      var q := Quot10(d.mant);
      assert Truncate(d) == q;
      assert Shift(Abs(q), 1) == 10 * Abs(q) && Shift(Abs(q) + 1, 1) == 10 * (Abs(q) + 1);
    }
  }

  /** The number `d` is exactly the integer `n`. */
  predicate IsInteger(d: Dec, n: int) {
    if d.exp >= 0 then Shift(d.mant, d.exp) == n else d.mant == Shift(n, -d.exp)
  }

  /** `d > bound`, compared exactly. */
  predicate Exceeds(d: Dec, bound: int) {
    if d.exp >= 0 then Shift(d.mant, d.exp) > bound else d.mant > Shift(bound, -d.exp)
  }

  /** An integral decimal truncates to itself. */
  lemma {:induction false} IntegerTruncatesToItself(d: Dec, n: int)
    requires IsInteger(d, n)
    ensures Truncate(d) == n
    decreases if d.exp < 0 then -d.exp else 0
  {
    if d.exp < 0 {
      var x := Shift(n, -d.exp - 1);
      assert Quot10(d.mant) == x;
      IntegerTruncatesToItself(Dec(x, d.exp + 1), n);
    }
  }

  /** An integral decimal truncates to itself and compares like that integer. */
  lemma IntegerTruncates(d: Dec, n: int, bound: int)
    requires IsInteger(d, n)
    ensures Truncate(d) == n
    ensures Exceeds(d, bound) <==> n > bound
  {
    IntegerTruncatesToItself(d, n);
    if d.exp < 0 {
      ShiftMonotone(bound, n, -d.exp);
    }
  }

  /** A decimal that does not exceed a non-negative bound truncates to at most that bound. */
  lemma TruncateWithinBound(d: Dec, bound: nat)
    requires !Exceeds(d, bound)
    ensures Truncate(d) <= bound
  {
    if d.exp < 0 {
      TruncateBounds(d);
      var n := Truncate(d);
      if n > 0 {
        assert Abs(n) == n && Abs(d.mant) == d.mant;
        ShiftMonotone(bound, n, -d.exp);
      }
    }
  }

  lemma IsIntegerNegate(d: Dec, n: int)
    requires IsInteger(d, n)
    ensures IsInteger(Dec(-d.mant, d.exp), -n)
  {
    if d.exp < 0 { ShiftNeg(n, -d.exp); } else { ShiftNeg(d.mant, d.exp); }
  }

  /** `str(n)` for a natural number. */
  function NatToDigits(n: nat): (s: string)
    ensures |s| >= 1 && AllDigits(s) && DigitsValue(s) == n
  {
    if n < 10 then [DigitChar(n)]
    else
      var s := NatToDigits(n / 10) + [DigitChar(n % 10)];
      assert s[..|s| - 1] == NatToDigits(n / 10);
      s
  }

  /** `n` written with exactly `width` digits, padded with leading zeros. */
  function PadDigits(n: nat, width: nat): (s: string)
    requires n < Shift(1, width)
    ensures |s| == width && AllDigits(s) && DigitsValue(s) == n
  {
    if width == 0 then ""
    else
      var s := PadDigits(n / 10, width - 1) + [DigitChar(n % 10)];
      assert s[..|s| - 1] == PadDigits(n / 10, width - 1);
      s
  }

  /**
   * `format_satoshis_plain(n)`: the bitcoin value of `n` satoshis written
   * with a `.` and eight decimals (`"{:.8f}"`), then trailing zeros and a
   * trailing point removed.
   */
  function FormatSatoshisPlain(n: int): string {
    (if n < 0 then "-" else "") + PlainUnsigned(Abs(n))
  }

  /**
   * The magnitude part: `"{:.8f}"` of `m / COIN`, then `rstrip('0')` and
   * `rstrip('.')`. The sign is a prefix that neither strip reaches.
   */
  function PlainUnsigned(m: nat): string {
    assert Shift(1, 8) == Coin by { ShiftEight(1); }
    RStripChar(RStripChar(NatToDigits(m / Coin) + "." + PadDigits(m % Coin, 8), '0'), '.')
  }

  lemma {:induction false} RStripCharKeepsPrefix(p: string, s: string, c: char)
    requires RStripChar(s, c) != []
    ensures RStripChar(p + s, c) == p + RStripChar(s, c)
  {
    if s[|s| - 1] == c {
      assert (p + s)[..|p + s| - 1] == p + s[..|s| - 1];
      RStripCharKeepsPrefix(p, s[..|s| - 1], c);
    }
  }

  lemma {:induction false} RStripCharDropsRun(p: string, s: string, c: char)
    requires forall i :: 0 <= i < |s| ==> s[i] == c
    ensures RStripChar(p + s, c) == RStripChar(p, c)
  {
    if s != [] {
      assert (p + s)[..|p + s| - 1] == p + s[..|s| - 1];
      RStripCharDropsRun(p, s[..|s| - 1], c);
    } else {
      assert p + s == p;
    }
  }

  lemma {:induction false} ZerosValue(s: string)
    requires forall i :: 0 <= i < |s| ==> s[i] == '0'
    ensures AllDigits(s) && DigitsValue(s) == 0
  {
    if s != [] { ZerosValue(s[..|s| - 1]); }
  }

  lemma {:induction false} ZeroValueIsZeros(s: string)
    requires AllDigits(s) && DigitsValue(s) == 0
    ensures forall i :: 0 <= i < |s| ==> s[i] == '0'
  {
    if s != [] {
      ZeroValueIsZeros(s[..|s| - 1]);
      assert forall i :: 0 <= i < |s| - 1 ==> s[i] == s[..|s| - 1][i];
    }
  }

  /** Dropping trailing zeros from a digit string divides its value by a power of ten. */
  lemma TrailingZerosValue(s: string) returns (t: string)
    requires AllDigits(s) && DigitsValue(s) != 0
    ensures t == RStripChar(s, '0') && t != [] && AllDigits(t) && t[|t| - 1] != '0'
    ensures DigitsValue(s) == Shift(DigitsValue(t), |s| - |t|)
  {
    t := RStripChar(s, '0');
    RStripCharShape(s, '0');
    if t == [] { ZerosValue(s); }
    var z := s[|t|..];
    assert s == t + z;
    assert AllDigits(t) by { forall i | 0 <= i < |t| ensures IsDigit(t[i]) { assert t[i] == s[i]; } }
    ZerosValue(z);
    DigitsValueConcat(t, z);
  }

  /** Text made of digits and points has no exponent marker. */
  lemma NoExponent(b: string)
    requires forall i :: 0 <= i < |b| ==> IsDigit(b[i]) || b[i] == '.'
    ensures 'e' !in Lower(b)
  {
    var low := Lower(b);
    forall i | 0 <= i < |b| ensures low[i] != 'e' { assert low[i] == b[i]; }
  }

  /** A body that starts with a digit is a finite number or nothing. */
  lemma ParseBodyDigits(neg: bool, body: string)
    requires body != [] && IsDigit(body[0])
    ensures ParseBody(neg, body) ==
      match ParseUnsigned(body)
      case None => None
      case Some(d) => Some(Finite(Negate(neg, d)))
  {
    var low := Lower(body);
    assert low[0] == body[0];
    assert low != "inf" && low != "infinity";
    assert !StartsWith(low, "nan") && !StartsWith(low, "snan");
  }

  lemma StrippedNegative(body: string)
    requires body != [] && !IsSpace(body[|body| - 1])
    ensures Strip("-" + body) == "-" + body
  {
    var t := "-" + body;
    assert t[|t| - 1] == body[|body| - 1];
    StripStripped(t);
  }

  lemma ParseStripped(t: string)
    requires Strip(t) == t
    ensures ParseDecimal(t) == ParseSignedText(t)
  {
  }

  lemma ParseMinus(t: string)
    requires t != [] && t[0] == '-'
    ensures ParseSignedText(t) == ParseBody(true, t[1..])
  {
  }

  lemma ParseUnsignedText(t: string)
    requires t != [] && IsDigit(t[0])
    ensures ParseSignedText(t) == ParseBody(false, t)
  {
  }

  lemma ParseStrippedPlain(t: string)
    requires Strip(t) == t && t != [] && IsDigit(t[0])
    ensures ParseDecimal(t) == ParseBody(false, t)
  {
    ParseStripped(t);
    ParseUnsignedText(t);
  }

  lemma ParseStrippedMinus(t: string, body: string)
    requires Strip(t) == t && t != [] && t[0] == '-' && t[1..] == body
    ensures ParseDecimal(t) == ParseBody(true, body)
  {
    ParseStripped(t);
    ParseMinus(t);
  }

  lemma ParseNegative(body: string)
    requires body != [] && IsDigit(body[0]) && IsDigit(body[|body| - 1])
    ensures ParseDecimal("-" + body) == ParseBody(true, body)
  {
    var t := "-" + body;
    assert t[1..] == body;
    StrippedNegative(body);
    ParseStrippedMinus(t, body);
  }

  lemma ParseNonNegative(body: string)
    requires body != [] && IsDigit(body[0]) && IsDigit(body[|body| - 1])
    ensures ParseDecimal(body) == ParseBody(false, body)
  {
    StripStripped(body);
    ParseStrippedPlain(body);
  }

  lemma ParseWithoutExponent(b: string)
    requires 'e' !in Lower(b)
    ensures ParseUnsigned(b) == ParseMantissa(b, Some(0))
  {
    assert b[..|b|] == b;
  }

  lemma AllDigitsNoPoint(q: string)
    requires AllDigits(q)
    ensures '.' !in q
  {
    assert forall i :: 0 <= i < |q| ==> q[i] != '.' by {
      forall i | 0 <= i < |q| ensures q[i] != '.' { assert IsDigit(q[i]); }
    }
  }

  lemma PointedParts(m: string, q: string, f: string)
    requires '.' !in q && m == q + "." + f
    ensures '.' in m && m[..IndexOf(m, '.')] == q && m[IndexOf(m, '.') + 1..] == f
  {
    IndexOfAfter(q, '.', f);
    assert m[..|q|] == q && m[|q| + 1..] == f;
  }

  lemma MantissaPointed(m: string, q: string, f: string, e: int)
    requires '.' in m && m[..IndexOf(m, '.')] == q && m[IndexOf(m, '.') + 1..] == f
    ensures ParseMantissa(m, Some(e)) == ParsePointed(q, f, e)
  {
  }

  lemma DigitsAndPoint(q: string, f: string)
    requires AllDigits(q) && AllDigits(f)
    ensures forall i :: 0 <= i < |q + "." + f| ==> IsDigit((q + "." + f)[i]) || (q + "." + f)[i] == '.'
  {
    var body := q + "." + f;
    forall i | 0 <= i < |body| ensures IsDigit(body[i]) || body[i] == '.' {
      if i < |q| { assert body[i] == q[i]; } else if i > |q| { assert body[i] == f[i - |q| - 1]; }
    }
  }

  lemma ParseUnsignedPointed(q: string, f: string)
    requires |q| >= 1 && AllDigits(q) && AllDigits(f)
    ensures AllDigits(q + f) && ParseUnsigned(q + "." + f) == Some(Dec(DigitsValue(q + f), -|f|))
  {
    var body := q + "." + f;
    DigitsAndPoint(q, f);
    NoExponent(body);
    ParseWithoutExponent(body);
    AllDigitsNoPoint(q);
    PointedParts(body, q, f);
    MantissaPointed(body, q, f, 0);
    AllDigitsConcat(q, f);
  }

  lemma ParseUnsignedWhole(q: string)
    requires |q| >= 1 && AllDigits(q)
    ensures ParseUnsigned(q) == Some(Dec(DigitsValue(q), 0))
  {
    NoExponent(q);
    ParseWithoutExponent(q);
    AllDigitsNoPoint(q);
  }

  /** Eight zero decimals vanish together with the point. */
  lemma StripZeroFraction(q: string, f: string)
    requires |q| >= 1 && AllDigits(q) && forall i :: 0 <= i < |f| ==> f[i] == '0'
    ensures RStripChar(RStripChar(q + "." + f, '0'), '.') == q
  {
    assert q + "." + f == (q + ".") + f;
    RStripCharDropsRun(q + ".", f, '0');
    assert RStripChar(q + ".", '0') == q + ".";
    RStripCharDropsRun(q, ".", '.');
    assert IsDigit(q[|q| - 1]);
    assert RStripChar(q, '.') == q;
  }

  /** Trailing zero decimals are dropped and the point stays. */
  lemma StripFraction(q: string, f: string) returns (f': string)
    requires |q| >= 1 && AllDigits(q) && AllDigits(f) && DigitsValue(f) != 0
    ensures |f'| >= 1 && |f'| <= |f| && AllDigits(f') && IsDigit(f'[|f'| - 1])
    ensures DigitsValue(f) == Shift(DigitsValue(f'), |f| - |f'|)
    ensures RStripChar(RStripChar(q + "." + f, '0'), '.') == q + "." + f'
  {
    f' := TrailingZerosValue(f);
    RStripCharKeepsPrefix(q + ".", f, '0');
    assert q + "." + f == (q + ".") + f;
    var shown := q + "." + f';
    assert RStripChar(q + "." + f, '0') == shown;
    assert shown[|shown| - 1] == f'[|f'| - 1];
  }

  lemma WholeShape(m: nat)
    requires m % Coin == 0
    ensures PlainUnsigned(m) == NatToDigits(m / Coin)
  {
    ShiftEight(1);
    var q := NatToDigits(m / Coin);
    var f := PadDigits(m % Coin, 8);
    ZeroValueIsZeros(f);
    StripZeroFraction(q, f);
  }

  lemma FractionShape(m: nat) returns (q: string, f': string, body: string)
    requires m % Coin != 0
    ensures |q| >= 1 && AllDigits(q) && |f'| <= 8 && AllDigits(f')
    ensures m == DigitsValue(q) * Coin + Shift(DigitsValue(f'), 8 - |f'|)
    ensures body == q + "." + f' && PlainUnsigned(m) == body
    ensures body != [] && IsDigit(body[0]) && IsDigit(body[|body| - 1])
  {
    ShiftEight(1);
    q := NatToDigits(m / Coin);
    var f := PadDigits(m % Coin, 8);
    f' := StripFraction(q, f);
    body := q + "." + f';
    assert body[0] == q[0] && body[|body| - 1] == f'[|f'| - 1];
  }

  lemma WholeArith(m: nat)
    requires m % Coin == 0
    ensures IsInteger(Scale(Dec(m / Coin, 0), 8), m)
  {
    ShiftEight(m / Coin);
  }

  lemma FractionArith(m: nat, q: nat, r: int, f: nat, k: nat, v: int)
    requires k <= 8 && m == q * Coin + r && Shift(f, 8 - k) == r && v == Shift(q, k) + f
    ensures IsInteger(Dec(v, 8 - k), m)
  {
    ShiftAdd(Shift(q, k), f, 8 - k);
    ShiftCompose(q, k, 8 - k);
    ShiftEight(q);
  }

  /** `body` is the rendering of `m`, starts and ends with a digit, and reads back as `d`. */
  predicate PlainParses(m: nat, body: string, d: Dec) {
    body == PlainUnsigned(m) && body != [] && IsDigit(body[0]) && IsDigit(body[|body| - 1]) &&
    ParseUnsigned(body) == Some(d) && IsInteger(Scale(d, 8), m)
  }

  lemma PlainUnsignedWhole(m: nat) returns (body: string, d: Dec)
    requires m % Coin == 0
    ensures PlainParses(m, body, d)
  {
    body := NatToDigits(m / Coin);
    WholeShape(m);
    ParseUnsignedWhole(body);
    d := Dec(m / Coin, 0);
    WholeArith(m);
  }

  /** Whole digits, a point and decimals read back as the digits together, scaled down. */
  lemma PointedValue(q: string, f: string) returns (d: Dec)
    requires |q| >= 1 && AllDigits(q) && AllDigits(f)
    ensures ParseUnsigned(q + "." + f) == Some(d)
    ensures d == Dec(Shift(DigitsValue(q), |f|) + DigitsValue(f), -|f|)
  {
    ParseUnsignedPointed(q, f);
    DigitsValueConcat(q, f);
    d := Dec(DigitsValue(q + f), -|f|);
  }

  /** The whole part and the significant decimals of `m` satoshis make `m` again. */
  lemma FractionValue(m: nat, wq: nat, wf: nat, k: nat, d: Dec)
    requires k <= 8 && m == wq * Coin + Shift(wf, 8 - k) && d == Dec(Shift(wq, k) + wf, -(k as int))
    ensures IsInteger(Scale(d, 8), m)
  {
    FractionArith(m, wq, Shift(wf, 8 - k), wf, k, Shift(wq, k) + wf);
  }

  /** Whole digits, a point and the significant decimals of `m` satoshis read back as `m`. */
  lemma PointedReads(m: nat, q: string, f': string) returns (d: Dec)
    requires |q| >= 1 && AllDigits(q) && |f'| <= 8 && AllDigits(f')
    requires m == DigitsValue(q) * Coin + Shift(DigitsValue(f'), 8 - |f'|)
    ensures ParseUnsigned(q + "." + f') == Some(d) && IsInteger(Scale(d, 8), m)
  {
    d := Dec(Shift(DigitsValue(q), |f'|) + DigitsValue(f'), -|f'|);
    assert ParseUnsigned(q + "." + f') == Some(d) by {
      var d' := PointedValue(q, f');
    }
    FractionValue(m, DigitsValue(q), DigitsValue(f'), |f'|, d);
  }

  lemma PlainUnsignedFraction(m: nat) returns (body: string, d: Dec)
    requires m % Coin != 0
    ensures PlainParses(m, body, d)
  {
    var q, f';
    q, f', body := FractionShape(m);
    d := PointedReads(m, q, f');
  }

  lemma PlainUnsignedParses(m: nat) returns (body: string, d: Dec)
    ensures PlainParses(m, body, d)
  {
    if m % Coin == 0 { body, d := PlainUnsignedWhole(m); } else { body, d := PlainUnsignedFraction(m); }
  }

  /** A sign in front of a rendering that starts and ends with a digit is read as such. */
  lemma SignedReadsBack(neg: bool, body: string, d: Dec)
    requires body != [] && IsDigit(body[0]) && IsDigit(body[|body| - 1]) && ParseUnsigned(body) == Some(d)
    ensures ParseDecimal((if neg then "-" else "") + body) == Some(Finite(Negate(neg, d)))
  {
    ParseBodyDigits(neg, body);
    if neg {
      ParseNegative(body);
    } else {
      assert "" + body == body;
      ParseNonNegative(body);
    }
  }

  /**
   * `Decimal(format_satoshis_plain(n)) * COIN` is exactly `n`: the plain
   * rendering of a satoshi amount loses nothing.
   */
  lemma FormatSatoshisPlainParsesBack(n: int)
    ensures var r := ParseDecimal(FormatSatoshisPlain(n));
      r.Some? && r.value.Finite? && IsInteger(Scale(r.value.d, 8), n)
  {
    var m := Abs(n);
    var body, d := PlainUnsignedParses(m);
    var sign := if n < 0 then "-" else "";
    assert FormatSatoshisPlain(n) == sign + body;
    SignedReadsBack(n < 0, body, d);
    NegateReadsBack(n < 0, d, m, n);
  }

  lemma NegateReadsBack(neg: bool, d: Dec, m: nat, n: int)
    requires IsInteger(Scale(d, 8), m) && (if neg then -n == m else n == m)
    ensures IsInteger(Scale(Negate(neg, d), 8), n)
  {
    if neg { IsIntegerNegate(Scale(d, 8), m); }
  }

  /**
   * Python's `int(s)` for a string: surrounding whitespace is ignored, then
   * an optional sign and at least one decimal digit.
   */
  function ParseInt(s: string): Option<int> {
    ParseSignedInt(Strip(s))
  }

  /** Stripped text: an optional sign, then the digits. */
  function ParseSignedInt(t: string): Option<int> {
    var signed := t != [] && (t[0] == '+' || t[0] == '-');
    IntBody(signed && t[0] == '-', if signed then t[1..] else t)
  }

  /** The digits after the sign. */
  function IntBody(neg: bool, ds: string): Option<int> {
    if AllDigits(ds) && |ds| >= 1 then
      var v: int := DigitsValue(ds);
      Some(if neg then -v else v)
    else None
  }

  /** Digits after a sign read as the same whole number both ways. */
  lemma BodyAgrees(neg: bool, ds: string)
    requires IntBody(neg, ds).Some?
    ensures ParseBody(neg, ds) == Some(Finite(Dec(IntBody(neg, ds).value, 0)))
  {
    assert IsDigit(ds[0]);
    ParseUnsignedWhole(ds);
  }

  /** Whatever `int(s)` accepts, `Decimal(s)` reads as the same whole number. */
  lemma ParseIntAgreesWithDecimal(s: string)
    requires ParseInt(s).Some?
    ensures ParseDecimal(s) == Some(Finite(Dec(ParseInt(s).value, 0)))
  {
    var t := Strip(s);
    var signed := t != [] && (t[0] == '+' || t[0] == '-');
    BodyAgrees(signed && t[0] == '-', if signed then t[1..] else t);
  }
}
