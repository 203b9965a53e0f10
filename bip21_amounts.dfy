/** The `amount` field of a BIP 21 URI: the `X` form, plain decimals, and the coin-supply bound. */
module Bip21Amounts {
  import opened Wrappers
  import opened Text
  import opened Decimals
  import opened Codecs
  import opened Bip21

  /** The digits-and-points scan stops at the first other character. */
  lemma {:induction false} PrefixStops(p: string, s: string)
    requires (forall i :: 0 <= i < |p| ==> IsDigitOrPoint(p[i])) && (s == [] || !IsDigitOrPoint(s[0]))
    ensures DigitsOrPointsPrefix(p + s) == p
  {
    if p == [] {
      assert p + s == s;
    } else {
      assert (p + s)[1..] == p[1..] + s;
      PrefixStops(p[1..], s);
    }
  }

  /** Text that starts with digits-and-points, `X` and a digit is in the `X` form, with that digit. */
  lemma XFormMatches(p: string, c: char, rest: string)
    requires |p| >= 1 && (forall i :: 0 <= i < |p| ==> IsDigitOrPoint(p[i])) && IsDigit(c)
    ensures MatchX(p + ['X', c] + rest) == XForm(p, DigitVal(c))
  {
    assert p + ['X', c] + rest == p + (['X', c] + rest);
    PrefixStops(p, ['X', c] + rest);
  }

  /** Text in the `X` form starts with digits-and-points, `X` and a digit; text without `X` never is. */
  lemma XFormShape(am: string)
    ensures MatchX(am).XForm? ==>
      var p, k := MatchX(am).group, MatchX(am).digit;
      |p| >= 1 && (forall i :: 0 <= i < |p| ==> IsDigitOrPoint(p[i])) && |p| + 2 <= |am| &&
      am[..|p|] == p && am[|p|] == 'X' && IsDigit(am[|p| + 1]) && k == DigitVal(am[|p| + 1])
    ensures 'X' !in am ==> MatchX(am).NoXForm?
  {
  }

  /** A decimal digit string reads as its value, both as `int` and as `Decimal`. */
  lemma DigitsParse(ds: string)
    requires |ds| >= 1 && AllDigits(ds)
    ensures ParseInt(ds) == Some(DigitsValue(ds) as int)
    ensures ParseDecimal(ds) == Some(Finite(Dec(DigitsValue(ds), 0)))
  {
    assert IsDigit(ds[0]) && IsDigit(ds[|ds| - 1]);
    StripStripped(ds);
    ParseIntAgreesWithDecimal(ds);
  }

  /** A decimal digit string reads as the whole number it spells. */
  lemma DigitsDecimal(ds: string)
    ensures |ds| >= 1 && AllDigits(ds) ==> ParseDecimal(ds) == Some(Finite(Dec(DigitsValue(ds), 0)))
  {
    if |ds| >= 1 && AllDigits(ds) {
      DigitsParse(ds);
    }
  }

  /** A URI amount never exceeds the coin supply. */
  lemma UriAmountBounded(v: Value)
    requires UriAmount(v).Success?
    ensures UriAmount(v).value <= MaxSats
  {
    var d := RawAmount(v.s).value.d;
    TruncateWithinBound(d, MaxSats);
  }

  /** An amount that is a whole number of satoshis is stored as that number, unless above the supply. */
  lemma CheckIntegerAmount(d: Dec, n: int)
    requires IsInteger(d, n)
    ensures CheckAmount(Some(Finite(d))) == if n <= MaxSats then Success(n) else Failure(AmountOutOfBounds)
  {
    IntegerTruncates(d, n, MaxSats);
  }

  /** The `amount` field is the bound check of the amount before it. */
  lemma AmountChecked(am: string)
    ensures UriAmount(Str(am)) == CheckAmount(RawAmount(am))
  {
  }

  /** In the `X` form the amount before the bound check is the group's `Decimal` times `10^(k - 8)`. */
  lemma XFormReadAt(am: string, g: string, k: nat)
    ensures MatchX(am) == XForm(g, k) ==> RawAmount(am) == ScaledBy(ParseDecimal(g), k - 8)
  {
  }

  /** Reading a whole-number group, for any values standing for the parts. */
  lemma ScaledWhole(raw: Option<DecimalValue>, pd: Option<DecimalValue>, k: int, m: int)
    ensures raw == ScaledBy(pd, k) && pd == Some(Finite(Dec(m, 0))) ==> raw == Some(Finite(Dec(m, k)))
  {
  }

  /** Before the bound check, an `X` form on a digit string is its value times `10^(c - 8)`. */
  lemma XFormDigitsRaw(am: string, ds: string, c: char)
    ensures |ds| >= 1 && AllDigits(ds) && IsDigit(c) && MatchX(am) == XForm(ds, DigitVal(c)) ==>
      RawAmount(am) == Some(Finite(Dec(DigitsValue(ds), DigitVal(c) - 8)))
  {
    if |ds| >= 1 && AllDigits(ds) && IsDigit(c) {
      XFormReadAt(am, ds, DigitVal(c));
      DigitsDecimal(ds);
      ScaledWhole(RawAmount(am), ParseDecimal(ds), DigitVal(c) - 8, DigitsValue(ds));
    }
  }

  /** The same, after the bound check. */
  lemma XFormDigitsChecked(am: string, ds: string, c: char)
    ensures |ds| >= 1 && AllDigits(ds) && IsDigit(c) && MatchX(am) == XForm(ds, DigitVal(c)) ==>
      UriAmount(Str(am)) == CheckAmount(Some(Finite(Dec(DigitsValue(ds), DigitVal(c) - 8))))
  {
    XFormDigitsRaw(am, ds, c);
    AmountChecked(am);
  }

  /** An `X` form whose group is a digit string. */
  lemma XFormDigits(am: string, ds: string, c: char)
    requires |ds| >= 1 && AllDigits(ds) && IsDigit(c) && MatchX(am) == XForm(ds, DigitVal(c))
    ensures UriAmount(Str(am)) == CheckAmount(Some(Finite(Dec(DigitsValue(ds), DigitVal(c) - 8))))
  {
    XFormDigitsChecked(am, ds, c);
  }

  /** The `X` form: digits, `X`, digit `c` is the digits times `10^(c - 8)`, then bounded and truncated. */
  lemma XFormAmount(ds: string, c: char, rest: string)
    requires |ds| >= 1 && AllDigits(ds) && IsDigit(c)
    ensures UriAmount(Str(ds + ['X', c] + rest)) == CheckAmount(Some(Finite(Dec(DigitsValue(ds), DigitVal(c) - 8))))
  {
    XFormMatches(ds, c, rest);
    XFormDigits(ds + ['X', c] + rest, ds, c);
  }

  /** With an exponent digit of 8 or 9 the `X` form is a whole number of satoshis. */
  lemma XFormWholeAmount(ds: string, c: char)
    requires |ds| >= 1 && AllDigits(ds) && '8' <= c <= '9'
    ensures var n := Shift(DigitsValue(ds), DigitVal(c) - 8);
      UriAmount(Str(ds + ['X', c])) == if n <= MaxSats then Success(n) else Failure(AmountOutOfBounds)
  {
    var m := DigitsValue(ds);
    var k := DigitVal(c) - 8;
    assert ds + ['X', c] == ds + ['X', c] + [];
    assert UriAmount(Str(ds + ['X', c])) == CheckAmount(Some(Finite(Dec(m, k)))) by {
      XFormAmount(ds, c, []);
    }
    CheckIntegerAmount(Dec(m, k), Shift(m, k));
  }

  /** `format_satoshis_plain` writes digits, at most a point, and a leading minus sign. */
  lemma PlainHasNoX(n: int)
    ensures 'X' !in FormatSatoshisPlain(n)
  {
    var m := Abs(n);
    if m % Coin == 0 {
      WholeShape(m);
    } else {
      var q, f', body := FractionShape(m);
      assert forall i :: 0 <= i < |body| ==> body[i] == '.' || IsDigit(body[i]) by {
        forall i | 0 <= i < |body| ensures body[i] == '.' || IsDigit(body[i]) {
          if i < |q| { assert body[i] == q[i]; } else if i > |q| { assert body[i] == f'[i - |q| - 1]; }
        }
      }
    }
  }

  /** A satoshi amount parses out of a URI from its own plain rendering, unless above the supply. */
  lemma ReadAmount(am: string, d: Dec, n: int)
    requires 'X' !in am && ParseDecimal(am) == Some(Finite(d)) && IsInteger(Scale(d, 8), n)
    ensures UriAmount(Str(am)) == if n <= MaxSats then Success(n) else Failure(AmountOutOfBounds)
  {
    XFormShape(am);
    CheckIntegerAmount(Scale(d, 8), n);
  }

  /** `amount=format_satoshis_plain(n)` reads back as `n`, or is refused when above the supply. */
  lemma PlainAmountReadsBack(n: int)
    ensures UriAmount(Str(FormatSatoshisPlain(n))) == if n <= MaxSats then Success(n) else Failure(AmountOutOfBounds)
  {
    PlainHasNoX(n);
    FormatSatoshisPlainParsesBack(n);
    ReadAmount(FormatSatoshisPlain(n), ParseDecimal(FormatSatoshisPlain(n)).value.d, n);
  }
}
