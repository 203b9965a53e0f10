/** The URI schemes, the Lightning prefix detector and the URI test. */
module Schemes {
  import opened Wrappers
  import opened Text

  const BitcoinScheme := "bitcoin"
  const LightningScheme := "lightning"

  /** No upper-case ASCII letter occurs in `s`. */
  predicate IsLowered(s: string) {
    forall i :: 0 <= i < |s| ==> !IsUpper(s[i])
  }

  lemma LowerIsLowered(s: string)
    ensures IsLowered(Lower(s))
  {
  }

  lemma LoweredFixed(s: string)
    requires IsLowered(s)
    ensures Lower(s) == s
  {
  }

  /**
   * `maybe_extract_lightning_payment_identifier`: the text, stripped and
   * lower-cased, with a `lightning:` prefix cut off when `ln` follows it; the
   * result if it then starts with `ln`, otherwise `None`.
   */
  function MaybeExtractLightning(data: string): Option<string> {
    ExtractFrom(Lower(Strip(data)))
  }

  /** The detector on text already stripped and lower-cased. */
  function ExtractFrom(low: string): Option<string> {
    var cut := if StartsWith(low, LightningScheme + ":ln") then low[|LightningScheme + ":"|..] else low;
    if StartsWith(cut, "ln") then Some(cut) else None
  }

  /** An extracted identifier starts with `ln` and is a tail of the cleaned text. */
  lemma ExtractFromShape(low: string)
    requires ExtractFrom(low).Some?
    ensures var r := ExtractFrom(low).value;
      StartsWith(r, "ln") && r[0] == 'l' && |r| <= |low| && r == low[|low| - |r|..]
  {
  }

  /** The detector answers iff the cleaned text starts with `ln` or with `lightning:ln`. */
  lemma ExtractFromAccepts(low: string)
    ensures ExtractFrom(low).Some? <==> (StartsWith(low, "ln") || StartsWith(low, "lightning:ln"))
  {
    if StartsWith(low, "lightning:ln") {
      assert low[10] == "lightning:ln"[10] && low[11] == "lightning:ln"[11];
      assert low[10..][..2] == "ln";
    }
  }

  lemma ExtractAccepts(data: string)
    ensures var low := Lower(Strip(data));
      MaybeExtractLightning(data).Some? <==> (StartsWith(low, "ln") || StartsWith(low, "lightning:ln"))
  {
    ExtractFromAccepts(Lower(Strip(data)));
  }

  /** The `lightning:` prefix is cut only when `ln` follows: `lightning:` then anything else is rejected. */
  lemma PrefixWithoutLn(data: string)
    requires var low := Lower(Strip(data)); StartsWith(low, "lightning:") && !StartsWith(low, "lightning:ln")
    ensures MaybeExtractLightning(data) == None
  {
    var low := Lower(Strip(data));
    assert low[..2] == "li";
  }

  /** A non-empty tail of lower-cased stripped text, starting with a letter, is stripped and lower-case. */
  lemma CleanTail(s: string, low: string, r: string)
    requires s == [] || (!IsSpace(s[0]) && !IsSpace(s[|s| - 1]))
    requires low == Lower(s) && |r| <= |low| && r == low[|low| - |r|..]
    requires r != [] && r[0] == 'l'
    ensures Strip(r) == r && Lower(r) == r
  {
    assert IsLowered(low) by { LowerIsLowered(s); }
    assert r[|r| - 1] == low[|low| - 1] == LowerChar(s[|s| - 1]);
    StripStripped(r);
    LoweredFixed(r);
  }

  /** An extracted identifier is stripped, lower-case and starts with `ln`. */
  lemma ExtractedClean(data: string, r: string)
    requires MaybeExtractLightning(data) == Some(r)
    ensures Strip(r) == r && Lower(r) == r && StartsWith(r, "ln")
  {
    ExtractedCleanFrom(Strip(data), r);
  }

  lemma ExtractedCleanFrom(s: string, r: string)
    requires s == [] || (!IsSpace(s[0]) && !IsSpace(s[|s| - 1]))
    requires ExtractFrom(Lower(s)) == Some(r)
    ensures Strip(r) == r && Lower(r) == r && StartsWith(r, "ln")
  {
    ExtractFromShape(Lower(s));
    CleanTail(s, Lower(s), r);
  }

  /** A stripped, lower-case text starting with `ln` is its own identifier. */
  lemma ExtractClean(r: string)
    requires Strip(r) == r && Lower(r) == r && StartsWith(r, "ln")
    ensures MaybeExtractLightning(r) == Some(r)
  {
    assert r[1] == 'n';
  }

  /** Extracting from an extracted identifier gives it back. */
  lemma ExtractIdempotent(data: string)
    requires MaybeExtractLightning(data).Some?
    ensures MaybeExtractLightning(MaybeExtractLightning(data).value) == MaybeExtractLightning(data)
  {
    var r := MaybeExtractLightning(data).value;
    ExtractedClean(data, r);
    ExtractClean(r);
  }

  /** `is_uri`: the text, lower-cased, starts with `lightning:` or `bitcoin:`. */
  function IsUri(data: string): bool {
    var low := Lower(data);
    StartsWith(low, LightningScheme + ":") || StartsWith(low, BitcoinScheme + ":")
  }

  /** The URI test ignores case. */
  lemma IsUriIgnoresCase(data: string)
    ensures IsUri(Lower(data)) == IsUri(data)
  {
    LowerIdempotent(data);
  }

  /** Lower-case text that starts with `ln` is not a URI. */
  lemma LnIsNotUri(r: string)
    requires Lower(r) == r && StartsWith(r, "ln")
    ensures !IsUri(r)
  {
    assert r[1] == 'n';
  }

  /** An extracted Lightning identifier is never itself taken for a URI. */
  lemma ExtractedIsNotUri(data: string)
    requires MaybeExtractLightning(data).Some?
    ensures !IsUri(MaybeExtractLightning(data).value)
  {
    var r := MaybeExtractLightning(data).value;
    ExtractedClean(data, r);
    LnIsNotUri(r);
  }
}
