/**
 * BIP 21 `bitcoin:` URIs with Electrum's extensions: `parse_bip21_URI`
 * (the `X` amount form, `lightning=`, `sig=`, `time=`, `exp=`) and
 * `create_bip21_uri`.
 */
module Bip21 {
  import opened Wrappers
  import opened Text
  import opened Hex
  import opened Decimals
  import opened Codecs
  import opened Schemes

  /** A value of the `out` dict: text, or a number the parser converted. */
  datatype Value = Str(s: string) | Int(i: int)

  type Fields = map<string, Value>

  type Pairs = seq<(string, string)>

  /** Why `parse_bip21_URI` raised `InvalidBitcoinURI`. */
  datatype UriError =
    | NotAnAddress
    | NotBitcoinUri
    | DuplicateKey(key: string)
    | InvalidAddress(address: string)
    | AmountUnparsable
    | AmountOutOfBounds
    | BadTime
    | BadExp
    | BadSig
    | BadLightning(msg: string)
    | InconsistentAmount
    | InconsistentAddress

  /** How `parse_bip21_URI` ends without a result: `InvalidBitcoinURI`, or another exception. */
  datatype Bip21Failure = Invalid(err: UriError) | Raised(exc: string)

  /** `TOTAL_COIN_SUPPLY_LIMIT_IN_BTC` */
  const TotalCoinSupplyLimitInBtc: nat := 21000000

  /** The largest amount a URI may carry, in satoshis. */
  const MaxSats: nat := TotalCoinSupplyLimitInBtc * Coin

  // ---------------------------------------------------------------- parse_qs

  /** The keys of `pairs` in order of first occurrence (the key order of `parse_qs`). */
  function Keys(pairs: Pairs): seq<string> {
    if pairs == [] then []
    else
      var ks := Keys(pairs[..|pairs| - 1]);
      var k := pairs[|pairs| - 1].0;
      if k in ks then ks else ks + [k]
  }

  /** The values given for `k`, in order. */
  function ValuesOf(pairs: Pairs, k: string): seq<string> {
    if pairs == [] then []
    else ValuesOf(pairs[..|pairs| - 1], k) + (if pairs[|pairs| - 1].0 == k then [pairs[|pairs| - 1].1] else [])
  }

  /** `parse_qs`: every key mapped to the list of its values. */
  function Grouped(pairs: Pairs): map<string, seq<string>> {
    if pairs == [] then map[]
    else
      var g := Grouped(pairs[..|pairs| - 1]);
      var (k, v) := pairs[|pairs| - 1];
      g[k := (if k in g then g[k] else []) + [v]]
  }

  /** The first key, in `keys` order, that does not have exactly one value. */
  function FirstDuplicate(keys: seq<string>, g: map<string, seq<string>>): Option<string> {
    if keys == [] then None
    else if keys[0] in g && |g[keys[0]]| != 1 then Some(keys[0])
    else FirstDuplicate(keys[1..], g)
  }

  /** `{k: v[0] for k, v in pq.items()}` */
  function FirstValues(g: map<string, seq<string>>): Fields {
    map k | k in g && |g[k]| >= 1 :: Str(g[k][0])
  }

  /** The loop of `parse_qs` that groups the pairs by key. */
  method GroupQuery(pairs: Pairs) returns (keys: seq<string>, grouped: map<string, seq<string>>)
    ensures keys == Keys(pairs) && grouped == Grouped(pairs)
  {
    keys := [];
    grouped := map[];
    var i := 0;
    while i < |pairs|
      invariant 0 <= i <= |pairs|
      invariant keys == Keys(pairs[..i]) && grouped == Grouped(pairs[..i])
    {
      var (k, v) := pairs[i];
      assert pairs[..i + 1][..i] == pairs[..i];
      if k !in keys {
        keys := keys + [k];
      }
      grouped := grouped[k := (if k in grouped then grouped[k] else []) + [v]];
      i := i + 1;
    }
    assert pairs[..i] == pairs;
  }

  /** The `for k, v in pq.items()` loop that rejects a repeated key. */
  method FindDuplicate(keys: seq<string>, g: map<string, seq<string>>) returns (dup: Option<string>)
    ensures dup == FirstDuplicate(keys, g)
  {
    var j := 0;
    while j < |keys|
      invariant 0 <= j <= |keys|
      invariant FirstDuplicate(keys, g) == FirstDuplicate(keys[j..], g)
    {
      assert keys[j..][1..] == keys[j + 1..];
      if keys[j] in g && |g[keys[j]]| != 1 {
        return Some(keys[j]);
      }
      j := j + 1;
    }
    return None;
  }

  // ----------------------------------------------------------------- amounts

  predicate IsDigitOrPoint(c: char) { IsDigit(c) || c == '.' }

  /** The longest prefix of `s` made of digits and points. */
  function DigitsOrPointsPrefix(s: string): (p: string)
    ensures |p| <= |s| && p == s[..|p|] && forall i :: 0 <= i < |p| ==> IsDigitOrPoint(p[i])
    ensures |p| == |s| || !IsDigitOrPoint(s[|p|])
  {
    if s == [] || !IsDigitOrPoint(s[0]) then [] else [s[0]] + DigitsOrPointsPrefix(s[1..])
  }

  /** A match of the `X` form, or none. */
  datatype XMatch = NoXForm | XForm(group: string, digit: nat)

  /**
   * `re.match(r'([0-9.]+)X([0-9])', am)`: the digits-and-points group and the
   * digit after `X`. The pattern is anchored at the start only.
   */
  function MatchX(am: string): XMatch {
    var p := DigitsOrPointsPrefix(am);
    if |p| >= 1 && |p| + 2 <= |am| && am[|p|] == 'X' && IsDigit(am[|p| + 1]) then
      XForm(p, DigitVal(am[|p| + 1]))
    else NoXForm
  }

  /** A parsed `Decimal` multiplied by `10^k`: infinities and NaNs stay what they are. */
  function ScaledBy(v: Option<DecimalValue>, k: int): Option<DecimalValue> {
    match v
    case Some(Finite(d)) => Some(Finite(Scale(d, k)))
    case other => other
  }

  /** The amount before the bound check: `Decimal(g1) * 10**(g2 - 8)` in the `X` form, else `Decimal(am) * COIN`. */
  function RawAmount(am: string): Option<DecimalValue> {
    var x := MatchX(am);
    if x.XForm? then ScaledBy(ParseDecimal(x.group), x.digit - 8) else ScaledBy(ParseDecimal(am), 8)
  }

  /**
   * The bound check and `int(amount)`. An infinity above the bound is out of
   * bounds; `-Infinity` fails in `int`, a NaN in the comparison.
   */
  function CheckAmount(v: Option<DecimalValue>): Result<int, UriError> {
    match v
    case Some(Finite(d)) => if Exceeds(d, MaxSats) then Failure(AmountOutOfBounds) else Success(Truncate(d))
    case Some(Infinity(neg)) => if neg then Failure(AmountUnparsable) else Failure(AmountOutOfBounds)
    case _ => Failure(AmountUnparsable)
  }

  /** The `amount` field of a URI, in satoshis. A number in `out` fails the regular expression. */
  function UriAmount(v: Value): Result<int, UriError> {
    match v
    case Str(am) => CheckAmount(RawAmount(am))
    case Int(_) => Failure(AmountUnparsable)
  }

  // ----------------------------------------------------------- the fields

  /** A non-empty path must be an address, and then replaces any `address` key. */
  function WithAddress(env: Env, address: string, out: Fields): Result<Fields, Bip21Failure> {
    if address == [] then Success(out)
    else if !env.isAddress(address) then Failure(Invalid(InvalidAddress(address)))
    else Success(out["address" := Str(address)])
  }

  function WithAmount(out: Fields): Result<Fields, Bip21Failure> {
    if "amount" !in out then Success(out)
    else match UriAmount(out["amount"])
      case Failure(e) => Failure(Invalid(e))
      case Success(n) => Success(out["amount" := Int(n)])
  }

  /** `message` is copied to `memo`. */
  function WithMessage(out: Fields): Fields {
    if "message" in out then out["memo" := out["message"]] else out
  }

  /** `int(...)` of a field value. */
  function IntOf(v: Value): Option<int> {
    match v
    case Str(s) => ParseInt(s)
    case Int(i) => Some(i)
  }

  /** `time` or `exp` must read as an integer. */
  function WithInt(out: Fields, key: string, err: UriError): Result<Fields, Bip21Failure> {
    if key !in out then Success(out)
    else match IntOf(out[key])
      case None => Failure(Invalid(err))
      case Some(n) => Success(out[key := Int(n)])
  }

  /** `sig` is base58-decoded and stored as hex. */
  function WithSig(env: Env, out: Fields): Result<Fields, Bip21Failure> {
    if "sig" !in out then Success(out)
    else match out["sig"]
      case Int(_) => Failure(Invalid(BadSig))
      case Str(s) =>
        match env.base58Decode(s)
        case None => Failure(Invalid(BadSig))
        case Some(b) => Success(out["sig" := Str(ToHex(b))])
  }

  /** Python truthiness of an optional field value. */
  predicate Truthy(v: Option<Value>) {
    v.Some? && match v.value case Str(s) => s != [] case Int(i) => i != 0
  }

  function Get(out: Fields, k: string): Option<Value> {
    if k in out then Some(out[k]) else None
  }

  /** `int(lnaddr.get_amount_sat())`, when the invoice has an amount. */
  function InvoiceSats(a: LnAddr): Option<int> {
    if a.amountMsat.None? then None else Some(a.amountMsat.value / 1000)
  }

  /**
   * A non-zero URI amount must be within one satoshi of the invoice amount;
   * the comparison is skipped when the invoice carries no amount.
   */
  function CheckLightningAmount(out: Fields, a: LnAddr): Result<Fields, Bip21Failure> {
    var amount := Get(out, "amount");
    if !Truthy(amount) then Success(out)
    else match amount.value
      case Str(_) => Failure(Raised("TypeError"))
      case Int(n) =>
        match InvoiceSats(a)
        case None => Success(out)
        case Some(s) => if Abs(n - s) > 1 then Failure(Invalid(InconsistentAmount)) else Success(out)
  }

  /** The amount check as written: `int(None)` raises `TypeError` for an amountless invoice. */
  function CheckLightningAmountAsWritten(out: Fields, a: LnAddr): Result<Fields, Bip21Failure> {
    var amount := Get(out, "amount");
    if !Truthy(amount) then Success(out)
    else match amount.value
      case Str(_) => Failure(Raised("TypeError"))
      case Int(n) =>
        match InvoiceSats(a)
        case None => Failure(Raised("TypeError"))
        case Some(s) => if Abs(n - s) > 1 then Failure(Invalid(InconsistentAmount)) else Success(out)
  }

  /** When both an address and the invoice's fallback address are given, they must agree. */
  function CheckLightningAddress(out: Fields, a: LnAddr): Result<Fields, Bip21Failure> {
    var address := Get(out, "address");
    if Truthy(address) && a.fallbackAddress.Some? && a.fallbackAddress.value != [] &&
       address.value != Str(a.fallbackAddress.value)
    then Failure(Invalid(InconsistentAddress))
    else Success(out)
  }

  /** The `lightning` field must decode and agree with the amount and address. */
  function WithLightning(env: Env, out: Fields): Result<Fields, Bip21Failure> {
    if "lightning" !in out then Success(out)
    else match out["lightning"]
      case Int(_) => Failure(Raised("TypeError"))
      case Str(s) =>
        match env.lnDecode(s)
        case DecodeError(msg) => Failure(Invalid(BadLightning(msg)))
        case IncompatibleFeatures(msg) => Failure(Raised("IncompatibleOrInsaneFeatures"))
        case Decoded(a) =>
          var o :- CheckLightningAmount(out, a);
          CheckLightningAddress(o, a)
  }

  /** The fields after the query: address, amount, message, time, exp, sig, lightning, in that order. */
  function ProcessFields(env: Env, address: string, out: Fields): Result<Fields, Bip21Failure> {
    var o :- WithAddress(env, address, out);
    AfterAddress(env, o)
  }

  function AfterAddress(env: Env, out: Fields): Result<Fields, Bip21Failure> {
    var o :- WithAmount(out);
    AfterAmount(env, WithMessage(o))
  }

  function AfterAmount(env: Env, out: Fields): Result<Fields, Bip21Failure> {
    var o :- WithInt(out, "time", BadTime);
    AfterTime(env, o)
  }

  function AfterTime(env: Env, out: Fields): Result<Fields, Bip21Failure> {
    var o :- WithInt(out, "exp", BadExp);
    AfterExp(env, o)
  }

  function AfterExp(env: Env, out: Fields): Result<Fields, Bip21Failure> {
    var o :- WithSig(env, out);
    WithLightning(env, o)
  }

  /** The address and the query pairs; a path holding `?` after its start is split there once more. */
  function PathAndQuery(env: Env, u: UrlParts): Result<(string, Pairs), Bip21Failure> {
    if '?' in u.path && IndexOf(u.path, '?') > 0 then
      var pieces := Split(u.path, '?');
      if |pieces| != 2 then Failure(Raised("ValueError"))
      else Success((pieces[0], env.parseQsl(pieces[1])))
    else Success((u.path, env.parseQsl(u.query)))
  }

  /** `parse_bip21_URI(uri)`. */
  function Bip21Spec(env: Env, uri: string): Result<Fields, Bip21Failure> {
    if ':' !in uri then
      if env.isAddress(uri) then Success(map["address" := Str(uri)]) else Failure(Invalid(NotAnAddress))
    else
      var u := env.urlParse(uri);
      if Lower(u.scheme) != BitcoinScheme then Failure(Invalid(NotBitcoinUri))
      else
        var aq :- PathAndQuery(env, u);
        var g := Grouped(aq.1);
        match FirstDuplicate(Keys(aq.1), g)
        case Some(k) => Failure(Invalid(DuplicateKey(k)))
        case None => ProcessFields(env, aq.0, FirstValues(g))
  }

  /** `parse_bip21_URI`, building `out` field by field. */
  method ParseBip21Uri(env: Env, uri: string) returns (r: Result<Fields, Bip21Failure>)
    ensures r == Bip21Spec(env, uri)
  {
    if ':' !in uri {
      if !env.isAddress(uri) {
        return Failure(Invalid(NotAnAddress));
      }
      return Success(map["address" := Str(uri)]);
    }
    var u := env.urlParse(uri);
    if Lower(u.scheme) != BitcoinScheme {
      return Failure(Invalid(NotBitcoinUri));
    }
    var address := u.path;
    var pairs;
    if '?' in address && IndexOf(address, '?') > 0 {
      var pieces := Split(u.path, '?');
      if |pieces| != 2 {
        return Failure(Raised("ValueError"));
      }
      address := pieces[0];
      pairs := env.parseQsl(pieces[1]);
    } else {
      pairs := env.parseQsl(u.query);
    }
    assert PathAndQuery(env, u) == Success((address, pairs));
    var keys, grouped := GroupQuery(pairs);
    var dup := FindDuplicate(keys, grouped);
    if dup.Some? {
      return Failure(Invalid(DuplicateKey(dup.value)));
    }
    var out := FirstValues(grouped);
    r := ProcessQuery(env, address, out);
  }

  /** The field-by-field updates of `out` after the query has been read. */
  method ProcessQuery(env: Env, address: string, out0: Fields) returns (r: Result<Fields, Bip21Failure>)
    ensures r == ProcessFields(env, address, out0)
  {
    var o1 :- SetAddress(env, address, out0);
    var o2 :- SetAmount(o1);
    var o3 := o2;
    if "message" in o3 {
      o3 := o3["memo" := o3["message"]];
    }
    var o4 :- SetInt(o3, "time", BadTime);
    var o5 :- SetInt(o4, "exp", BadExp);
    var o6 :- SetSig(env, o5);
    r := WithLightning(env, o6);
  }

  method SetAddress(env: Env, address: string, out: Fields) returns (r: Result<Fields, Bip21Failure>)
    ensures r == WithAddress(env, address, out)
  {
    if address != [] {
      if !env.isAddress(address) {
        return Failure(Invalid(InvalidAddress(address)));
      }
      return Success(out["address" := Str(address)]);
    }
    return Success(out);
  }

  method SetAmount(out: Fields) returns (r: Result<Fields, Bip21Failure>)
    ensures r == WithAmount(out)
  {
    if "amount" in out {
      var a := UriAmount(out["amount"]);
      if a.Failure? {
        return Failure(Invalid(a.error));
      }
      return Success(out["amount" := Int(a.value)]);
    }
    return Success(out);
  }

  method SetInt(out: Fields, key: string, err: UriError) returns (r: Result<Fields, Bip21Failure>)
    ensures r == WithInt(out, key, err)
  {
    if key in out {
      var t := IntOf(out[key]);
      if t.None? {
        return Failure(Invalid(err));
      }
      return Success(out[key := Int(t.value)]);
    }
    return Success(out);
  }

  method SetSig(env: Env, out: Fields) returns (r: Result<Fields, Bip21Failure>)
    ensures r == WithSig(env, out)
  {
    if "sig" in out {
      match out["sig"]
      case Int(_) =>
        return Failure(Invalid(BadSig));
      case Str(s) =>
        var b := env.base58Decode(s);
        if b.None? {
          return Failure(Invalid(BadSig));
        }
        return Success(out["sig" := Str(ToHex(b.value))]);
    }
    return Success(out);
  }

  // ---------------------------------------------------------- create_bip21_uri

  /** The `amount=` and `message=` items: present only for a non-zero amount and a non-empty message. */
  function LeadingItems(env: Env, amountSat: Option<int>, message: Option<string>): seq<string> {
    (if amountSat.Some? && amountSat.value != 0 then ["amount=" + FormatSatoshisPlain(amountSat.value)] else []) +
    (if message.Some? && message.value != [] then ["message=" + env.quote(message.value)] else [])
  }

  /** The first extra key that URL-quoting would change. */
  function IllegalKey(env: Env, extra: Pairs): Option<string> {
    if extra == [] then None
    else if env.quote(extra[0].0) != extra[0].0 then Some(extra[0].0)
    else IllegalKey(env, extra[1..])
  }

  /** `k=quote(v)` for each extra parameter, in order. */
  function ExtraItems(env: Env, extra: Pairs): seq<string> {
    if extra == [] then [] else [extra[0].0 + "=" + env.quote(extra[0].1)] + ExtraItems(env, extra[1..])
  }

  /** `urlunparse` of scheme `bitcoin`, the address as path and the joined query, nothing else. */
  function UnparseUri(addr: string, items: seq<string>): string {
    var query := Join(items, '&');
    BitcoinScheme + ":" + addr + (if query == [] then "" else "?" + query)
  }

  /** `create_bip21_uri`; `Failure(k)` is the exception for an illegal key `k`. */
  function CreateSpec(env: Env, addr: string, amountSat: Option<int>, message: Option<string>, extra: Pairs): Result<string, string> {
    if !env.isAddress(addr) then Success("")
    else match IllegalKey(env, extra)
      case Some(k) => Failure(k)
      case None => Success(UnparseUri(addr, LeadingItems(env, amountSat, message) + ExtraItems(env, extra)))
  }

  /** `create_bip21_uri`, appending query items in a loop. */
  method CreateBip21Uri(env: Env, addr: string, amountSat: Option<int>, message: Option<string>, extra: Pairs)
    returns (r: Result<string, string>)
    ensures r == CreateSpec(env, addr, amountSat, message, extra)
  {
    if !env.isAddress(addr) {
      return Success("");
    }
    var query: seq<string> := [];
    if amountSat.Some? && amountSat.value != 0 {
      query := query + ["amount=" + FormatSatoshisPlain(amountSat.value)];
    }
    if message.Some? && message.value != [] {
      query := query + ["message=" + env.quote(message.value)];
    }
    ghost var lead := LeadingItems(env, amountSat, message);
    assert query == lead;
    var i := 0;
    while i < |extra|
      invariant 0 <= i <= |extra|
      invariant IllegalKey(env, extra) == IllegalKey(env, extra[i..])
      invariant query + ExtraItems(env, extra[i..]) == lead + ExtraItems(env, extra)
    {
      var (k, v) := extra[i];
      assert extra[i..][1..] == extra[i + 1..];
      if k != env.quote(k) {
        return Failure(k);
      }
      assert ExtraItems(env, extra[i..]) == [k + "=" + env.quote(v)] + ExtraItems(env, extra[i + 1..]);
      query := query + [k + "=" + env.quote(v)];
      i := i + 1;
    }
    assert extra[i..] == [];
    assert query == lead + ExtraItems(env, extra);
    return Success(UnparseUri(addr, query));
  }
}
