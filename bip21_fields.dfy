/** What a successful `parse_bip21_URI` returns, field by field, and when it refuses a URI. */
module Bip21Fields {
  import opened Wrappers
  import opened Text
  import opened Hex
  import opened Decimals
  import opened Codecs
  import opened Schemes
  import opened Bip21
  import opened Bip21Properties
  import opened Bip21Amounts

  /** `out` and `o` agree on every key other than `key`. */
  ghost predicate SameExcept(out: Fields, o: Fields, key: string) {
    forall k :: k != key ==> (k in o <==> k in out) && (k in out ==> o[k] == out[k])
  }

  /** The intermediate dicts of a successful parse. */
  lemma ProcessSteps(env: Env, a: string, out: Fields, o: Fields) returns (o1: Fields, o2: Fields, o4: Fields, o5: Fields, o6: Fields)
    requires ProcessFields(env, a, out) == Success(o)
    ensures WithAddress(env, a, out) == Success(o1) && WithAmount(o1) == Success(o2)
    ensures WithInt(WithMessage(o2), "time", BadTime) == Success(o4) && WithInt(o4, "exp", BadExp) == Success(o5)
    ensures WithSig(env, o5) == Success(o6) && WithLightning(env, o6) == Success(o)
  {
    o1 := WithAddress(env, a, out).value;
    o2 := WithAmount(o1).value;
    o4 := WithInt(WithMessage(o2), "time", BadTime).value;
    o5 := WithInt(o4, "exp", BadExp).value;
    o6 := WithSig(env, o5).value;
  }

  lemma AddressStep(env: Env, a: string, out: Fields, o: Fields)
    requires WithAddress(env, a, out) == Success(o)
    ensures SameExcept(out, o, "address")
    ensures a != [] ==> env.isAddress(a) && "address" in o && o["address"] == Str(a)
    ensures a == [] ==> o == out
  {
  }

  lemma AmountStep(out: Fields, o: Fields)
    requires WithAmount(out) == Success(o)
    ensures SameExcept(out, o, "amount")
    ensures "amount" in o <==> "amount" in out
    ensures "amount" in out ==> UriAmount(out["amount"]) == Success(o["amount"].i) && o["amount"].Int?
  {
  }

  lemma MessageStep(out: Fields)
    ensures SameExcept(out, WithMessage(out), "memo")
    ensures "message" in out ==> "memo" in WithMessage(out) && WithMessage(out)["memo"] == out["message"]
    ensures "message" !in out ==> WithMessage(out) == out
  {
  }

  lemma IntStep(out: Fields, key: string, err: UriError, o: Fields)
    requires WithInt(out, key, err) == Success(o)
    ensures SameExcept(out, o, key)
    ensures key in o <==> key in out
    ensures key in out ==> IntOf(out[key]) == Some(o[key].i) && o[key].Int?
  {
  }

  lemma SigStep(env: Env, out: Fields, o: Fields)
    requires WithSig(env, out) == Success(o)
    ensures SameExcept(out, o, "sig")
    ensures "sig" in o <==> "sig" in out
    ensures "sig" in out ==>
      out["sig"].Str? && env.base58Decode(out["sig"].s).Some? && o["sig"] == Str(ToHex(env.base58Decode(out["sig"].s).value))
  {
  }

  lemma LightningStep(env: Env, out: Fields, o: Fields)
    requires WithLightning(env, out) == Success(o)
    ensures o == out
    ensures "lightning" in out ==> out["lightning"].Str? && env.lnDecode(out["lightning"].s).Decoded?
    ensures "lightning" in out ==>
      var la := env.lnDecode(out["lightning"].s).addr;
      CheckLightningAmount(out, la) == Success(out) && CheckLightningAddress(out, la) == Success(out)
  {
  }

  /** The two cross-checks against an invoice: amounts within one satoshi, fallback address equal. */
  lemma ConsistentLightning(out: Fields, la: LnAddr)
    requires CheckLightningAmount(out, la).Success? && CheckLightningAddress(out, la).Success?
    ensures "amount" in out && out["amount"].Int? && out["amount"].i != 0 && InvoiceSats(la).Some? ==>
      Abs(out["amount"].i - InvoiceSats(la).value) <= 1
    ensures ("address" in out && out["address"].Str? && out["address"].s != [] &&
             la.fallbackAddress.Some? && la.fallbackAddress.value != []) ==>
      out["address"].s == la.fallbackAddress.value
  {
  }

  /**
   * A non-zero amount beside an invoice without one: the code as written
   * raises `TypeError` (from `int(None)`), the intended check has no invoice
   * amount to compare and lets the URI through.
   */
  lemma AmountlessInvoiceRaises(out: Fields, la: LnAddr, n: int)
    requires "amount" in out && out["amount"] == Int(n) && n != 0 && la.amountMsat.None?
    ensures CheckLightningAmountAsWritten(out, la) == Failure(Raised("TypeError"))
    ensures CheckLightningAmount(out, la) == Success(out)
  {
  }

  /** The converse of the amount check: a whole amount within one satoshi of the invoice's, or beside an amountless invoice, passes. */
  lemma LightningAmountAccepted(out: Fields, la: LnAddr, n: int)
    requires Get(out, "amount") == Some(Int(n))
    requires InvoiceSats(la).None? || Abs(n - InvoiceSats(la).value) <= 1
    ensures CheckLightningAmount(out, la) == Success(out)
  {
  }

  /** The one-satoshi leeway: one satoshi off is accepted, two are refused. */
  lemma LightningLeeway(la: LnAddr, s: int)
    requires InvoiceSats(la) == Some(s)
    ensures CheckLightningAmount(map["amount" := Int(s + 1)], la).Success?
    ensures CheckLightningAmount(map["amount" := Int(s - 1)], la).Success?
    ensures s + 2 != 0 ==> CheckLightningAmount(map["amount" := Int(s + 2)], la) == Failure(Invalid(InconsistentAmount))
  {
    LightningAmountAccepted(map["amount" := Int(s + 1)], la, s + 1);
    LightningAmountAccepted(map["amount" := Int(s - 1)], la, s - 1);
  }

  /** The converse of the address check: an address equal to the fallback, or no fallback, passes. */
  lemma LightningAddressAccepted(out: Fields, la: LnAddr, a: string)
    requires Get(out, "address") == Some(Str(a)) || Get(out, "address") == None
    requires la.fallbackAddress.None? || la.fallbackAddress.value == [] || la.fallbackAddress.value == a
    ensures CheckLightningAddress(out, la) == Success(out)
  {
  }

  /** For an invoice with an amount the two checks agree. */
  lemma LightningAmountAgrees(out: Fields, la: LnAddr)
    requires la.amountMsat.Some? || !Truthy(Get(out, "amount"))
    ensures CheckLightningAmountAsWritten(out, la) == CheckLightningAmount(out, la)
  {
  }

  // ------------------------------------------------------ the parsed fields

  /** A non-empty path is a valid address and is what `address` holds. */
  lemma ParsedAddress(env: Env, a: string, out: Fields, o: Fields)
    requires ProcessFields(env, a, out) == Success(o) && a != []
    ensures env.isAddress(a) && "address" in o && o["address"] == Str(a)
  {
    var o1, o2, o4, o5, o6 := ProcessSteps(env, a, out, o);
    AddressStep(env, a, out, o1);
    AmountStep(o1, o2);
    MessageStep(o2);
    IntStep(WithMessage(o2), "time", BadTime, o4);
    IntStep(o4, "exp", BadExp, o5);
    SigStep(env, o5, o6);
    LightningStep(env, o6, o);
  }

  /** A given amount is stored as the number of satoshis it reads as, within the coin supply. */
  lemma ParsedAmount(env: Env, a: string, out: Fields, o: Fields)
    requires ProcessFields(env, a, out) == Success(o) && "amount" in out
    ensures "amount" in o && o["amount"].Int? && UriAmount(out["amount"]) == Success(o["amount"].i)
    ensures o["amount"].i <= MaxSats
  {
    var o1, o2, o4, o5, o6 := ProcessSteps(env, a, out, o);
    AddressStep(env, a, out, o1);
    AmountStep(o1, o2);
    MessageStep(o2);
    IntStep(WithMessage(o2), "time", BadTime, o4);
    IntStep(o4, "exp", BadExp, o5);
    SigStep(env, o5, o6);
    LightningStep(env, o6, o);
    UriAmountBounded(out["amount"]);
  }

  /** A given message is also stored as `memo`. */
  lemma ParsedMemo(env: Env, a: string, out: Fields, o: Fields)
    requires ProcessFields(env, a, out) == Success(o) && "message" in out
    ensures "message" in o && "memo" in o && o["memo"] == o["message"] == out["message"]
  {
    var o1, o2, o4, o5, o6 := ProcessSteps(env, a, out, o);
    AddressStep(env, a, out, o1);
    AmountStep(o1, o2);
    MessageStep(o2);
    IntStep(WithMessage(o2), "time", BadTime, o4);
    IntStep(o4, "exp", BadExp, o5);
    SigStep(env, o5, o6);
    LightningStep(env, o6, o);
  }

  /** A given `time` is stored as the integer it reads as. */
  lemma ParsedTime(env: Env, a: string, out: Fields, o: Fields)
    requires ProcessFields(env, a, out) == Success(o) && "time" in out
    ensures "time" in o && o["time"].Int? && IntOf(out["time"]) == Some(o["time"].i)
  {
    var o1, o2, o4, o5, o6 := ProcessSteps(env, a, out, o);
    AddressStep(env, a, out, o1);
    AmountStep(o1, o2);
    MessageStep(o2);
    IntStep(WithMessage(o2), "time", BadTime, o4);
    IntStep(o4, "exp", BadExp, o5);
    SigStep(env, o5, o6);
    LightningStep(env, o6, o);
  }

  /** A given `exp` is stored as the integer it reads as. */
  lemma ParsedExp(env: Env, a: string, out: Fields, o: Fields)
    requires ProcessFields(env, a, out) == Success(o) && "exp" in out
    ensures "exp" in o && o["exp"].Int? && IntOf(out["exp"]) == Some(o["exp"].i)
  {
    var o1, o2, o4, o5, o6 := ProcessSteps(env, a, out, o);
    AddressStep(env, a, out, o1);
    AmountStep(o1, o2);
    MessageStep(o2);
    IntStep(WithMessage(o2), "time", BadTime, o4);
    IntStep(o4, "exp", BadExp, o5);
    SigStep(env, o5, o6);
    LightningStep(env, o6, o);
  }

  /** A given `sig` decodes as base58 and is stored as hex. */
  lemma ParsedSig(env: Env, a: string, out: Fields, o: Fields)
    requires ProcessFields(env, a, out) == Success(o) && "sig" in out
    ensures out["sig"].Str? && env.base58Decode(out["sig"].s).Some?
    ensures "sig" in o && o["sig"] == Str(ToHex(env.base58Decode(out["sig"].s).value))
  {
    var o1, o2, o4, o5, o6 := ProcessSteps(env, a, out, o);
    AddressStep(env, a, out, o1);
    AmountStep(o1, o2);
    MessageStep(o2);
    IntStep(WithMessage(o2), "time", BadTime, o4);
    IntStep(o4, "exp", BadExp, o5);
    SigStep(env, o5, o6);
    LightningStep(env, o6, o);
  }

  /** A stored `lightning` invoice decodes and agrees with the stored amount and address. */
  lemma ParsedLightning(env: Env, a: string, out: Fields, o: Fields)
    requires ProcessFields(env, a, out) == Success(o) && "lightning" in o
    ensures o["lightning"].Str? && env.lnDecode(o["lightning"].s).Decoded?
    ensures var la := env.lnDecode(o["lightning"].s).addr;
      ("amount" in o && o["amount"].Int? && o["amount"].i != 0 && InvoiceSats(la).Some? ==>
        Abs(o["amount"].i - InvoiceSats(la).value) <= 1) &&
      (("address" in o && o["address"].Str? && o["address"].s != [] &&
        la.fallbackAddress.Some? && la.fallbackAddress.value != []) ==> o["address"].s == la.fallbackAddress.value)
  {
    var o1, o2, o4, o5, o6 := ProcessSteps(env, a, out, o);
    LightningStep(env, o6, o);
    ConsistentLightning(o, env.lnDecode(o["lightning"].s).addr);
  }

  /** Keys the parser does not interpret keep their query values; the only keys added are `address` and `memo`. */
  lemma ParsedOtherKeys(env: Env, a: string, out: Fields, o: Fields, k: string)
    requires ProcessFields(env, a, out) == Success(o)
    ensures k in out && k != "address" && k != "amount" && k != "memo" && k != "time" && k != "exp" && k != "sig" ==>
      k in o && o[k] == out[k]
    ensures k in o ==> k in out || k == "address" || k == "memo"
  {
    var o1, o2, o4, o5, o6 := ProcessSteps(env, a, out, o);
    AddressStep(env, a, out, o1);
    AmountStep(o1, o2);
    MessageStep(o2);
    IntStep(WithMessage(o2), "time", BadTime, o4);
    IntStep(o4, "exp", BadExp, o5);
    SigStep(env, o5, o6);
    LightningStep(env, o6, o);
  }

  /** Every field other than `amount`, `time` and `exp` holds text. */
  ghost predicate TextFields(f: Fields) {
    forall k :: k in f && k != "amount" && k != "time" && k != "exp" ==> f[k].Str?
  }

  /** The only numbers a parse stores are `amount`, `time` and `exp`. */
  lemma ParsedText(env: Env, a: string, out: Fields, o: Fields)
    requires ProcessFields(env, a, out) == Success(o) && TextFields(out)
    ensures TextFields(o)
  {
    var o1, o2, o4, o5, o6 := ProcessSteps(env, a, out, o);
    AddressStep(env, a, out, o1);
    assert TextFields(o1);
    AmountStep(o1, o2);
    assert TextFields(o2);
    MessageStep(o2);
    assert TextFields(WithMessage(o2));
    IntStep(WithMessage(o2), "time", BadTime, o4);
    assert TextFields(o4);
    IntStep(o4, "exp", BadExp, o5);
    assert TextFields(o5);
    SigStep(env, o5, o6);
    LightningStep(env, o6, o);
  }

  // ------------------------------------------------------------ whole URIs

  /** Text without `:` is accepted exactly when it is an address, and then it is the only field. */
  lemma NoColonUri(env: Env, uri: string)
    requires ':' !in uri
    ensures Bip21Spec(env, uri).Success? <==> env.isAddress(uri)
    ensures env.isAddress(uri) ==> Bip21Spec(env, uri) == Success(map["address" := Str(uri)])
    ensures !env.isAddress(uri) ==> Bip21Spec(env, uri) == Failure(Invalid(NotAnAddress))
  {
  }

  /** A scheme other than `bitcoin`, in any letter case, is refused. */
  lemma SchemeChecked(env: Env, uri: string)
    requires ':' in uri
    ensures Lower(env.urlParse(uri).scheme) != BitcoinScheme ==> Bip21Spec(env, uri) == Failure(Invalid(NotBitcoinUri))
    ensures Bip21Spec(env, uri).Success? ==> Lower(env.urlParse(uri).scheme) == BitcoinScheme
  {
  }

  /** The parts of a successful parse: the path and pairs read, no repeated key, and the fields from them. */
  lemma UriParts(env: Env, uri: string, o: Fields) returns (a: string, p: Pairs)
    requires ':' in uri && Bip21Spec(env, uri) == Success(o)
    ensures Lower(env.urlParse(uri).scheme) == BitcoinScheme
    ensures PathAndQuery(env, env.urlParse(uri)) == Success((a, p))
    ensures FirstDuplicate(Keys(p), Grouped(p)).None?
    ensures ProcessFields(env, a, FirstValues(Grouped(p))) == Success(o)
  {
    a := PathAndQuery(env, env.urlParse(uri)).value.0;
    p := PathAndQuery(env, env.urlParse(uri)).value.1;
  }

  /** A key that two query pairs carry makes the URI invalid. */
  lemma DuplicateKeyRefused(env: Env, uri: string, a: string, p: Pairs, i: nat, j: nat)
    requires ':' in uri && Lower(env.urlParse(uri).scheme) == BitcoinScheme
    requires PathAndQuery(env, env.urlParse(uri)) == Success((a, p))
    requires i < j < |p| && p[i].0 == p[j].0
    ensures Bip21Spec(env, uri).Failure? && Bip21Spec(env, uri).error.Invalid?
    ensures Bip21Spec(env, uri).error.err.DuplicateKey?
  {
    RepeatedKeyFound(p, i, j);
  }

  /** In an accepted URI no two query pairs share a key. */
  lemma AcceptedKeysUnique(env: Env, uri: string, o: Fields, i: nat, j: nat) returns (p: Pairs)
    requires ':' in uri && Bip21Spec(env, uri) == Success(o)
    ensures PathAndQuery(env, env.urlParse(uri)).Success? && p == PathAndQuery(env, env.urlParse(uri)).value.1
    ensures i < |p| && j < |p| && i != j ==> p[i].0 != p[j].0
  {
    var a;
    a, p := UriParts(env, uri, o);
    if i < |p| {
      UniqueKeys(p, i);
    }
  }

  /** In an accepted URI a non-empty path is a valid address and is the `address` field. */
  lemma AcceptedPath(env: Env, uri: string, o: Fields) returns (a: string)
    requires ':' in uri && Bip21Spec(env, uri) == Success(o)
    ensures PathAndQuery(env, env.urlParse(uri)).Success? && a == PathAndQuery(env, env.urlParse(uri)).value.0
    ensures a != [] ==> env.isAddress(a) && "address" in o && o["address"] == Str(a)
  {
    var p;
    a, p := UriParts(env, uri, o);
    if a != [] {
      ParsedAddress(env, a, FirstValues(Grouped(p)), o);
    }
  }

  /** An accepted URI holds text in every field but `amount`, `time` and `exp`, and a whole number in `amount`. */
  lemma AcceptedTypes(env: Env, uri: string, o: Fields)
    requires Bip21Spec(env, uri) == Success(o)
    ensures TextFields(o)
    ensures "amount" in o ==> o["amount"].Int?
  {
    if ':' !in uri {
      NoColonUri(env, uri);
    } else {
      var a, p := UriParts(env, uri, o);
      var out := FirstValues(Grouped(p));
      ParsedText(env, a, out, o);
      if "amount" in o {
        ParsedOtherKeys(env, a, out, o, "amount");
        ParsedAmount(env, a, out, o);
      }
    }
  }

  /** In an accepted URI a query pair the parser does not interpret is in the result as given. */
  lemma AcceptedPairKept(env: Env, uri: string, o: Fields, a: string, p: Pairs, i: nat)
    requires ':' in uri && Bip21Spec(env, uri) == Success(o)
    requires PathAndQuery(env, env.urlParse(uri)) == Success((a, p)) && i < |p|
    requires p[i].0 != "address" && p[i].0 != "amount" && p[i].0 != "memo"
    requires p[i].0 != "time" && p[i].0 != "exp" && p[i].0 != "sig"
    ensures p[i].0 in o && o[p[i].0] == Str(p[i].1)
  {
    var a', p' := UriParts(env, uri, o);
    QueryFieldsOfUniquePairs(p, i);
    ParsedOtherKeys(env, a, FirstValues(Grouped(p)), o, p[i].0);
  }

  /** In an accepted URI the `amount` pair is stored as the satoshis it reads as. */
  lemma AcceptedAmount(env: Env, uri: string, o: Fields, a: string, p: Pairs, i: nat)
    requires ':' in uri && Bip21Spec(env, uri) == Success(o)
    requires PathAndQuery(env, env.urlParse(uri)) == Success((a, p)) && i < |p| && p[i].0 == "amount"
    ensures "amount" in o && o["amount"].Int? && UriAmount(Str(p[i].1)) == Success(o["amount"].i)
    ensures o["amount"].i <= MaxSats
  {
    var a', p' := UriParts(env, uri, o);
    QueryFieldsOfUniquePairs(p, i);
    ParsedAmount(env, a, FirstValues(Grouped(p)), o);
  }

  // ------------------------------------------------------------- round trip

  lemma GroupedSnoc(p: Pairs, k: string, v: string)
    ensures Grouped(p + [(k, v)]) == Grouped(p)[k := (if k in Grouped(p) then Grouped(p)[k] else []) + [v]]
    ensures Keys(p + [(k, v)]) == if k in Keys(p) then Keys(p) else Keys(p) + [k]
  {
    assert (p + [(k, v)])[..|p|] == p;
  }

  /** The query dict read from `amount=…&message=…` is exactly those two fields. */
  lemma TwoPairFields(amount: string, msg: string)
    ensures var p := [("amount", amount), ("message", msg)];
      FirstDuplicate(Keys(p), Grouped(p)).None? &&
      FirstValues(Grouped(p)) == map["amount" := Str(amount), "message" := Str(msg)]
  {
    var p := [("amount", amount), ("message", msg)];
    assert "message" != "amount" by { assert |"message"| != |"amount"|; }
    assert p == [] + [("amount", amount)] + [("message", msg)];
    assert [] + [("amount", amount)] == [("amount", amount)];
    GroupedSnoc([], "amount", amount);
    assert Grouped([("amount", amount)]) == map["amount" := [amount]] by {
      assert [] + [amount] == [amount];
    }
    GroupedSnoc([("amount", amount)], "message", msg);
    var g := map["amount" := [amount], "message" := [msg]];
    assert [] + [msg] == [msg];
    assert Grouped(p) == g;
    assert Keys(p) == ["amount", "message"];
    assert FirstDuplicate(["message"], g) == None;
    assert FirstValues(g).Keys == g.Keys;
  }

  lemma PlainUriAddressAmount(env: Env, addr: string, out: Fields, n: int)
    ensures addr != [] && env.isAddress(addr) && "amount" in out && UriAmount(out["amount"]) == Success(n) ==>
      ProcessFields(env, addr, out) == AfterAmount(env, WithMessage(out["address" := Str(addr)]["amount" := Int(n)]))
  {
    if addr != [] && env.isAddress(addr) && "amount" in out && UriAmount(out["amount"]) == Success(n) {
      var o1 := out["address" := Str(addr)];
      assert WithAddress(env, addr, out) == Success(o1);
      assert "amount" in o1 && o1["amount"] == out["amount"];
    }
  }

  /** The keys the parser writes are distinct from each other and from `time`, `exp`, `sig`, `lightning`. */
  lemma KeyNamesDistinct()
    ensures "amount" != "message" && "amount" != "address" && "amount" != "memo"
    ensures "message" != "address" && "message" != "memo" && "address" != "memo"
    ensures "amount" != "time" && "amount" != "exp" && "amount" != "sig" && "amount" != "lightning"
    ensures "message" != "time" && "message" != "exp" && "message" != "sig" && "message" != "lightning"
    ensures "address" != "time" && "address" != "exp" && "address" != "sig" && "address" != "lightning"
    ensures "memo" != "time" && "memo" != "exp" && "memo" != "sig" && "memo" != "lightning"
  {
    assert "amount"[0] == 'a' && "message"[0] == 'm' && "address"[0] == 'a' && "memo"[0] == 'm';
    assert "amount"[1] == 'm' && "address"[1] == 'd' && "message"[1] == 'e' && "memo"[2] == 'm' && "message"[2] == 's';
    assert "time"[0] == 't' && "exp"[0] == 'e' && "sig"[0] == 's' && "lightning"[0] == 'l';
  }

  lemma PlainUriRest(env: Env, o: Fields)
    ensures "time" !in o && "exp" !in o && "sig" !in o && "lightning" !in o ==> AfterAmount(env, o) == Success(o)
  {
  }

  /** What the two-field dict holds once the address and the amount are written, and the message copied. */
  lemma TwoFieldsWritten(addr: string, amount: string, msg: string, n: int)
    ensures var out: Fields := map["amount" := Str(amount), "message" := Str(msg)];
      var o2 := out["address" := Str(addr)]["amount" := Int(n)];
      var o3 := o2["memo" := Str(msg)];
      "amount" in out && out["amount"] == Str(amount) && WithMessage(o2) == o3 &&
      "time" !in o3 && "exp" !in o3 && "sig" !in o3 && "lightning" !in o3
  {
    KeyNamesDistinct();
  }

  /** The fields of `amount=…&message=…` under a valid path: address, amount, message and memo. */
  lemma PlainUriFields(env: Env, addr: string, amount: string, msg: string, n: int)
    requires addr != [] && env.isAddress(addr) && UriAmount(Str(amount)) == Success(n)
    ensures var out: Fields := map["amount" := Str(amount), "message" := Str(msg)];
      ProcessFields(env, addr, out) == Success(out["address" := Str(addr)]["amount" := Int(n)]["memo" := Str(msg)])
  {
    var out: Fields := map["amount" := Str(amount), "message" := Str(msg)];
    TwoFieldsWritten(addr, amount, msg, n);
    PlainUriAddressAmount(env, addr, out, n);
    PlainUriRest(env, out["address" := Str(addr)]["amount" := Int(n)]["memo" := Str(msg)]);
  }

  lemma JoinTwo(a: string, b: string, sep: char)
    ensures Join([a, b], sep) == a + [sep] + b
  {
    assert [a, b][1..] == [b];
  }

  /** `create_bip21_uri` with a non-zero amount, a message and no extras writes `bitcoin:<addr>?amount=…&message=…`. */
  lemma CreateShape(env: Env, addr: string, n: int, msg: string)
    requires env.isAddress(addr) && n != 0 && msg != []
    ensures var items := LeadingItems(env, Some(n), Some(msg));
      CreateSpec(env, addr, Some(n), Some(msg), []) == Success(BitcoinScheme + ":" + addr + "?" + Join(items, '&'))
  {
    var items := LeadingItems(env, Some(n), Some(msg));
    assert ExtraItems(env, []) == [] && items + [] == items;
    var query := Join(items, '&');
    var a := "amount=" + FormatSatoshisPlain(n);
    var b := "message=" + env.quote(msg);
    assert items == [a, b];
    JoinTwo(a, b, '&');
    assert query != [];
    assert UnparseUri(addr, items) == BitcoinScheme + ":" + addr + ("?" + query);
    assert BitcoinScheme + ":" + addr + ("?" + query) == BitcoinScheme + ":" + addr + "?" + query;
  }

  /** `bitcoin:<addr>?<query>` with no `?` in the address reads the address as path and the query's pairs. */
  lemma UriReadsQuery(env: Env, uri: string, addr: string, query: string)
    requires uri == BitcoinScheme + ":" + addr + "?" + query && '?' !in addr
    requires env.urlParse(uri) == UrlParts(BitcoinScheme, "", addr, query)
    ensures ':' in uri && Lower(env.urlParse(uri).scheme) == BitcoinScheme
    ensures PathAndQuery(env, env.urlParse(uri)) == Success((addr, env.parseQsl(query)))
  {
    assert uri[7] == ':';
    assert Lower(BitcoinScheme) == BitcoinScheme;
  }

  /** A URI whose path and pairs are read, with no repeated key, has the fields those give. */
  lemma SpecFromParts(env: Env, uri: string, a: string, p: Pairs)
    requires ':' in uri && Lower(env.urlParse(uri).scheme) == BitcoinScheme
    requires PathAndQuery(env, env.urlParse(uri)) == Success((a, p)) && FirstDuplicate(Keys(p), Grouped(p)).None?
    ensures Bip21Spec(env, uri) == ProcessFields(env, a, FirstValues(Grouped(p)))
  {
  }

  /** The fields of an accepted URI whose path is an address and whose query is `amount` and `message`. */
  lemma PlainUriParse(env: Env, uri: string, addr: string, amount: string, msg: string, n: int)
    requires ':' in uri && Lower(env.urlParse(uri).scheme) == BitcoinScheme
    requires PathAndQuery(env, env.urlParse(uri)) == Success((addr, [("amount", amount), ("message", msg)]))
    requires addr != [] && env.isAddress(addr) && UriAmount(Str(amount)) == Success(n)
    ensures Bip21Spec(env, uri).Success?
    ensures var o := Bip21Spec(env, uri).value;
      "address" in o && o["address"] == Str(addr) && "amount" in o && o["amount"] == Int(n) &&
      "message" in o && o["message"] == Str(msg) && "memo" in o && o["memo"] == Str(msg)
    ensures forall k :: k in Bip21Spec(env, uri).value ==> k == "amount" || k == "message" || k == "address" || k == "memo"
  {
    var out: Fields := map["amount" := Str(amount), "message" := Str(msg)];
    var o := out["address" := Str(addr)]["amount" := Int(n)]["memo" := Str(msg)];
    assert Bip21Spec(env, uri) == Success(o) by {
      var p := [("amount", amount), ("message", msg)];
      TwoPairFields(amount, msg);
      SpecFromParts(env, uri, addr, p);
      PlainUriFields(env, addr, amount, msg, n);
    }
    PlainFieldsRead(addr, amount, msg, n, o);
  }

  lemma PlainFieldsRead(addr: string, amount: string, msg: string, n: int, o: Fields)
    requires o == map["amount" := Str(amount), "message" := Str(msg)]["address" := Str(addr)]["amount" := Int(n)]["memo" := Str(msg)]
    ensures "address" in o && o["address"] == Str(addr) && "amount" in o && o["amount"] == Int(n)
    ensures "message" in o && o["message"] == Str(msg) && "memo" in o && o["memo"] == Str(msg)
    ensures forall k :: k in o ==> k == "amount" || k == "message" || k == "address" || k == "memo"
  {
    KeyNamesDistinct();
  }

  /** The query dict read from a single pair. */
  lemma OnePairFields(k: string, v: string)
    ensures FirstDuplicate(Keys([(k, v)]), Grouped([(k, v)])).None?
    ensures FirstValues(Grouped([(k, v)])) == map[k := Str(v)]
  {
    assert [] + [(k, v)] == [(k, v)] && [] + [v] == [v];
    GroupedSnoc([], k, v);
    assert Grouped([(k, v)]) == map[k := [v]];
    assert Keys([(k, v)]) == [k];
  }

  /** The fields of `amount=…` alone under a valid path: the address and the amount in satoshis. */
  lemma AmountOnlyFields(env: Env, addr: string, amount: string, n: int)
    requires addr != [] && env.isAddress(addr) && UriAmount(Str(amount)) == Success(n)
    ensures ProcessFields(env, addr, map["amount" := Str(amount)]) ==
      Success(map["amount" := Str(amount)]["address" := Str(addr)]["amount" := Int(n)])
  {
    var out: Fields := map["amount" := Str(amount)];
    OneFieldWritten(addr, amount, n);
    PlainUriAddressAmount(env, addr, out, n);
    PlainUriRest(env, out["address" := Str(addr)]["amount" := Int(n)]);
  }

  /** What the one-field dict holds once the address and the amount are written. */
  lemma OneFieldWritten(addr: string, amount: string, n: int)
    ensures var out: Fields := map["amount" := Str(amount)];
      var o2 := out["address" := Str(addr)]["amount" := Int(n)];
      "amount" in out && out["amount"] == Str(amount) && WithMessage(o2) == o2 &&
      "time" !in o2 && "exp" !in o2 && "sig" !in o2 && "lightning" !in o2
  {
    KeyNamesDistinct();
  }

  /** The fields of `message=…` alone under a valid path: the address, the message and the memo. */
  lemma MessageOnlyFields(env: Env, addr: string, msg: string)
    requires addr != [] && env.isAddress(addr)
    ensures ProcessFields(env, addr, map["message" := Str(msg)]) ==
      Success(map["message" := Str(msg)]["address" := Str(addr)]["memo" := Str(msg)])
  {
    var o1: Fields := map["message" := Str(msg)]["address" := Str(addr)];
    KeyNamesDistinct();
    assert WithAddress(env, addr, map["message" := Str(msg)]) == Success(o1);
    assert WithAmount(o1) == Success(o1);
    assert WithMessage(o1) == o1["memo" := Str(msg)];
    PlainUriRest(env, o1["memo" := Str(msg)]);
  }

  /** An empty query under a valid path gives the address alone. */
  lemma EmptyQueryFields(env: Env, addr: string)
    requires addr != [] && env.isAddress(addr)
    ensures ProcessFields(env, addr, map[]) == Success(map["address" := Str(addr)])
  {
    var o1: Fields := map["address" := Str(addr)];
    KeyNamesDistinct();
    assert WithAmount(o1) == Success(o1) && WithMessage(o1) == o1;
    PlainUriRest(env, o1);
  }

  /** The pairs `parse_qs` must give back for the items `create_bip21_uri` writes. */
  function CreatedPairs(n: int, msg: string): Pairs {
    (if n != 0 then [("amount", FormatSatoshisPlain(n))] else []) + (if msg != [] then [("message", msg)] else [])
  }

  /** The dict reads as the address, the amount exactly when it is non-zero, and the message and memo exactly when it is non-empty. */
  predicate ReadsBack(o: Fields, addr: string, n: int, msg: string) {
    "address" in o && o["address"] == Str(addr) &&
    ("amount" in o <==> n != 0) && (n != 0 ==> o["amount"] == Int(n)) &&
    ("message" in o <==> msg != []) && ("memo" in o <==> msg != []) &&
    (msg != [] ==> o["message"] == Str(msg) && o["memo"] == Str(msg)) &&
    forall k :: k in o ==> k == "address" || k == "amount" || k == "message" || k == "memo"
  }

  lemma AmountOnlyRead(addr: string, amount: string, n: int)
    requires n != 0
    ensures ReadsBack(map["amount" := Str(amount)]["address" := Str(addr)]["amount" := Int(n)], addr, n, [])
  {
    KeyNamesDistinct();
  }

  lemma MessageOnlyRead(addr: string, msg: string)
    requires msg != []
    ensures ReadsBack(map["message" := Str(msg)]["address" := Str(addr)]["memo" := Str(msg)], addr, 0, msg)
  {
    KeyNamesDistinct();
  }

  lemma AddressOnlyRead(addr: string)
    ensures ReadsBack(map["address" := Str(addr)], addr, 0, [])
  {
    KeyNamesDistinct();
  }

  lemma BothRead(addr: string, amount: string, n: int, msg: string)
    requires n != 0 && msg != []
    ensures ReadsBack(map["amount" := Str(amount), "message" := Str(msg)]["address" := Str(addr)]["amount" := Int(n)]["memo" := Str(msg)], addr, n, msg)
  {
    PlainFieldsRead(addr, amount, msg, n, map["amount" := Str(amount), "message" := Str(msg)]["address" := Str(addr)]["amount" := Int(n)]["memo" := Str(msg)]);
  }

  /** Under a valid path the created pairs have no repeated key and give the fields `ReadsBack` describes. */
  lemma CreatedPairsFields(env: Env, addr: string, n: int, msg: string) returns (o: Fields)
    requires addr != [] && env.isAddress(addr) && n <= MaxSats
    ensures FirstDuplicate(Keys(CreatedPairs(n, msg)), Grouped(CreatedPairs(n, msg))).None?
    ensures ProcessFields(env, addr, FirstValues(Grouped(CreatedPairs(n, msg)))) == Success(o)
    ensures ReadsBack(o, addr, n, msg)
  {
    if n != 0 && msg != [] {
      o := BothCreated(env, addr, n, msg);
    } else if n != 0 {
      o := AmountCreated(env, addr, n, msg);
    } else if msg != [] {
      o := MessageCreated(env, addr, n, msg);
    } else {
      o := NothingCreated(env, addr, n, msg);
    }
  }

  lemma BothCreated(env: Env, addr: string, n: int, msg: string) returns (o: Fields)
    requires addr != [] && env.isAddress(addr) && n <= MaxSats && n != 0 && msg != []
    ensures FirstDuplicate(Keys(CreatedPairs(n, msg)), Grouped(CreatedPairs(n, msg))).None?
    ensures ProcessFields(env, addr, FirstValues(Grouped(CreatedPairs(n, msg)))) == Success(o)
    ensures ReadsBack(o, addr, n, msg)
  {
    var amount := FormatSatoshisPlain(n);
    PlainAmountReadsBack(n);
    assert CreatedPairs(n, msg) == [("amount", amount), ("message", msg)];
    TwoPairFields(amount, msg);
    PlainUriFields(env, addr, amount, msg, n);
    o := map["amount" := Str(amount), "message" := Str(msg)]["address" := Str(addr)]["amount" := Int(n)]["memo" := Str(msg)];
    BothRead(addr, amount, n, msg);
  }

  lemma AmountCreated(env: Env, addr: string, n: int, msg: string) returns (o: Fields)
    requires addr != [] && env.isAddress(addr) && n <= MaxSats && n != 0 && msg == []
    ensures FirstDuplicate(Keys(CreatedPairs(n, msg)), Grouped(CreatedPairs(n, msg))).None?
    ensures ProcessFields(env, addr, FirstValues(Grouped(CreatedPairs(n, msg)))) == Success(o)
    ensures ReadsBack(o, addr, n, msg)
  {
    var amount := FormatSatoshisPlain(n);
    PlainAmountReadsBack(n);
    assert CreatedPairs(n, msg) == [("amount", amount)];
    OnePairFields("amount", amount);
    AmountOnlyFields(env, addr, amount, n);
    o := map["amount" := Str(amount)]["address" := Str(addr)]["amount" := Int(n)];
    AmountOnlyRead(addr, amount, n);
  }

  lemma MessageCreated(env: Env, addr: string, n: int, msg: string) returns (o: Fields)
    requires addr != [] && env.isAddress(addr) && n == 0 && msg != []
    ensures FirstDuplicate(Keys(CreatedPairs(n, msg)), Grouped(CreatedPairs(n, msg))).None?
    ensures ProcessFields(env, addr, FirstValues(Grouped(CreatedPairs(n, msg)))) == Success(o)
    ensures ReadsBack(o, addr, n, msg)
  {
    assert CreatedPairs(n, msg) == [("message", msg)];
    OnePairFields("message", msg);
    MessageOnlyFields(env, addr, msg);
    o := map["message" := Str(msg)]["address" := Str(addr)]["memo" := Str(msg)];
    MessageOnlyRead(addr, msg);
  }

  lemma NothingCreated(env: Env, addr: string, n: int, msg: string) returns (o: Fields)
    requires addr != [] && env.isAddress(addr) && n == 0 && msg == []
    ensures FirstDuplicate(Keys(CreatedPairs(n, msg)), Grouped(CreatedPairs(n, msg))).None?
    ensures ProcessFields(env, addr, FirstValues(Grouped(CreatedPairs(n, msg)))) == Success(o)
    ensures ReadsBack(o, addr, n, msg)
  {
    assert CreatedPairs(n, msg) == [];
    EmptyQueryFields(env, addr);
    o := map["address" := Str(addr)];
    AddressOnlyRead(addr);
  }

  /** What `urlparse` and `parse_qs` must give back for the URI that `create_bip21_uri` wrote. */
  lemma CreatedUriRead(env: Env, addr: string, n: int, msg: string, uri: string)
    requires env.isAddress(addr) && '?' !in addr
    requires CreateSpec(env, addr, Some(n), Some(msg), []) == Success(uri)
    requires env.urlParse(uri) == UrlParts(BitcoinScheme, "", addr, Join(LeadingItems(env, Some(n), Some(msg)), '&'))
    ensures ':' in uri && Lower(env.urlParse(uri).scheme) == BitcoinScheme
    ensures PathAndQuery(env, env.urlParse(uri)) == Success((addr, env.parseQsl(Join(LeadingItems(env, Some(n), Some(msg)), '&'))))
  {
    var items := LeadingItems(env, Some(n), Some(msg));
    assert ExtraItems(env, []) == [] && items + [] == items;
    assert uri == UnparseUri(addr, items);
    assert uri[7] == ':';
    assert Lower(BitcoinScheme) == BitcoinScheme;
  }

  /**
   * A URI written by `create_bip21_uri` parses back to its address, amount and message, when
   * `urlparse` and `parse_qs` undo what it wrote (the path is the address, the query the items).
   * A zero amount or an empty message is not written, and comes back absent.
   */
  lemma CreateThenParse(env: Env, addr: string, n: int, msg: string, uri: string)
    requires env.isAddress(addr) && addr != [] && '?' !in addr && n <= MaxSats
    requires CreateSpec(env, addr, Some(n), Some(msg), []) == Success(uri)
    requires env.urlParse(uri) == UrlParts(BitcoinScheme, "", addr, Join(LeadingItems(env, Some(n), Some(msg)), '&'))
    requires env.parseQsl(Join(LeadingItems(env, Some(n), Some(msg)), '&')) == CreatedPairs(n, msg)
    ensures Bip21Spec(env, uri).Success?
    ensures ReadsBack(Bip21Spec(env, uri).value, addr, n, msg)
  {
    CreatedUriRead(env, addr, n, msg, uri);
    var o := CreatedPairsFields(env, addr, n, msg);
    SpecFromParts(env, uri, addr, CreatedPairs(n, msg));
  }

  /**
   * `bitcoin:<addr>?amount=<format_satoshis_plain(n)>` reads as the address and `n`, zero included,
   * or is refused above the supply, when `urlparse` and `parse_qs` split it as written.
   */
  lemma AmountOnlyUri(env: Env, addr: string, n: int, uri: string)
    requires env.isAddress(addr) && addr != [] && '?' !in addr
    requires uri == BitcoinScheme + ":" + addr + "?amount=" + FormatSatoshisPlain(n)
    requires env.urlParse(uri) == UrlParts(BitcoinScheme, "", addr, "amount=" + FormatSatoshisPlain(n))
    requires env.parseQsl("amount=" + FormatSatoshisPlain(n)) == [("amount", FormatSatoshisPlain(n))]
    ensures n <= MaxSats ==> Bip21Spec(env, uri).Success?
    ensures n <= MaxSats ==> (var o := Bip21Spec(env, uri).value;
      "address" in o && o["address"] == Str(addr) && "amount" in o && o["amount"] == Int(n) &&
      forall k :: k in o ==> k == "address" || k == "amount")
    ensures n > MaxSats ==> Bip21Spec(env, uri) == Failure(Invalid(AmountOutOfBounds))
  {
    var amount := FormatSatoshisPlain(n);
    assert uri[7] == ':';
    assert Lower(BitcoinScheme) == BitcoinScheme;
    assert PathAndQuery(env, env.urlParse(uri)) == Success((addr, [("amount", amount)]));
    OnePairFields("amount", amount);
    SpecFromParts(env, uri, addr, [("amount", amount)]);
    PlainAmountReadsBack(n);
    if n <= MaxSats {
      AmountOnlyFields(env, addr, amount, n);
      KeyNamesDistinct();
    } else {
      assert WithAddress(env, addr, map["amount" := Str(amount)]) == Success(map["amount" := Str(amount)]["address" := Str(addr)]);
    }
  }
}
