/**
 * `PaymentIdentifier`: the object that classifies one text without the
 * network, then fills in what the resolution rounds fetch, and projects its
 * state for display and into an invoice. Its fields are independent
 * optional values, as in the source: several may be set at once.
 *
 * Each operation is specified by a function from the state before to the
 * state after (and the result); the class methods are proved against those
 * functions, and the lemmas below state what the functions promise.
 */
module Identifier {
  import opened Wrappers
  import opened Text
  import opened Hex
  import opened Decimals
  import opened Codecs
  import opened Schemes
  import opened Bip21
  import opened Bip21Fields
  import opened PayTo

  /** The family `_type` names: `multiline`, `lnurl`, `bolt11`, `bip21`, `spk`, `alias`. */
  datatype PiType = Multiline | Lnurl | Bolt11 | Bip21Uri | Spk | Alias

  /** What `error` holds. */
  datatype PiError =
    | LineErrors(errors: seq<LineError>)      // `str(errors)` of a batch
    | LnurlDecodeError(msg: string)           // "Error parsing Lightning invoice" and the decoder's message
    | BadUri(err: UriError)                   // "Error parsing URI" and the `InvalidBitcoinURI` reason
    | Unknown(shown: string)                  // `FailedToParsePaymentIdentifier` with the truncated text
    | RequestError(msg: string)               // the error of a fetched BIP 70 request
    | AmountOutOfRange(min: int, max: int)    // round 2: the amount is outside the LNURL bounds
    | LnurlRequestError(msg: string)          // round 2: the LNURL callback failed

  /**
   * The fields of a `PaymentIdentifier`. `warning` holds the alias that the
   * unvalidated-alias warning names.
   */
  datatype State = PiState(
    text: string,
    kind: Option<PiType>,
    error: Option<PiError>,
    warning: Option<string>,
    multilineOutputs: Option<seq<TxOutput>>,
    bolt11: Option<string>,
    bip21: Option<Fields>,
    spk: Option<Bytes>,
    openalias: Option<string>,
    openaliasData: Option<AliasData>,
    bip70: Option<string>,
    bip70Data: Option<PaymentRequest>,
    lnurl: Option<string>,
    lnurlData: Option<LnurlData>)

  /** The state `__init__` sets up before it parses. */
  function Initial(text: string): State {
    PiState(text, None, None, None, None, None, None, None, None, None, None, None, None, None)
  }

  /** Python's truth value of an optional string. */
  predicate NonEmpty(s: Option<string>) {
    s.Some? && s.value != []
  }

  /** A text field of a parsed URI. */
  function TextField(out: Fields, k: string): Option<string> {
    if k in out && out[k].Str? then Some(out[k].s) else None
  }

  /** The whole-number `amount` of a parsed URI. */
  function AmountField(out: Fields): Option<Dec> {
    if "amount" in out && out["amount"].Int? then Some(Dec(out["amount"].i, 0)) else None
  }

  /** A parsed URI's text fields are read exactly: every one holds text. */
  lemma AcceptedFieldsRead(env: Env, uri: string, o: Fields, k: string)
    requires Bip21Spec(env, uri) == Success(o) && k in o && k != "amount" && k != "time" && k != "exp"
    ensures o[k].Str? && TextField(o, k) == Some(o[k].s)
    ensures "amount" in o ==> o["amount"].Int? && AmountField(o) == Some(Dec(o["amount"].i, 0))
  {
    AcceptedTypes(env, uri, o);
  }

  /** The end of a step that may raise: the state it leaves, and the exception if one escaped. */
  datatype Step = Step(st: State, raised: Option<string>)

  // ----------------------------------------------------------------- parse

  /** `f"{text[:100]}..."` for a text longer than 100 characters. */
  function Truncated(t: string): string {
    if |t| > 100 then t[..100] + "..." else t
  }

  /**
   * `_parse_as_multiline(t)`: the outputs of the non-empty lines; `error` is
   * set from the line errors (or cleared) when there is more than one line
   * or at least one output.
   */
  function MultilineStage(env: Env, st: State, t: string): (State, seq<TxOutput>) {
    var lines := NonEmptyLines(t);
    var b := Batch(LineParser(env), lines);
    var st1 := if |lines| > 1 || b.0 != [] then st.(error := if b.1 != [] then Some(LineErrors(b.1)) else None) else st;
    (st1, b.0)
  }

  /** The families after the batch, in order: Lightning, `bitcoin:` URI, then a script or an e-mail-like alias. */
  function Classify(env: Env, st: State, t: string): Step {
    match MaybeExtractLightning(t)
    case Some(inv) => InvoiceStep(env, st, inv)
    case None => if StartsWith(Lower(t), BitcoinScheme + ":") then UriStep(env, st, t) else TargetStep(env, st, t)
  }

  /** A Lightning identifier: an `lnurl` pointer is decoded to its URL, anything else is an invoice. */
  function InvoiceStep(env: Env, st: State, inv: string): Step {
    if StartsWith(inv, "lnurl") then
      var st1 := st.(kind := Some(Lnurl));
      match env.decodeLnurl(inv)
      case Success(url) => Step(st1.(lnurl := Some(url)), None)
      case Failure(e) => Step(st1.(error := Some(LnurlDecodeError(e))), None)
    else Step(st.(kind := Some(Bolt11), bolt11 := Some(inv)), None)
  }

  /** A `bitcoin:` URI: its fields and `r` reference, the reason it is invalid, or the exception its parser raised. */
  function UriStep(env: Env, st: State, t: string): Step {
    match Bip21Spec(env, t)
    case Failure(Invalid(e)) => Step(st.(error := Some(BadUri(e))), None)
    case Failure(Raised(x)) => Step(st, Some(x))
    case Success(out) => Step(st.(kind := Some(Bip21Uri), bip21 := Some(out), bip70 := TextField(out, "r")), None)
  }

  /** A non-empty script; else an e-mail-like alias; else the failure, with the text truncated. */
  function TargetStep(env: Env, st: State, t: string): Step {
    var spk := OutputOf(env, t);
    if spk.Some? && spk.value != [] then Step(st.(kind := Some(Spk), spk := spk), None)
    else if EmailMatch(t) then Step(st.(kind := Some(Alias), openalias := Some(t)), None)
    else Step(st.(error := Some(Unknown(Truncated(t)))), None)
  }

  /** `parse(text)` on state `st`. */
  function ParseStep(env: Env, st: State, text: string): Step {
    var t := Strip(text);
    if t == [] then Step(st, None)
    else
      var m := MultilineStage(env, st, t);
      if m.1 != [] then Step(m.0.(kind := Some(Multiline), multilineOutputs := Some(m.1)), None)
      else Classify(env, m.0, t)
  }

  predicate IsValid(st: State) { st.kind.Some? }
  predicate IsLightning(st: State) { NonEmpty(st.lnurl) || NonEmpty(st.bolt11) }
  predicate IsMultiline(st: State) { st.multilineOutputs.Some? && st.multilineOutputs.value != [] }

  /** Empty or blank text changes nothing: a new identifier for it is not valid and has no error. */
  lemma BlankTextIgnored(env: Env, text: string)
    requires Strip(text) == []
    ensures forall st :: ParseStep(env, st, text) == Step(st, None)
    ensures !IsValid(ParseStep(env, Initial(text), text).st) && ParseStep(env, Initial(text), text).st.error.None?
  {
  }

  /** A batch with at least one output wins over every other family. */
  lemma MultilineFirst(env: Env, st: State, text: string)
    requires Strip(text) != [] && Batch(LineParser(env), NonEmptyLines(Strip(text))).0 != []
    ensures var b := Batch(LineParser(env), NonEmptyLines(Strip(text)));
      var r := ParseStep(env, st, text);
      r.raised.None? && r.st.kind == Some(Multiline) && r.st.multilineOutputs == Some(b.0) &&
      r.st.error == (if b.1 != [] then Some(LineErrors(b.1)) else None)
  {
  }

  /** The batch sets `error` only for more than one line or some output, and clears it when no line failed. */
  lemma MultilineErrorRule(env: Env, st: State, t: string)
    ensures var lines := NonEmptyLines(t);
      var b := Batch(LineParser(env), lines);
      var st1 := MultilineStage(env, st, t).0;
      (|lines| > 1 || b.0 != [] ==> st1.error == (if b.1 != [] then Some(LineErrors(b.1)) else None)) &&
      (!(|lines| > 1 || b.0 != []) ==> st1 == st)
  {
  }

  /** A single line that does not parse as `address,amount` leaves the state alone and the next families are tried. */
  lemma OneBadLineFallsThrough(env: Env, st: State, text: string)
    requires Strip(text) != [] && '\n' !in Strip(text) && LineOf(env, Strip(text)).Failure?
    ensures ParseStep(env, st, text) == Classify(env, st, Strip(text))
  {
    var t := Strip(text);
    OneLine(t);
    assert Batch(LineParser(env), [t]).0 == [] by {
      assert [t][..0] == [];
    }
  }

  /** With no batch output, Lightning comes next: `lnurl` makes a pointer, anything else an invoice. */
  lemma LightningSecond(env: Env, st: State, t: string, inv: string)
    requires MaybeExtractLightning(t) == Some(inv)
    ensures var r := Classify(env, st, t);
      r.raised.None? &&
      r.st.kind == Some(if StartsWith(inv, "lnurl") then Lnurl else Bolt11) &&
      (!StartsWith(inv, "lnurl") ==> r.st.bolt11 == Some(inv) && r.st.error == st.error) &&
      (StartsWith(inv, "lnurl") && env.decodeLnurl(inv).Success? ==> r.st.lnurl == Some(env.decodeLnurl(inv).value)) &&
      (StartsWith(inv, "lnurl") && env.decodeLnurl(inv).Failure? ==>
        r.st.lnurl == st.lnurl && r.st.error == Some(LnurlDecodeError(env.decodeLnurl(inv).error)))
  {
  }

  /** Then a `bitcoin:` URI: its fields and its `r` reference, or the reason it is invalid. */
  lemma UriThird(env: Env, st: State, t: string)
    requires MaybeExtractLightning(t).None? && StartsWith(Lower(t), BitcoinScheme + ":")
    ensures var r := Classify(env, st, t);
      var u := Bip21Spec(env, t);
      (u.Success? ==> r == Step(st.(kind := Some(Bip21Uri), bip21 := Some(u.value), bip70 := TextField(u.value, "r")), None)) &&
      (u.Failure? && u.error.Invalid? ==> r == Step(st.(error := Some(BadUri(u.error.err))), None)) &&
      (u.Failure? && u.error.Raised? ==> r == Step(st, Some(u.error.exc)))
  {
  }

  /** Then a non-empty script; then an e-mail-like alias; otherwise the text, truncated, is the error. */
  lemma LaterFamilies(env: Env, st: State, t: string)
    requires MaybeExtractLightning(t).None? && !StartsWith(Lower(t), BitcoinScheme + ":")
    ensures var r := Classify(env, st, t);
      var spk := OutputOf(env, t);
      r.raised.None? &&
      (spk.Some? && spk.value != [] ==> r.st == st.(kind := Some(Spk), spk := spk)) &&
      (!(spk.Some? && spk.value != []) && EmailMatch(t) ==> r.st == st.(kind := Some(Alias), openalias := Some(t))) &&
      (!(spk.Some? && spk.value != []) && !EmailMatch(t) ==>
        r.st.kind == st.kind &&
        r.st.error == Some(Unknown(if |t| > 100 then t[..100] + "..." else t)))
  {
  }

  /** `b` has the data the rounds fetch, the warning and the text of `a`. */
  predicate KeepsFetched(a: State, b: State) {
    b.openaliasData == a.openaliasData && b.bip70Data == a.bip70Data && b.lnurlData == a.lnurlData &&
    b.warning == a.warning && b.text == a.text
  }

  /** No field of `a` that names a target, and not its family, is cleared in `b`. */
  predicate OnlySets(a: State, b: State) {
    (a.openalias.Some? ==> b.openalias.Some?) && (a.bolt11.Some? ==> b.bolt11.Some?) &&
    (a.spk.Some? ==> b.spk.Some?) && (a.bip21.Some? ==> b.bip21.Some?) && (a.lnurl.Some? ==> b.lnurl.Some?) &&
    (a.multilineOutputs.Some? ==> b.multilineOutputs.Some?) && (a.kind.Some? ==> b.kind.Some?)
  }

  lemma ClassifyFrame(env: Env, st: State, t: string)
    ensures KeepsFetched(st, Classify(env, st, t).st) && OnlySets(st, Classify(env, st, t).st)
  {
    InvoiceClassifyFrame(env, st, t);
    UriClassifyFrame(env, st, t);
    TargetClassifyFrame(env, st, t);
  }

  lemma InvoiceClassifyFrame(env: Env, st: State, t: string)
    ensures MaybeExtractLightning(t).Some? ==>
      KeepsFetched(st, Classify(env, st, t).st) && OnlySets(st, Classify(env, st, t).st)
  {
    ClassifyInvoice(env, st, t);
    if MaybeExtractLightning(t).Some? {
      InvoiceFrame(env, st, MaybeExtractLightning(t).value);
    }
  }

  lemma ClassifyInvoice(env: Env, st: State, t: string)
    ensures MaybeExtractLightning(t).Some? ==> Classify(env, st, t) == InvoiceStep(env, st, MaybeExtractLightning(t).value)
  {
  }

  lemma InvoiceFrame(env: Env, st: State, inv: string)
    ensures KeepsFetched(st, InvoiceStep(env, st, inv).st) && OnlySets(st, InvoiceStep(env, st, inv).st)
  {
  }

  lemma UriClassifyFrame(env: Env, st: State, t: string)
    ensures MaybeExtractLightning(t).None? && StartsWith(Lower(t), BitcoinScheme + ":") ==>
      KeepsFetched(st, Classify(env, st, t).st) && OnlySets(st, Classify(env, st, t).st)
  {
    if MaybeExtractLightning(t).None? && StartsWith(Lower(t), BitcoinScheme + ":") {
      assert Classify(env, st, t) == UriStep(env, st, t);
      UriFrame(env, st, t);
    }
  }

  lemma TargetClassifyFrame(env: Env, st: State, t: string)
    ensures MaybeExtractLightning(t).None? && !StartsWith(Lower(t), BitcoinScheme + ":") ==>
      KeepsFetched(st, Classify(env, st, t).st) && OnlySets(st, Classify(env, st, t).st)
  {
    if MaybeExtractLightning(t).None? && !StartsWith(Lower(t), BitcoinScheme + ":") {
      assert Classify(env, st, t) == TargetStep(env, st, t);
      TargetFrame(env, st, t);
    }
  }

  lemma UriFrame(env: Env, st: State, t: string)
    ensures KeepsFetched(st, UriStep(env, st, t).st) && OnlySets(st, UriStep(env, st, t).st)
  {
    match Bip21Spec(env, t)
    case Failure(Invalid(e)) =>
    case Failure(Raised(x)) =>
    case Success(out) =>
  }

  lemma TargetFrame(env: Env, st: State, t: string)
    ensures KeepsFetched(st, TargetStep(env, st, t).st) && OnlySets(st, TargetStep(env, st, t).st)
  {
    var spk := OutputOf(env, t);
    var r := TargetStep(env, st, t);
    if spk.Some? && spk.value != [] {
      assert r.st == st.(kind := Some(Spk), spk := spk);
    } else if EmailMatch(t) {
      assert r.st == st.(kind := Some(Alias), openalias := Some(t));
    } else {
      assert r.st == st.(error := r.st.error);
    }
  }

  /** Parsing never touches the data the rounds fetch, the warning or the text, and it only sets targets. */
  lemma ParseFrame(env: Env, st: State, text: string)
    ensures KeepsFetched(st, ParseStep(env, st, text).st) && OnlySets(st, ParseStep(env, st, text).st)
  {
    var t := Strip(text);
    if t != [] {
      var m := MultilineStage(env, st, t);
      assert KeepsFetched(st, m.0) && OnlySets(st, m.0);
      if m.1 == [] {
        ClassifyFrame(env, m.0, t);
      }
    }
  }

  // --------------------------------------------------------- round predicates

  predicate NeedsRound1(st: State) { NonEmpty(st.bip70) || NonEmpty(st.openalias) || NonEmpty(st.lnurl) }
  predicate NeedsRound2(st: State) { NonEmpty(st.lnurl) && st.lnurlData.Some? }
  predicate NeedsRound3(st: State) { NonEmpty(st.bip70) }

  /** A new identifier of a pointer needs round 1 and not yet round 2. */
  lemma LnurlNeedsRound1(env: Env, text: string)
    requires ParseStep(env, Initial(text), text).st.kind == Some(Lnurl)
    requires ParseStep(env, Initial(text), text).st.lnurl.Some?
    ensures var s := ParseStep(env, Initial(text), text).st;
      !NeedsRound2(s) && (s.lnurl.value != [] ==> NeedsRound1(s))
  {
    ParseFrame(env, Initial(text), text);
  }

  /** A new identifier of a URI with an `r` reference needs rounds 1 and 3. */
  lemma Bip70NeedsRounds(env: Env, text: string)
    requires ParseStep(env, Initial(text), text).st.kind == Some(Bip21Uri)
    requires NonEmpty(ParseStep(env, Initial(text), text).st.bip70)
    ensures var s := ParseStep(env, Initial(text), text).st;
      NeedsRound1(s) && NeedsRound3(s) && !NeedsRound2(s)
  {
    ParseFrame(env, Initial(text), text);
  }

  // ------------------------------------------------------------------ round 1

  /** How a round ends: it returned early, it called `on_success`, or an exception escaped. */
  datatype RoundOutcome = Returned | CalledBack | Threw(exc: string)

  /**
   * `resolve_openalias()`: nothing for a key that cannot be an alias or that
   * is an address, or when the lookup fails or finds nothing; otherwise the
   * data, after the found address is parsed into this same state.
   */
  function ResolveOf(env: Env, net: Network, st: State): (Step, Option<AliasData>)
    requires st.openalias.Some?
  {
    var key := st.openalias.value;
    if !('.' in key && '<' !in key && ' ' !in key) then (Step(st, None), None)
    else if env.isAddress(Split(key, ',')[0]) then (Step(st, None), None)
    else
      match net.resolveAlias(key)
      case Failure(_) => (Step(st, None), None)
      case Success(None) => (Step(st, None), None)
      case Success(Some(d)) => (ParseStep(env, st, d.address), Some(d))
  }

  /** `round_1`: resolve the alias, fetch the BIP 70 request, or fetch the LNURL parameters. */
  function Round1Of(env: Env, net: Network, st: State): (State, RoundOutcome) {
    if NonEmpty(st.openalias) then
      var r := ResolveOf(env, net, st);
      if r.0.raised.Some? then (r.0.st, Threw(r.0.raised.value))
      else
        var st1 := r.0.st.(openaliasData := r.1);
        if r.1.None? then (st1, Threw("AttributeError"))
        else if !r.1.value.validated then (st1.(warning := st1.openalias), CalledBack)
        else (st1, CalledBack)
    else if NonEmpty(st.bip70) then (st.(bip70Data := Some(net.getPaymentRequest(st.bip70.value))), CalledBack)
    else if NonEmpty(st.lnurl) then
      match net.requestLnurl(st.lnurl.value)
      case Failure(e) => (st, Threw(e))
      case Success(d) => (st.(lnurlData := Some(d)), CalledBack)
    else (st, Returned)
  }

  /** Without anything to fetch, round 1 returns at once and changes nothing. */
  lemma Round1NotNeeded(env: Env, net: Network, st: State)
    requires !NeedsRound1(st)
    ensures Round1Of(env, net, st) == (st, Returned)
  {
  }

  /** Round 1 calls back only when something was needed. */
  lemma Round1CallsBackOnlyWhenNeeded(env: Env, net: Network, st: State)
    requires Round1Of(env, net, st).1 == CalledBack
    ensures NeedsRound1(st)
  {
  }

  /** A pointer's parameters are stored, after which round 2 is needed. */
  lemma Round1Lnurl(env: Env, net: Network, st: State, d: LnurlData)
    requires !NonEmpty(st.openalias) && !NonEmpty(st.bip70) && NonEmpty(st.lnurl)
    requires net.requestLnurl(st.lnurl.value) == Success(d)
    ensures Round1Of(env, net, st) == (st.(lnurlData := Some(d)), CalledBack)
    ensures NeedsRound2(Round1Of(env, net, st).0)
  {
  }

  /** A failed LNURL request escapes and stores nothing. */
  lemma Round1LnurlFails(env: Env, net: Network, st: State)
    requires !NonEmpty(st.openalias) && !NonEmpty(st.bip70) && NonEmpty(st.lnurl)
    requires net.requestLnurl(st.lnurl.value).Failure?
    ensures Round1Of(env, net, st) == (st, Threw(net.requestLnurl(st.lnurl.value).error))
  {
  }

  /** A BIP 70 reference is fetched and the request stored. */
  lemma Round1Bip70(env: Env, net: Network, st: State)
    requires !NonEmpty(st.openalias) && NonEmpty(st.bip70)
    ensures Round1Of(env, net, st) == (st.(bip70Data := Some(net.getPaymentRequest(st.bip70.value))), CalledBack)
  {
  }

  /**
   * A resolved alias: its address is parsed into the state, the data is
   * stored, and the warning is set exactly when the alias was not validated.
   */
  lemma Round1Alias(env: Env, net: Network, st: State, d: AliasData)
    requires NonEmpty(st.openalias)
    requires var key := st.openalias.value; '.' in key && '<' !in key && ' ' !in key && !env.isAddress(Split(key, ',')[0])
    requires net.resolveAlias(st.openalias.value) == Success(Some(d))
    requires ParseStep(env, st, d.address).raised.None?
    ensures var r := Round1Of(env, net, st);
      var p := ParseStep(env, st, d.address).st;
      r.1 == CalledBack && r.0.openaliasData == Some(d) &&
      r.0.kind == p.kind && r.0.spk == p.spk &&
      (d.validated ==> r.0.warning == st.warning) && (!d.validated ==> r.0.warning == p.openalias && p.openalias.Some?)
  {
    var p := ParseStep(env, st, d.address);
    assert p.st.warning == st.warning && p.st.openalias.Some? by {
      ParseFrame(env, st, d.address);
    }
    assert ResolveOf(env, net, st) == (p, Some(d)) by {
      ResolveFound(env, net, st, d);
    }
  }

  lemma ResolveFound(env: Env, net: Network, st: State, d: AliasData)
    requires st.openalias.Some?
    requires var key := st.openalias.value; '.' in key && '<' !in key && ' ' !in key && !env.isAddress(Split(key, ',')[0])
    requires net.resolveAlias(st.openalias.value) == Success(Some(d))
    ensures ResolveOf(env, net, st) == (ParseStep(env, st, d.address), Some(d))
  {
  }

  /** An alias that resolves to nothing makes round 1 raise, as `None.get` does. */
  lemma Round1AliasNotFound(env: Env, net: Network, st: State)
    requires NonEmpty(st.openalias) && net.resolveAlias(st.openalias.value).Failure?
    ensures Round1Of(env, net, st) == (st.(openaliasData := None), Threw("AttributeError"))
  {
  }

  // ------------------------------------------------------------------ round 2

  /** `Invoice.from_bech32` of the callback answer's `pr`, which may be missing. */
  function DecodePr(env: Env, pr: Option<string>): Result<Invoice, string> {
    if pr.Some? then env.invoiceFromBech32(pr.value) else env.invoiceFromMissing
  }

  /**
   * `round_2(amount_sat)`: for a pointer, the amount must be within the
   * inclusive bounds; the callback's invoice must be for exactly that amount.
   */
  function Round2Of(env: Env, net: Network, st: State, amountSat: Option<int>): (State, RoundOutcome) {
    if !NonEmpty(st.lnurl) then (st, CalledBack)
    else if st.lnurlData.None? then (st, Threw("AttributeError"))
    else if amountSat.None? then (st, Threw("TypeError"))
    else
      var d := st.lnurlData.value;
      var n := amountSat.value;
      if !(d.minSendableSat <= n <= d.maxSendableSat) then
        (st.(error := Some(AmountOutOfRange(d.minSendableSat, d.maxSendableSat))), Returned)
      else
        match net.callbackLnurl(d.callbackUrl, n * 1000)
        case Failure(e) => (st.(error := Some(LnurlRequestError(e))), Returned)
        case Success(pr) =>
          match DecodePr(env, pr)
          case Failure(e) => (st, Threw(e))
          case Success(inv) =>
            if env.invoiceAmountSat(inv) != Some(n) then (st, Threw("lnurl returned invoice with wrong amount"))
            else (st.(bolt11 := pr), CalledBack)
  }

  /** An amount outside `[min, max]` sets the error and does not call back; the bounds themselves are accepted. */
  lemma Round2Range(env: Env, net: Network, st: State, n: int)
    requires NeedsRound2(st)
    ensures var d := st.lnurlData.value;
      (n < d.minSendableSat || n > d.maxSendableSat) <==>
        Round2Of(env, net, st, Some(n)) == (st.(error := Some(AmountOutOfRange(d.minSendableSat, d.maxSendableSat))), Returned)
  {
  }

  /** In range, an invoice for the amount becomes `bolt11`; for another amount round 2 raises. */
  lemma Round2Invoice(env: Env, net: Network, st: State, n: int, pr: string, inv: Invoice)
    requires NeedsRound2(st)
    requires st.lnurlData.value.minSendableSat <= n <= st.lnurlData.value.maxSendableSat
    requires net.callbackLnurl(st.lnurlData.value.callbackUrl, n * 1000) == Success(Some(pr))
    requires env.invoiceFromBech32(pr) == Success(inv)
    ensures env.invoiceAmountSat(inv) == Some(n) ==> Round2Of(env, net, st, Some(n)) == (st.(bolt11 := Some(pr)), CalledBack)
    ensures env.invoiceAmountSat(inv) != Some(n) ==>
      Round2Of(env, net, st, Some(n)) == (st, Threw("lnurl returned invoice with wrong amount"))
  {
  }

  /**
   * An answer without `pr` is handed to `Invoice.from_bech32` as `None`: what
   * that raises is the round's exception, and whatever it decodes to must be
   * for the amount asked, after which `bolt11` becomes `None`.
   */
  lemma Round2MissingPr(env: Env, net: Network, st: State, n: int)
    requires NeedsRound2(st)
    requires st.lnurlData.value.minSendableSat <= n <= st.lnurlData.value.maxSendableSat
    requires net.callbackLnurl(st.lnurlData.value.callbackUrl, n * 1000) == Success(None)
    ensures env.invoiceFromMissing.Failure? ==> Round2Of(env, net, st, Some(n)) == (st, Threw(env.invoiceFromMissing.error))
    ensures env.invoiceFromMissing.Success? && env.invoiceAmountSat(env.invoiceFromMissing.value) == Some(n) ==>
      Round2Of(env, net, st, Some(n)) == (st.(bolt11 := None), CalledBack)
  {
  }

  /** Round 2 changes `bolt11` only for a pointer with parameters, and only to an invoice for the amount asked. */
  lemma Round2Stores(env: Env, net: Network, st: State, amountSat: Option<int>)
    requires Round2Of(env, net, st, amountSat).0.bolt11 != st.bolt11
    ensures NeedsRound2(st) && amountSat.Some?
    ensures var pr := Round2Of(env, net, st, amountSat).0.bolt11;
      Round2Of(env, net, st, amountSat).1 == CalledBack &&
      DecodePr(env, pr).Success? && env.invoiceAmountSat(DecodePr(env, pr).value) == amountSat
  {
  }

  /**
   * `round_2` as written: the out-of-range message reads `_lnurl_data`,
   * which no `PaymentIdentifier` has, so that branch raises instead of
   * setting the error.
   */
  function Round2AsWritten(env: Env, net: Network, st: State, amountSat: Option<int>): (State, RoundOutcome) {
    if NeedsRound2(st) && amountSat.Some? &&
       !(st.lnurlData.value.minSendableSat <= amountSat.value <= st.lnurlData.value.maxSendableSat)
    then (st, Threw("AttributeError"))
    else Round2Of(env, net, st, amountSat)
  }

  /** Out of range, the code as written raises where the intended round reports the bounds. */
  lemma OutOfRangeRaises(env: Env, net: Network, st: State, n: int)
    requires NeedsRound2(st) && (n < st.lnurlData.value.minSendableSat || n > st.lnurlData.value.maxSendableSat)
    ensures Round2AsWritten(env, net, st, Some(n)) == (st, Threw("AttributeError"))
    ensures Round2Of(env, net, st, Some(n)).1 == Returned
    ensures Round2Of(env, net, st, Some(n)).0.error ==
      Some(AmountOutOfRange(st.lnurlData.value.minSendableSat, st.lnurlData.value.maxSendableSat))
  {
  }

  /** Everywhere else the two agree. */
  lemma Round2AgreesInRange(env: Env, net: Network, st: State, amountSat: Option<int>)
    requires !NeedsRound2(st) || amountSat.None? ||
      st.lnurlData.value.minSendableSat <= amountSat.value <= st.lnurlData.value.maxSendableSat
    ensures Round2AsWritten(env, net, st, amountSat) == Round2Of(env, net, st, amountSat)
  {
  }

  // ------------------------------------------------------------------ round 3

  /** `round_3`: send the payment of a BIP 70 request and wait for its acknowledgement. */
  function Round3Of(net: Network, st: State): (State, RoundOutcome) {
    if !NonEmpty(st.bip70) then (st, CalledBack)
    else if st.bip70Data.None? then (st, Threw("AttributeError"))
    else
      match net.sendPayment(st.bip70Data.value)
      case Failure(e) => (st, Threw(e))
      case Success(_) => (st, CalledBack)
  }

  /** Round 3 never changes the state; it calls back unless the payment raised. */
  lemma Round3KeepsState(net: Network, st: State)
    ensures Round3Of(net, st).0 == st
    ensures Round3Of(net, st).1 != Returned
    ensures !NeedsRound3(st) ==> Round3Of(net, st).1 == CalledBack
  {
  }

  /**
   * With a fetched request, round 3 calls back exactly when the payment call
   * answers, whatever acknowledgement status the answer carries, and raises the
   * call's error otherwise.
   */
  lemma PaymentAnswered(net: Network, st: State)
    requires NeedsRound3(st) && st.bip70Data.Some?
    ensures Round3Of(net, st).1 == CalledBack <==> net.sendPayment(st.bip70Data.value).Success?
    ensures net.sendPayment(st.bip70Data.value).Failure? ==>
      Round3Of(net, st).1 == Threw(net.sendPayment(st.bip70Data.value).error)
  {
  }

  /**
   * `round_3` as written: it asks `bip70`, the request's URL text, to send
   * the payment; a text has no such method, so the round always raises.
   */
  function Round3AsWritten(st: State): (State, RoundOutcome) {
    if NonEmpty(st.bip70) then (st, Threw("AttributeError")) else (st, CalledBack)
  }

  /** With a fetched request that accepts the payment, the code as written raises where the intended round calls back. */
  lemma PaymentNeverSent(net: Network, st: State)
    requires NeedsRound3(st) && st.bip70Data.Some? && net.sendPayment(st.bip70Data.value).Success?
    ensures Round3AsWritten(st) == (st, Threw("AttributeError"))
    ensures Round3Of(net, st) == (st, CalledBack)
  {
  }

  // ------------------------------------------------------------ projection

  /** The first `d` (description) tag's text, or the empty text when there is none. */
  function DescriptionOf(tags: seq<(char, string)>): string {
    if tags == [] then ""
    else if tags[0].0 == 'd' then tags[0].1
    else DescriptionOf(tags[1..])
  }

  lemma {:induction false} DescriptionIsFirst(tags: seq<(char, string)>, i: nat)
    requires i < |tags| && tags[i].0 == 'd'
    requires forall j :: 0 <= j < i ==> tags[j].0 != 'd'
    ensures DescriptionOf(tags) == tags[i].1
  {
    if i > 0 {
      DescriptionIsFirst(tags[1..], i - 1);
    }
  }

  lemma {:induction false} NoDescription(tags: seq<(char, string)>)
    requires forall j :: 0 <= j < |tags| ==> tags[j].0 != 'd'
    ensures DescriptionOf(tags) == ""
  {
    if tags != [] {
      NoDescription(tags[1..]);
    }
  }

  /** What `get_bolt11_fields` shows for an invoice: payee key, amount in satoshis, description. */
  datatype Bolt11View = Bolt11View(pubkey: string, amount: Option<Dec>, description: string)

  /**
   * `get_bolt11_fields(invoice)`: nothing when the invoice does not decode
   * (the message goes to the user), otherwise its key, its amount (msat as
   * satoshis, kept exact) and its description.
   */
  function Bolt11FieldsOf(env: Env, invoice: string): Option<Bolt11View> {
    match env.lnDecode(invoice)
    case Decoded(a) =>
      Some(Bolt11View(a.pubkeyHex, if a.amountMsat.Some? then Some(Dec(a.amountMsat.value, -3)) else None, DescriptionOf(a.tags)))
    case _ => None
  }

  lemma Bolt11FieldsRead(env: Env, invoice: string)
    requires env.lnDecode(invoice).Decoded?
    ensures var a := env.lnDecode(invoice).addr;
      var v := Bolt11FieldsOf(env, invoice);
      v.Some? && v.value.pubkey == a.pubkeyHex &&
      (a.amountMsat.None? <==> v.value.amount.None?) &&
      (a.amountMsat.Some? ==> IsInteger(Scale(v.value.amount.value, 3), a.amountMsat.value))
  {
  }

  /** Python's truth value of an optional number. */
  predicate NonZero(a: Option<Dec>) { a.Some? && a.value.mant != 0 }

  /** The display tuple: recipient, amount, description, whether an amount must be entered, validity. */
  datatype GuiFields = GuiFields(
    recipient: Option<string>,
    amount: Option<Dec>,
    description: Option<string>,
    amountRequired: bool,
    validated: Option<bool>)

  /** `get_fields_for_GUI` ends with the tuple, with nothing (a request error), or raising. */
  datatype GuiOutcome = Shown(fields: GuiFields) | NotShown | GuiRaised(exc: string)

  const NoFields := GuiFields(None, None, None, false, None)

  /** An invoice's fields, or the `TypeError` of unpacking nothing. */
  function InvoiceFields(env: Env, invoice: string): GuiOutcome {
    match Bolt11FieldsOf(env, invoice)
    case None => GuiRaised("TypeError")
    case Some(v) => Shown(GuiFields(Some(v.pubkey), v.amount, Some(v.description), !NonZero(v.amount), None))
  }

  /** `get_fields_for_GUI(wallet)`, where `hasLightning` is `wallet.has_lightning()`. */
  function GuiOf(env: Env, st: State, hasLightning: bool): (State, GuiOutcome) {
    if NonEmpty(st.openalias) && st.openaliasData.Some? then
      var d := st.openaliasData.value;
      var fields := GuiFields(Some(st.openalias.value + " <" + d.address + ">"), None, None, false, Some(d.validated));
      (if !d.validated then st.(warning := st.openalias) else st, Shown(fields))
    else if NonEmpty(st.bolt11) then (st, InvoiceFields(env, st.bolt11.value))
    else if NonEmpty(st.lnurl) && st.lnurlData.Some? then
      var d := st.lnurlData.value;
      var domain := env.urlParse(st.lnurl.value).netloc;
      (st, Shown(GuiFields(Some("invoice from lnurl"), Some(Dec(d.minSendableSat, 0)),
                           Some("lnurl: " + domain + ": " + d.metadataPlaintext), true, None)))
    else if NonEmpty(st.bip70) && st.bip70Data.Some? then
      var pr := st.bip70Data.value;
      if NonEmpty(pr.error) then (st.(error := Some(RequestError(pr.error.value))), NotShown)
      else (st, Shown(GuiFields(Some(pr.requestor), Some(Dec(pr.amountSat, 0)), Some(pr.memo), false, Some(!pr.expired))))
    else if st.spk.Some? && st.spk.value != [] then (st, Shown(NoFields.(amountRequired := true)))
    else if IsMultiline(st) then (st, Shown(NoFields))
    else if st.bip21.Some? && |st.bip21.value| > 0 then
      var out := st.bip21.value;
      var labelText := TextField(out, "label");
      var message := TextField(out, "message");
      var lightning := TextField(out, "lightning");
      if NonEmpty(lightning) && hasLightning then (st, InvoiceFields(env, lightning.value))
      else
        var description := if NonEmpty(labelText) && !NonEmpty(message) then labelText else message;
        (st, Shown(GuiFields(TextField(out, "address"), AmountField(out), description, false, None)))
    else (st, Shown(NoFields))
  }

  /** The projection changes nothing but `warning` and `error`. */
  lemma GuiOnlyWarnsOrErrs(env: Env, st: State, hasLightning: bool)
    ensures var s := GuiOf(env, st, hasLightning).0;
      s == st.(warning := s.warning, error := s.error)
    ensures GuiOf(env, st, hasLightning).0.error != st.error ==> GuiOf(env, st, hasLightning).1 == NotShown
  {
  }

  /** A resolved alias shows `alias <address>`, its validity, and a warning exactly when it is not validated. */
  lemma GuiAlias(env: Env, st: State, hasLightning: bool)
    requires NonEmpty(st.openalias) && st.openaliasData.Some?
    ensures var d := st.openaliasData.value;
      var r := GuiOf(env, st, hasLightning);
      r.1.Shown? && r.1.fields.recipient == Some(st.openalias.value + " <" + d.address + ">") &&
      r.1.fields.validated == Some(d.validated) &&
      (!d.validated ==> r.0.warning == st.openalias) && (d.validated ==> r.0 == st)
  {
  }

  /** An invoice asks for an amount exactly when it has none (or zero). */
  lemma GuiInvoice(env: Env, st: State, hasLightning: bool)
    requires !(NonEmpty(st.openalias) && st.openaliasData.Some?) && NonEmpty(st.bolt11)
    requires env.lnDecode(st.bolt11.value).Decoded?
    ensures var a := env.lnDecode(st.bolt11.value).addr;
      var r := GuiOf(env, st, hasLightning);
      r.0 == st && r.1.Shown? && r.1.fields.recipient == Some(a.pubkeyHex) &&
      (r.1.fields.amountRequired <==> a.amountMsat.None? || a.amountMsat.value == 0)
  {
  }

  /** A pointer with parameters asks for an amount and proposes the minimum. */
  lemma GuiLnurl(env: Env, st: State, hasLightning: bool)
    requires !(NonEmpty(st.openalias) && st.openaliasData.Some?) && !NonEmpty(st.bolt11) && NeedsRound2(st)
    ensures var r := GuiOf(env, st, hasLightning);
      r.0 == st && r.1.Shown? && r.1.fields.amountRequired &&
      r.1.fields.amount == Some(Dec(st.lnurlData.value.minSendableSat, 0))
  {
  }

  /** A fetched request with an error shows nothing and makes that error the identifier's. */
  lemma GuiRequestError(env: Env, st: State, hasLightning: bool, e: string)
    requires !(NonEmpty(st.openalias) && st.openaliasData.Some?) && !NonEmpty(st.bolt11) && !NeedsRound2(st)
    requires NonEmpty(st.bip70) && st.bip70Data.Some? && st.bip70Data.value.error == Some(e) && e != []
    ensures GuiOf(env, st, hasLightning) == (st.(error := Some(RequestError(e))), NotShown)
  {
  }

  /** For a URI the label stands in for a missing message; an embedded invoice takes over when the wallet has Lightning. */
  lemma GuiUri(env: Env, st: State, hasLightning: bool)
    requires !(NonEmpty(st.openalias) && st.openaliasData.Some?) && !NonEmpty(st.bolt11) && !NeedsRound2(st)
    requires !(NonEmpty(st.bip70) && st.bip70Data.Some?) && !(st.spk.Some? && st.spk.value != []) && !IsMultiline(st)
    requires st.bip21.Some? && |st.bip21.value| > 0
    ensures var out := st.bip21.value;
      var r := GuiOf(env, st, hasLightning);
      var lightning := TextField(out, "lightning");
      r.0 == st &&
      (NonEmpty(lightning) && hasLightning ==> r.1 == InvoiceFields(env, lightning.value)) &&
      (!(NonEmpty(lightning) && hasLightning) ==>
        r.1.Shown? && r.1.fields.recipient == TextField(out, "address") && r.1.fields.amount == AmountField(out) &&
        !r.1.fields.amountRequired &&
        r.1.fields.description == (if NonEmpty(TextField(out, "message")) || !NonEmpty(TextField(out, "label")) then TextField(out, "message") else TextField(out, "label")))
  {
  }

  // ------------------------------------------------------ outputs, expiry

  /** `get_onchain_outputs(amount)`: the request's, the batch's, the script's, or the URI address'. */
  function OnchainOutputsOf(env: Env, st: State, amount: Amount): Result<seq<TxOutput>, string> {
    if NonEmpty(st.bip70) then
      if st.bip70Data.None? then Failure("AttributeError") else Success(st.bip70Data.value.outputs)
    else if IsMultiline(st) then Success(st.multilineOutputs.value)
    else if st.spk.Some? && st.spk.value != [] then Success([TxOutput(st.spk, amount)])
    else if st.bip21.Some? && |st.bip21.value| > 0 then
      var address := TextField(st.bip21.value, "address");
      Success([TxOutput(if address.Some? then OutputOf(env, address.value) else None, amount)])
    else Failure("not onchain")
  }

  /** One output for a script or a URI, paying the amount given; a batch keeps its own amounts. */
  lemma OnchainOutputsShape(env: Env, st: State, amount: Amount)
    requires !NonEmpty(st.bip70) && !IsMultiline(st) && OnchainOutputsOf(env, st, amount).Success?
    ensures var o := OnchainOutputsOf(env, st, amount).value;
      |o| == 1 && o[0].value == amount && (st.spk.Some? && st.spk.value != [] ==> o[0].script == st.spk)
  {
  }

  /** A URI with an address pays that address' script. */
  lemma UriOutputScript(env: Env, st: State, amount: Amount, a: string, b: Bytes)
    requires !NonEmpty(st.bip70) && !IsMultiline(st) && !(st.spk.Some? && st.spk.value != [])
    requires st.bip21.Some? && "address" in st.bip21.value && st.bip21.value["address"] == Str(a)
    requires ParseAddress(env, a) == Success(a) && FromHex(env.addressToScript(a)) == Some(b)
    ensures OnchainOutputsOf(env, st, amount) == Success([TxOutput(Some(b), amount)])
  {
    AddressGivesScript(env, a, a, b);
  }

  /** `has_expired()`: only a fetched BIP 70 request can expire. */
  function HasExpiredOf(st: State): (r: Result<bool, string>)
    ensures !NonEmpty(st.bip70) ==> r == Success(false)
    ensures r == Success(true) ==> NonEmpty(st.bip70) && st.bip70Data.Some? && st.bip70Data.value.expired
  {
    if NonEmpty(st.bip70) then
      if st.bip70Data.None? then Failure("AttributeError") else Success(st.bip70Data.value.expired)
    else Success(false)
  }

  // ---------------------------------------------------------------- invoice

  /**
   * What `get_invoice` produces: nothing, a Lightning invoice, the arguments
   * it passes to `wallet.create_invoice` for an on-chain payment, or an exception.
   */
  datatype InvoiceOutcome =
    | NoInvoice
    | LightningInvoice(invoice: Invoice)
    | OnchainInvoice(outputs: seq<TxOutput>, message: Option<string>, pr: Option<PaymentRequest>, uri: Option<Fields>)
    | InvoiceRaised(exc: string)

  /**
   * The amount `int(amount_sat * 1000)` gives an amountless invoice: a number
   * of satoshis in millisatoshis, while a max-spend token such as `!` is a
   * string, and the token repeated a thousand times is no integer, so `int`
   * raises `ValueError`.
   */
  function AmountlessMsat(amount: Amount): Result<int, string> {
    match amount
    case Sats(n) => Success(n * 1000)
    case Max(_) => Failure("ValueError")
  }

  /**
   * `get_invoice(wallet, amount_sat)` as intended: the URI's message when
   * there is a URI, none otherwise. The amount is what the send tab reads:
   * satoshis, or the max-spend token.
   */
  function InvoiceOf(env: Env, st: State, amount: Amount): InvoiceOutcome {
    if IsLightning(st) then
      if !NonEmpty(st.bolt11) then NoInvoice
      else
        match env.invoiceFromBech32(st.bolt11.value)
        case Failure(e) => InvoiceRaised(e)
        case Success(inv) =>
          if inv.amountMsat.Some? then LightningInvoice(inv)
          else
            match AmountlessMsat(amount)
            case Failure(e) => InvoiceRaised(e)
            case Success(msat) => LightningInvoice(inv.(amountMsat := Some(msat)))
    else
      match OnchainOutputsOf(env, st, amount)
      case Failure(e) => InvoiceRaised(e)
      case Success(outputs) =>
        var message := if st.bip21.Some? then TextField(st.bip21.value, "message") else None;
        OnchainInvoice(outputs, message, if NonEmpty(st.bip70) then st.bip70Data else None, st.bip21)
  }

  /**
   * `get_invoice` as written: it reads the message from `bip21` even when
   * there is no URI, which raises `AttributeError`.
   */
  function InvoiceAsWritten(env: Env, st: State, amount: Amount): InvoiceOutcome {
    if !IsLightning(st) && OnchainOutputsOf(env, st, amount).Success? && st.bip21.None? then
      InvoiceRaised("AttributeError")
    else InvoiceOf(env, st, amount)
  }

  /** A script target yields no invoice as written, and a one-output invoice as intended. */
  lemma ScriptInvoice(env: Env, st: State, amount: Amount)
    requires !IsLightning(st) && !NonEmpty(st.bip70) && !IsMultiline(st)
    requires st.spk.Some? && st.spk.value != [] && st.bip21.None?
    ensures InvoiceAsWritten(env, st, amount) == InvoiceRaised("AttributeError")
    ensures InvoiceOf(env, st, amount) == OnchainInvoice([TxOutput(st.spk, amount)], None, None, None)
  {
  }

  /** A batch likewise. */
  lemma BatchInvoice(env: Env, st: State, amount: Amount)
    requires !IsLightning(st) && !NonEmpty(st.bip70) && IsMultiline(st) && st.bip21.None?
    ensures InvoiceAsWritten(env, st, amount) == InvoiceRaised("AttributeError")
    ensures InvoiceOf(env, st, amount) == OnchainInvoice(st.multilineOutputs.value, None, None, None)
  {
  }

  /**
   * On chain, the intended invoice never raises once the outputs are known:
   * it pays them, with the URI's message when there is a URI and none otherwise.
   */
  lemma OnchainInvoiceMessage(env: Env, st: State, amount: Amount)
    requires !IsLightning(st) && OnchainOutputsOf(env, st, amount).Success?
    ensures InvoiceOf(env, st, amount).OnchainInvoice?
    ensures InvoiceOf(env, st, amount).outputs == OnchainOutputsOf(env, st, amount).value
    ensures st.bip21.None? ==> InvoiceOf(env, st, amount).message.None?
    ensures st.bip21.Some? ==> InvoiceOf(env, st, amount).message == TextField(st.bip21.value, "message")
  {
  }

  /** Wherever there is a URI, or the payment is over Lightning, the two agree. */
  lemma InvoiceAgrees(env: Env, st: State, amount: Amount)
    requires IsLightning(st) || st.bip21.Some?
    ensures InvoiceAsWritten(env, st, amount) == InvoiceOf(env, st, amount)
  {
  }

  /**
   * An invoice with an amount keeps it whatever amount is given; one without
   * an amount gets a satoshi amount in millisatoshis, and the max-spend token
   * makes `get_invoice` raise `ValueError`.
   */
  lemma LightningInvoiceAmount(env: Env, st: State, amount: Amount, inv: Invoice)
    requires IsLightning(st) && NonEmpty(st.bolt11) && env.invoiceFromBech32(st.bolt11.value) == Success(inv)
    ensures inv.amountMsat.Some? ==> InvoiceOf(env, st, amount) == LightningInvoice(inv)
    ensures inv.amountMsat.None? && amount.Sats? ==>
      InvoiceOf(env, st, amount).LightningInvoice? &&
      InvoiceOf(env, st, amount).invoice.bolt11 == inv.bolt11 &&
      InvoiceOf(env, st, amount).invoice.amountMsat == Some(amount.sats * 1000)
    ensures inv.amountMsat.None? && amount.Max? ==> InvoiceOf(env, st, amount) == InvoiceRaised("ValueError")
  {
  }

  // ------------------------------------------------------------------ the class

  class PaymentIdentifier {
    const env: Env
    var text: string
    var kind: Option<PiType>
    var error: Option<PiError>
    var warning: Option<string>
    var multilineOutputs: Option<seq<TxOutput>>
    var bolt11: Option<string>
    var bip21: Option<Fields>
    var spk: Option<Bytes>
    var openalias: Option<string>
    var openaliasData: Option<AliasData>
    var bip70: Option<string>
    var bip70Data: Option<PaymentRequest>
    var lnurl: Option<string>
    var lnurlData: Option<LnurlData>

    function State(): State
      reads this
    {
      PiState(text, kind, error, warning, multilineOutputs, bolt11, bip21, spk,
        openalias, openaliasData, bip70, bip70Data, lnurl, lnurlData)
    }

    /** The fields as `__init__` sets them before it parses. */
    constructor (env: Env, text: string)
      ensures this.env == env && State() == Initial(text)
    {
      this.env := env;
      this.text := text;
      kind, error, warning := None, None, None;
      multilineOutputs, bolt11, bip21, spk := None, None, None, None;
      openalias, openaliasData := None, None;
      bip70, bip70Data := None, None;
      lnurl, lnurlData := None, None;
    }

    /** `_parse_as_multiline(t)`. */
    method ParseAsMultiline(t: string) returns (outputs: seq<TxOutput>)
      modifies this
      ensures (State(), outputs) == MultilineStage(env, old(State()), t)
    {
      var lines := NonEmptyLines(t);
      var errors;
      outputs, errors := CollectLines(env, lines);
      if |lines| > 1 || outputs != [] {
        error := if errors != [] then Some(LineErrors(errors)) else None;
      }
    }

    /** `parse(text)`; `raised` is an exception that escapes it. */
    method Parse(text: string) returns (raised: Option<string>)
      modifies this
      ensures Step(State(), raised) == ParseStep(env, old(State()), text)
    {
      raised := None;
      var t := Strip(text);
      if t == [] {
        return;
      }
      var outputs := ParseAsMultiline(t);
      if outputs != [] {
        kind := Some(Multiline);
        multilineOutputs := Some(outputs);
        return;
      }
      var lightning := MaybeExtractLightning(t);
      if lightning.Some? {
        ParseLightning(lightning.value);
      } else if StartsWith(Lower(t), BitcoinScheme + ":") {
        raised := ParseUri(t);
      } else {
        ParseTarget(t);
      }
    }

    /** The Lightning branch of `parse`. */
    method ParseLightning(inv: string)
      modifies this
      ensures Step(State(), None) == InvoiceStep(env, old(State()), inv)
    {
      if StartsWith(inv, "lnurl") {
        kind := Some(Lnurl);
        var url := env.decodeLnurl(inv);
        if url.Failure? {
          error := Some(LnurlDecodeError(url.error));
          return;
        }
        lnurl := Some(url.value);
      } else {
        kind := Some(Bolt11);
        bolt11 := Some(inv);
      }
    }

    /** The `bitcoin:` branch of `parse`. */
    method ParseUri(t: string) returns (raised: Option<string>)
      modifies this
      ensures Step(State(), raised) == UriStep(env, old(State()), t)
    {
      raised := None;
      var out := ParseBip21Uri(env, t);
      if out.Failure? {
        if out.error.Raised? {
          return Some(out.error.exc);
        }
        error := Some(BadUri(out.error.err));
        return;
      }
      kind := Some(Bip21Uri);
      bip21 := Some(out.value);
      bip70 := TextField(out.value, "r");
    }

    /** The script and alias branches of `parse`, and its failure. */
    method ParseTarget(t: string)
      modifies this
      ensures Step(State(), None) == TargetStep(env, old(State()), t)
    {
      var scriptpubkey := ParseOutput(env, t);
      if scriptpubkey.Some? && scriptpubkey.value != [] {
        kind := Some(Spk);
        spk := scriptpubkey;
        return;
      }
      if EmailMatch(t) {
        kind := Some(Alias);
        openalias := Some(t);
        return;
      }
      error := Some(Unknown(Truncated(t)));
    }

    /** `resolve_openalias()`; its caller has an alias. */
    method ResolveOpenalias(net: Network) returns (data: Option<AliasData>, raised: Option<string>)
      requires openalias.Some?
      modifies this
      ensures (Step(State(), raised), data) == ResolveOf(env, net, old(State()))
    {
      var key := openalias.value;
      data, raised := None, None;
      if !('.' in key && '<' !in key && ' ' !in key) {
        return;
      }
      var parts := Split(key, ',');
      if env.isAddress(parts[0]) {
        return;
      }
      var found := net.resolveAlias(key);
      if found.Failure? || found.value.None? {
        return;
      }
      raised := Parse(found.value.value.address);
      data := found.value;
    }

    /** `round_1(on_success)`. */
    method Round1(net: Network) returns (outcome: RoundOutcome)
      modifies this
      ensures (State(), outcome) == Round1Of(env, net, old(State()))
    {
      if NonEmpty(openalias) {
        var data, raised := ResolveOpenalias(net);
        if raised.Some? {
          return Threw(raised.value);
        }
        openaliasData := data;
        if data.None? {
          return Threw("AttributeError");
        }
        if !data.value.validated {
          warning := openalias;
        }
      } else if NonEmpty(bip70) {
        bip70Data := Some(net.getPaymentRequest(bip70.value));
      } else if NonEmpty(lnurl) {
        var data := net.requestLnurl(lnurl.value);
        if data.Failure? {
          return Threw(data.error);
        }
        lnurlData := Some(data.value);
      } else {
        return Returned;
      }
      outcome := CalledBack;
    }

    /** `round_2(on_success, amount_sat)`. */
    method Round2(net: Network, amountSat: Option<int>) returns (outcome: RoundOutcome)
      modifies this
      ensures (State(), outcome) == Round2Of(env, net, old(State()), amountSat)
    {
      if NonEmpty(lnurl) {
        if lnurlData.None? {
          return Threw("AttributeError");
        }
        if amountSat.None? {
          return Threw("TypeError");
        }
        var d := lnurlData.value;
        var n := amountSat.value;
        if !(d.minSendableSat <= n <= d.maxSendableSat) {
          error := Some(AmountOutOfRange(d.minSendableSat, d.maxSendableSat));
          return Returned;
        }
        var answer := net.callbackLnurl(d.callbackUrl, n * 1000);
        if answer.Failure? {
          error := Some(LnurlRequestError(answer.error));
          return Returned;
        }
        var pr := answer.value;
        var invoice := DecodePr(env, pr);
        if invoice.Failure? {
          return Threw(invoice.error);
        }
        if env.invoiceAmountSat(invoice.value) != Some(n) {
          return Threw("lnurl returned invoice with wrong amount");
        }
        bolt11 := pr;
      }
      outcome := CalledBack;
    }

    /** `round_3(tx, refund_address, on_success)`. */
    method Round3(net: Network) returns (outcome: RoundOutcome)
      ensures (State(), outcome) == Round3Of(net, State())
    {
      if NonEmpty(bip70) {
        if bip70Data.None? {
          return Threw("AttributeError");
        }
        var ack := net.sendPayment(bip70Data.value);
        if ack.Failure? {
          return Threw(ack.error);
        }
      }
      outcome := CalledBack;
    }

    /** `get_bolt11_fields(invoice)`, with the loop that finds the first description tag. */
    method GetBolt11Fields(invoice: string) returns (r: Option<Bolt11View>)
      ensures r == Bolt11FieldsOf(env, invoice)
    {
      var decoded := env.lnDecode(invoice);
      if !decoded.Decoded? {
        return None;
      }
      var a := decoded.addr;
      var description := "";
      var i := 0;
      while i < |a.tags|
        invariant 0 <= i <= |a.tags|
        invariant DescriptionOf(a.tags) == DescriptionOf(a.tags[i..])
      {
        if a.tags[i].0 == 'd' {
          description := a.tags[i].1;
          break;
        }
        assert a.tags[i..][1..] == a.tags[i + 1..];
        i := i + 1;
      }
      if i == |a.tags| {
        assert a.tags[i..] == [];
      }
      var amount := if a.amountMsat.Some? then Some(Dec(a.amountMsat.value, -3)) else None;
      r := Some(Bolt11View(a.pubkeyHex, amount, description));
    }

    /** `get_fields_for_GUI(wallet)`. */
    method GetFieldsForGui(hasLightning: bool) returns (r: GuiOutcome)
      modifies this
      ensures (State(), r) == GuiOf(env, old(State()), hasLightning)
    {
      if NonEmpty(openalias) && openaliasData.Some? {
        var d := openaliasData.value;
        if !d.validated {
          warning := openalias;
        }
        return Shown(GuiFields(Some(openalias.value + " <" + d.address + ">"), None, None, false, Some(d.validated)));
      } else if NonEmpty(bolt11) {
        var v := GetBolt11Fields(bolt11.value);
        if v.None? {
          return GuiRaised("TypeError");
        }
        var amount := v.value.amount;
        return Shown(GuiFields(Some(v.value.pubkey), amount, Some(v.value.description), !NonZero(amount), None));
      } else if NonEmpty(lnurl) && lnurlData.Some? {
        var d := lnurlData.value;
        var domain := env.urlParse(lnurl.value).netloc;
        return Shown(GuiFields(Some("invoice from lnurl"), Some(Dec(d.minSendableSat, 0)),
                               Some("lnurl: " + domain + ": " + d.metadataPlaintext), true, None));
      } else if NonEmpty(bip70) && bip70Data.Some? {
        var pr := bip70Data.value;
        if NonEmpty(pr.error) {
          error := Some(RequestError(pr.error.value));
          return NotShown;
        }
        return Shown(GuiFields(Some(pr.requestor), Some(Dec(pr.amountSat, 0)), Some(pr.memo), false, Some(!pr.expired)));
      } else if spk.Some? && spk.value != [] {
        return Shown(NoFields.(amountRequired := true));
      } else if multilineOutputs.Some? && multilineOutputs.value != [] {
        return Shown(NoFields);
      } else if bip21.Some? && |bip21.value| > 0 {
        var out := bip21.value;
        var labelText := TextField(out, "label");
        var description := TextField(out, "message");
        if NonEmpty(labelText) && !NonEmpty(description) {
          description := labelText;
        }
        var lightning := TextField(out, "lightning");
        if NonEmpty(lightning) && hasLightning {
          var v := GetBolt11Fields(lightning.value);
          if v.None? {
            return GuiRaised("TypeError");
          }
          var amount := v.value.amount;
          return Shown(GuiFields(Some(v.value.pubkey), amount, Some(v.value.description), !NonZero(amount), None));
        }
        return Shown(GuiFields(TextField(out, "address"), AmountField(out), description, false, None));
      }
      r := Shown(NoFields);
    }

    /** `get_onchain_outputs(amount)`. */
    method GetOnchainOutputs(amount: Amount) returns (r: Result<seq<TxOutput>, string>)
      ensures r == OnchainOutputsOf(env, State(), amount)
    {
      if NonEmpty(bip70) {
        if bip70Data.None? {
          return Failure("AttributeError");
        }
        return Success(bip70Data.value.outputs);
      } else if multilineOutputs.Some? && multilineOutputs.value != [] {
        return Success(multilineOutputs.value);
      } else if spk.Some? && spk.value != [] {
        return Success([TxOutput(spk, amount)]);
      } else if bip21.Some? && |bip21.value| > 0 {
        var address := TextField(bip21.value, "address");
        var scriptpubkey := None;
        if address.Some? {
          scriptpubkey := ParseOutput(env, address.value);
        }
        return Success([TxOutput(scriptpubkey, amount)]);
      }
      r := Failure("not onchain");
    }

    /** `has_expired()`. */
    method HasExpired() returns (r: Result<bool, string>)
      ensures r == HasExpiredOf(State())
    {
      if NonEmpty(bip70) {
        if bip70Data.None? {
          return Failure("AttributeError");
        }
        return Success(bip70Data.value.expired);
      }
      r := Success(false);
    }

    /** `get_invoice(wallet, amount_sat)`, with the message read only from a URI. */
    method GetInvoice(amount: Amount) returns (r: InvoiceOutcome)
      ensures r == InvoiceOf(env, State(), amount)
    {
      if NonEmpty(lnurl) || NonEmpty(bolt11) {
        if !NonEmpty(bolt11) {
          return NoInvoice;
        }
        var invoice := env.invoiceFromBech32(bolt11.value);
        if invoice.Failure? {
          return InvoiceRaised(invoice.error);
        }
        var inv := invoice.value;
        if inv.amountMsat.None? {
          var msat := AmountlessMsat(amount);
          if msat.Failure? {
            return InvoiceRaised(msat.error);
          }
          inv := inv.(amountMsat := Some(msat.value));
        }
        return LightningInvoice(inv);
      }
      var outputs := GetOnchainOutputs(amount);
      if outputs.Failure? {
        return InvoiceRaised(outputs.error);
      }
      var message := if bip21.Some? then TextField(bip21.value, "message") else None;
      r := OnchainInvoice(outputs.value, message, if NonEmpty(bip70) then bip70Data else None, bip21);
    }
  }

  /** `PaymentIdentifier(config, contacts, text)`: a new object, parsed; `raised` is an exception escaping `__init__`. */
  method NewPaymentIdentifier(env: Env, text: string) returns (pi: PaymentIdentifier, raised: Option<string>)
    ensures fresh(pi) && pi.env == env
    ensures Step(pi.State(), raised) == ParseStep(env, Initial(text), text)
  {
    pi := new PaymentIdentifier(env, text);
    raised := pi.Parse(text);
  }
}
