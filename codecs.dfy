/**
 * What the payment identifier receives from code it does not define: the
 * address and script codecs, the BOLT 11 and LNURL decoders, `urllib`, the
 * wallet configuration, and the network services used by the resolution
 * rounds. Each appears as a total function (or a value) passed in; a failure
 * it can raise is part of its result type.
 */
module Codecs {
  import opened Wrappers
  import opened Hex

  /** An output amount: whole satoshis, or a spend-max token such as `!` or `2!`. */
  datatype Amount = Sats(sats: int) | Max(token: string)

  /** `PartialTxOutput(scriptpubkey=..., value=...)`; the script may be missing. */
  datatype TxOutput = TxOutput(script: Option<Bytes>, value: Amount)

  /** The parts of a decoded BOLT 11 invoice the core reads (`LnAddr`). */
  datatype LnAddr = LnAddr(
    pubkeyHex: string,
    amountMsat: Option<nat>,
    tags: seq<(char, string)>,
    fallbackAddress: Option<string>)

  /** How `lndecode` ends: decoded, `LnDecodeException`, or `IncompatibleOrInsaneFeatures`. */
  datatype LnDecoded = Decoded(addr: LnAddr) | DecodeError(msg: string) | IncompatibleFeatures(msg: string)

  /** An `Invoice` object; only its msat amount is read or written here. */
  datatype Invoice = Invoice(bolt11: string, amountMsat: Option<int>)

  /** `urllib.parse.urlparse(...)`: the components the core reads. */
  datatype UrlParts = UrlParts(scheme: string, netloc: string, path: string, query: string)

  datatype Env = Env(
    /** `bitcoin.is_address` */
    isAddress: string -> bool,
    /** `bitcoin.address_to_script`, hex text */
    addressToScript: string -> string,
    /** `construct_script([opcodes[word]])`; `None` is the `KeyError` for an unknown opcode name */
    opcodeScript: string -> Option<string>,
    /** `construct_script([word])` for a hex data word */
    pushScript: string -> string,
    /** `bitcoin.base_decode(s, base=58)`; `None` when it raises */
    base58Decode: string -> Option<Bytes>,
    /** `lndecode` */
    lnDecode: string -> LnDecoded,
    /** `decode_lnurl`; `Failure` when it raises */
    decodeLnurl: string -> Result<string, string>,
    /** whether `parse_max_spend` of a string is truthy */
    isMaxSpend: string -> bool,
    /** `config.get_decimal_point()` */
    decimalPoint: nat,
    /** `urllib.parse.urlparse` */
    urlParse: string -> UrlParts,
    /** the (key, value) pairs, in order, that `urllib.parse.parse_qs` groups by key */
    parseQsl: string -> seq<(string, string)>,
    /** `urllib.parse.quote` */
    quote: string -> string,
    /** `Invoice.from_bech32`; `Failure` when it raises */
    invoiceFromBech32: string -> Result<Invoice, string>,
    /** `Invoice.from_bech32(None)`, for an LNURL callback answer without `pr` */
    invoiceFromMissing: Result<Invoice, string>,
    /** `Invoice.get_amount_sat` */
    invoiceAmountSat: Invoice -> Option<int>)

  /** A BIP 70 payment request as `paymentrequest.get_payment_request` returns it. */
  datatype PaymentRequest = PaymentRequest(
    error: Option<string>,
    requestor: string,
    amountSat: int,
    memo: string,
    expired: bool,
    outputs: seq<TxOutput>)

  /** What `contacts.resolve` returns for an OpenAlias. */
  datatype AliasData = AliasData(address: string, name: string, validated: bool)

  /** The LNURL-pay parameters (`LNURL6Data`). */
  datatype LnurlData = LnurlData(callbackUrl: string, minSendableSat: int, maxSendableSat: int, metadataPlaintext: string)

  /** The network services of the resolution rounds; `Failure` is an exception they raise. */
  datatype Network = Network(
    /** `contacts.resolve(key)` */
    resolveAlias: string -> Result<Option<AliasData>, string>,
    /** `paymentrequest.get_payment_request(url)` */
    getPaymentRequest: string -> PaymentRequest,
    /** `request_lnurl(url)` */
    requestLnurl: string -> Result<LnurlData, string>,
    /** `callback_lnurl(url, params={'amount': msat})`, then `.get('pr')` of its answer */
    callbackLnurl: (string, int) -> Result<Option<string>, string>,
    /** sending the payment and receiving the BIP 70 acknowledgement */
    sendPayment: PaymentRequest -> Result<bool, string>)
}
