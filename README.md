# Electrum payment identifiers, in Dafny

This project models `electrum/payment_identifier.py`. That file turns the text a user pastes into the send tab into a typed payment target. The text can be:

- an address or a script;
- a batch of `address,amount` lines;
- a BIP 21 `bitcoin:` URI, with Electrum's extensions (the `X` amount form, an embedded BOLT 11 invoice, a BIP 70 `r=` reference and a base58 `sig=`);
- a Lightning invoice;
- an LNURL pointer;
- an e-mail-like OpenAlias name.

The model covers:

- the URI grammar (`parse_bip21_URI`, `create_bip21_uri`);
- the Lightning prefix detector and `is_uri`;
- the classifier `PaymentIdentifier.parse` and its line parsers;
- the three network rounds;
- the projections for display and for an invoice.

Its parts:

- **`wrappers.dfy`**: the usual `Option` and `Result`.
- **`text.dfy`**: the parts of Python's `str` in use. These are `strip` (with Python's notion of white space), ASCII `lower`, `split(sep)` and `split()`.
- **`hex.dfy`**: `bytes.fromhex` and `.hex()`.
- **`decimals.dfy`**:
  - `Decimal(x)` as an exact mantissa and exponent, with infinities and NaNs;
  - truncation by `int(...)`;
  - `int(s)`;
  - `format_satoshis_plain`.
- **`codecs.dfy`**: the value types (amounts, outputs, decoded invoices, fetched data), plus two records of functions:
  - `Env` stands for the codecs the file imports (`bitcoin.is_address`, `address_to_script`, opcodes and script construction, base58, `lndecode`, `decode_lnurl`, `Invoice.from_bech32`, `parse_max_spend`, the configured decimal point, `urlparse`, `parse_qsl`, `quote`);
  - `Network` stands for the network collaborators (`contacts.resolve`, `get_payment_request`, `request_lnurl`, `callback_lnurl`, sending a BIP 70 payment).
- **`schemes.dfy`**: `maybe_extract_lightning_payment_identifier` and `is_uri`.
- **`bip21.dfy`**: `parse_bip21_URI` and `create_bip21_uri`. Each is a specification function and a method that builds the `out` dict field by field (or the query list item by item) and is proved equal to it.
- **`bip21_props.dfy`**, **`bip21_amounts.dfy`** and **`bip21_fields.dfy`**: what a parsed URI guarantees (one key per name, the amount rules, the cross-checks against an embedded invoice, `message` copied to `memo`), and the round trip from `create_bip21_uri` to `parse_bip21_URI`.
- **`payto.dfy`**: the line parsers of `PaymentIdentifier`:
  - `parse_address` (with the `RE_ALIAS` pattern);
  - `parse_script` and `parse_output`;
  - `parse_amount` and `parse_address_and_amount`;
  - the loop of `_parse_as_multiline`;
  - the `RE_EMAIL` pattern.
- **`identifier.dfy`**: the class `PaymentIdentifier`.
  - Its fields are independent optional values, as in the source, where several may be set at once.
  - Every method that changes the object is proved against a function from the old field values (a `State`) to the new ones. Methods that change nothing are proved equal to a function of the current state.
  - Lemmas state what the functions promise: the precedence of the families, the round predicates, the range check of round 2, and which fields each projection reads and writes.

Exceptions that escape a function of the source become explicit outcomes:

- `Raised`/`Threw`/`GuiRaised`/`InvoiceRaised` carry the exception's name or message;
- an `InvalidBitcoinURI` is `Invalid(reason)`.

Python truthiness is written out: an empty text, dict, list or byte string is false, and so is a zero amount.

Where the code and its description disagree, the model follows the code:

- **The OpenAlias warning.** Round 1 names `self.openalias` after `parse(address)` has run. If the resolved address is itself e-mail-like, that field has changed.
- **`get_onchain_outputs` for a URI without an address.** It gives a single output whose script is `None`. `parse_output(None)` swallows both exceptions it meets.

Where the code is evidently wrong (see "Findings"), both readings are modelled and the rest of the model is built on the corrected one. "Left out" names each member this affects.

### Names the source uses but does not define

Each is modelled as its evident intent:

- `_` as the identity;
- `decimal.InvalidOperation` as the "Invalid amount" failure;
- `opcodes` and `construct_script` as `Env` fields;
- `self.show_error` as an unmodelled display of the message: `get_bolt11_fields` still returns nothing.

Two of these broken names are modelled both ways, as written and as intended, under "Findings":

- `self._lnurl_data` in round 2;
- `self.bip70.send_payment_and_receive_paymentack` in round 3 (a text has no such method).

## Model

| member | source | states |
|---|---|---|
| Text.Strip | electrum/payment_identifier.py:19 | `str.strip()`: the result is no longer than the input and neither starts nor ends with white space |
| Text.StripShape | electrum/payment_identifier.py:19 | the stripped text is a slice of the input with only white space before and after it, so `strip` removes a leading and a trailing run of white space and nothing else |
| Text.StripStripped | electrum/payment_identifier.py:19 | a text that neither starts nor ends with white space is its own strip |
| Text.StripIdempotent | electrum/payment_identifier.py:234 | stripping twice is stripping once |
| Text.Lower | electrum/payment_identifier.py:20 | `str.lower()` on ASCII: same length, each character lowered |
| Text.LowerIdempotent | electrum/payment_identifier.py:154 | lowering twice is lowering once |
| Text.Split | electrum/payment_identifier.py:312 | `str.split(sep)`: at least one part, no part holds the separator, and joining the parts gives the text back |
| Text.SplitJoin | electrum/payment_identifier.py:312 | splitting a join of separator-free parts gives the parts back |
| Text.SplitCount | electrum/payment_identifier.py:312-314 | the number of parts is one more than the number of separators |
| Text.SplitOnceUnique | electrum/payment_identifier.py:59 | splitting at the only `?` gives the text before and after it |
| Text.Words | electrum/payment_identifier.py:336 | `str.split()`: every word is non-empty and holds no white space |
| Text.WordsConcat | electrum/payment_identifier.py:336 | the words of `split()`, put together, are exactly the text's non-white-space characters in order: none is lost, moved or duplicated |
| Text.WordsSplitAtSpace | electrum/payment_identifier.py:336 | a white-space character separates words: the words of `a + c + b` are the words of `a` followed by the words of `b`, for every `a` and `b` |
| Text.WordsOfWord | electrum/payment_identifier.py:336 | a non-empty text without white space is exactly one word, itself; with the row above this determines `split()` on every text |
| Hex.ToHex | electrum/payment_identifier.py:102 | `.hex()`: two hex digits per byte |
| Hex.FromHexToHex | electrum/payment_identifier.py:102 | `bytes.fromhex` reads back what `.hex()` wrote |
| Hex.FromHexAlphabet | electrum/payment_identifier.py:341 | text accepted by `bytes.fromhex` holds only hex digits and spaces |
| Decimals.TruncateBounds | electrum/payment_identifier.py:84 | `int(d)` keeps the sign and drops less than one unit of magnitude |
| Decimals.IntegerTruncates | electrum/payment_identifier.py:82-84 | for a whole-number decimal, `int` gives that number and the bound test compares it exactly |
| Decimals.TruncateWithinBound | electrum/payment_identifier.py:82-84 | a decimal within the bound truncates to at most the bound |
| Decimals.FormatSatoshisPlainParsesBack | electrum/payment_identifier.py:133 | the text `format_satoshis_plain(n)` writes is read by `Decimal` as exactly n / 10^8 |
| Decimals.ParseIntAgreesWithDecimal | electrum/payment_identifier.py:92 | whatever `int(s)` accepts, `Decimal(s)` reads as the same whole number |
| Schemes.ExtractAccepts | electrum/payment_identifier.py:18-26 | an identifier is returned iff the stripped, lower-cased text starts with `ln` or with `lightning:ln` |
| Schemes.ExtractFromShape | electrum/payment_identifier.py:21-25 | an extracted identifier starts with `ln` and is a tail of the cleaned text |
| Schemes.PrefixWithoutLn | electrum/payment_identifier.py:21-26 | a `lightning:` prefix not followed by `ln` gives `None` |
| Schemes.ExtractedClean | electrum/payment_identifier.py:19-25 | an extracted identifier is stripped, lower-case and starts with `ln` |
| Schemes.ExtractClean | electrum/payment_identifier.py:18-26 | a stripped lower-case text starting with `ln` is its own identifier |
| Schemes.ExtractIdempotent | electrum/payment_identifier.py:18-26 | extracting from an extracted identifier gives it back |
| Schemes.IsUriIgnoresCase | electrum/payment_identifier.py:153-158 | `is_uri` does not depend on letter case |
| Schemes.LnIsNotUri | electrum/payment_identifier.py:153-158 | a lower-case text starting with `ln` is not a URI |
| Schemes.ExtractedIsNotUri | electrum/payment_identifier.py:18-26 | an extracted Lightning identifier is never taken for a URI (also lines 153-158) |
| Bip21.GroupQuery | electrum/payment_identifier.py:60-62 | the grouping loop of `parse_qs` yields every key, in order of first occurrence, with the list of its values |
| Bip21.FindDuplicate | electrum/payment_identifier.py:64-66 | the loop finds the first key that does not have exactly one value |
| Bip21.DigitsOrPointsPrefix | electrum/payment_identifier.py:76 | the `[0-9.]+` group is the longest prefix of digits and points |
| Bip21.ParseBip21Uri | electrum/payment_identifier.py:41-121 | building `out` field by field gives exactly the result or the failure of the URI specification |
| Bip21.ProcessQuery | electrum/payment_identifier.py:69-119 | the field updates after the query, in source order, equal their specification |
| Bip21.SetAddress | electrum/payment_identifier.py:69-72 | a non-empty path must be an address and then becomes `address` |
| Bip21.SetAmount | electrum/payment_identifier.py:73-86 | the `amount` update equals its specification |
| Bip21.SetInt | electrum/payment_identifier.py:90-99 | the `time` and `exp` updates equal their specification |
| Bip21.SetSig | electrum/payment_identifier.py:100-104 | the `sig` update equals its specification |
| Bip21.CreateBip21Uri | electrum/payment_identifier.py:125-149 | appending the query items in a loop builds exactly the URI of the specification, or its exception |
| Bip21Properties.KeysOccur | electrum/payment_identifier.py:60 | a key is listed iff some pair carries it |
| Bip21Properties.GroupedIsValues | electrum/payment_identifier.py:60 | each listed key maps to the values given for it, in order |
| Bip21Properties.ValuesTwice | electrum/payment_identifier.py:64-66 | a key given twice has at least two values |
| Bip21Properties.ValuesOnce | electrum/payment_identifier.py:68 | a key given once has exactly its one value |
| Bip21Properties.NoDuplicate | electrum/payment_identifier.py:64-66 | no duplicate is found iff every key has exactly one value |
| Bip21Properties.DuplicateFound | electrum/payment_identifier.py:64-66 | a reported duplicate is a listed key with other than one value |
| Bip21Properties.RepeatedKeyFound | electrum/payment_identifier.py:64-66 | two pairs with the same key make the duplicate test fail |
| Bip21Properties.UniqueKeys | electrum/payment_identifier.py:64-66 | once no duplicate is found, no two pairs share a key |
| Bip21Properties.SingleValue | electrum/payment_identifier.py:64-68 | once no duplicate is found, each key has exactly its own value |
| Bip21Properties.QueryFieldsOfUniquePairs | electrum/payment_identifier.py:68 | once no duplicate is found, every pair is a field of `out` with its value |
| Bip21Properties.QueryFieldsFromPairs | electrum/payment_identifier.py:68 | every field taken from the query comes from some pair |
| Bip21Amounts.PrefixStops | electrum/payment_identifier.py:76 | the digits-and-points group stops at the first other character |
| Bip21Amounts.XFormMatches | electrum/payment_identifier.py:76 | digits and points, then `X` and a digit, match the `X` form with that digit |
| Bip21Amounts.XFormShape | electrum/payment_identifier.py:76-78 | a match is a digits-and-points prefix followed by `X` and a digit; text without `X` never matches |
| Bip21Amounts.DigitsParse | electrum/payment_identifier.py:79-81 | a digit string reads as its value both in `int` and in `Decimal` |
| Bip21Amounts.UriAmountBounded | electrum/payment_identifier.py:82-84 | an accepted amount is at most 21 million bitcoin in satoshis |
| Bip21Amounts.CheckIntegerAmount | electrum/payment_identifier.py:82-84 | a whole amount is accepted iff it is within the bound, and is then kept exactly |
| Bip21Amounts.XFormDigits | electrum/payment_identifier.py:76-84 | an `X`-form match on a digit group gives that group's value times `10^(digit-8)`, bound-checked |
| Bip21Amounts.XFormAmount | electrum/payment_identifier.py:76-84 | a digit string, `X` and a digit give that number times `10^(digit-8)`, bound-checked |
| Bip21Amounts.XFormWholeAmount | electrum/payment_identifier.py:76-84 | with digits 8 or 9 after `X` the amount is a whole number of satoshis, exactly |
| Bip21Amounts.PlainHasNoX | electrum/payment_identifier.py:133 | an amount written by `create_bip21_uri` never takes the `X` path |
| Bip21Amounts.ReadAmount | electrum/payment_identifier.py:81-84 | a plain decimal times COIN that is whole is read exactly, bound-checked |
| Bip21Amounts.PlainAmountReadsBack | electrum/payment_identifier.py:81-84 | the amount text `create_bip21_uri` writes for n satoshis is read back as n, or refused above the bound (also line 133) |
| Bip21Properties.CreateInvalidAddress | electrum/payment_identifier.py:127-128 | an invalid address gives the empty text |
| Bip21Properties.LeadingItemsPresent | electrum/payment_identifier.py:132-135 | `amount=` appears iff the amount is non-zero; `message=` appears iff the message is non-empty |
| Bip21Properties.IllegalKeyFirst | electrum/payment_identifier.py:136-138 | the rejected key is the first one that quoting changes; none is rejected iff quoting changes no key |
| Bip21Properties.CreateRejectsKey | electrum/payment_identifier.py:136-138 | any key that quoting would change makes `create_bip21_uri` raise |
| Bip21Fields.ProcessSteps | electrum/payment_identifier.py:69-119 | an accepted URI went through every step: address, amount, message, time, exp, sig, lightning |
| Bip21Fields.AddressStep | electrum/payment_identifier.py:69-72 | the address step changes only `address`, which holds a valid non-empty path |
| Bip21Fields.AmountStep | electrum/payment_identifier.py:73-86 | the amount step changes only `amount`, which becomes its value in satoshis |
| Bip21Fields.MessageStep | electrum/payment_identifier.py:87-89 | `memo` becomes a copy of `message`, and nothing else changes |
| Bip21Fields.IntStep | electrum/payment_identifier.py:90-99 | the `time`/`exp` step changes only that key, which becomes its integer |
| Bip21Fields.SigStep | electrum/payment_identifier.py:100-104 | `sig` becomes the hex of its base58 decoding, and nothing else changes |
| Bip21Fields.LightningStep | electrum/payment_identifier.py:105-119 | the lightning step changes nothing; the field decodes and passes both cross-checks |
| Bip21Fields.ConsistentLightning | electrum/payment_identifier.py:110-119 | when both checks pass, a non-zero amount beside an invoice amount is within 1 satoshi of it, and a given address equals a given fallback address |
| Bip21Fields.LightningAmountAccepted | electrum/payment_identifier.py:110-114 | the converse: an amount within 1 satoshi of the invoice amount, or beside an amountless invoice, passes the amount check |
| Bip21Fields.LightningLeeway | electrum/payment_identifier.py:112-114 | an amount 1 satoshi above or below the invoice's is accepted; 2 satoshis above is refused as inconsistent |
| Bip21Fields.LightningAddressAccepted | electrum/payment_identifier.py:115-119 | the converse: no address, no fallback, or a fallback equal to the address passes the address check |
| Bip21Fields.AmountlessInvoiceRaises | electrum/payment_identifier.py:110-114 | with a non-zero amount and an amountless invoice, the code as written raises `TypeError`; the intended version has no invoice amount to compare and accepts the URI |
| Bip21Fields.LightningAmountAgrees | electrum/payment_identifier.py:110-114 | the two amount checks agree whenever the invoice has an amount or the URI has no non-zero amount |
| Bip21Fields.ParsedAddress | electrum/payment_identifier.py:69-72 | in an accepted URI a non-empty path is a valid address and is the `address` field |
| Bip21Fields.ParsedAmount | electrum/payment_identifier.py:73-86 | an accepted amount is a whole number of satoshis, read by the amount rules and within the bound |
| Bip21Fields.ParsedMemo | electrum/payment_identifier.py:87-89 | an accepted message is also the memo |
| Bip21Fields.ParsedTime | electrum/payment_identifier.py:90-94 | an accepted `time` is the integer of its text |
| Bip21Fields.ParsedExp | electrum/payment_identifier.py:95-99 | an accepted `exp` is the integer of its text |
| Bip21Fields.ParsedSig | electrum/payment_identifier.py:100-104 | an accepted `sig` decodes and is stored as hex |
| Bip21Fields.ParsedLightning | electrum/payment_identifier.py:105-119 | an accepted `lightning` field decodes and agrees with the amount and the address |
| Bip21Fields.ParsedOtherKeys | electrum/payment_identifier.py:68-121 | other query keys pass through unchanged, and only `address` and `memo` are added |
| Bip21Fields.ParsedText | electrum/payment_identifier.py:69-121 | the steps turn no field other than `amount`, `time` and `exp` into a number |
| Bip21Fields.NoColonUri | electrum/payment_identifier.py:47-50 | without `:` the text is accepted iff it is an address, giving exactly `{address: text}` |
| Bip21Fields.SchemeChecked | electrum/payment_identifier.py:52-54 | a scheme other than `bitcoin`, in any case, is rejected |
| Bip21Fields.UriParts | electrum/payment_identifier.py:52-68 | an accepted URI has scheme `bitcoin`, unique query keys, and is its fields after the query |
| Bip21Fields.DuplicateKeyRefused | electrum/payment_identifier.py:64-66 | a key given twice makes the URI invalid with "Duplicate Key" |
| Bip21Fields.AcceptedKeysUnique | electrum/payment_identifier.py:64-66 | no two query pairs of an accepted URI share a key |
| Bip21Fields.AcceptedPath | electrum/payment_identifier.py:55-72 | the path of an accepted URI, when non-empty, is a valid address and the `address` field |
| Bip21Fields.AcceptedTypes | electrum/payment_identifier.py:41-121 | in an accepted URI only `amount`, `time` and `exp` hold numbers, and a present `amount` always does |
| Bip21Fields.AcceptedPairKept | electrum/payment_identifier.py:68 | a query pair with a key no step rewrites is a field, with its text |
| Bip21Fields.AcceptedAmount | electrum/payment_identifier.py:73-86 | a query `amount` is stored as its value in satoshis, within the bound |
| Bip21Fields.PlainUriParse | electrum/payment_identifier.py:41-121 | an address with an amount and a message parses to exactly those fields plus `memo` |
| Bip21Fields.CreateShape | electrum/payment_identifier.py:125-149 | the created URI is `bitcoin:` + address + `?` + the items joined by `&` |
| Bip21Fields.PlainUriFields | electrum/payment_identifier.py:69-119 | an address with a readable amount and a message gives exactly those fields, the amount in satoshis and `memo` added |
| Bip21Fields.CreatedUriRead | electrum/payment_identifier.py:52-62 | when `urlparse` splits the created URI as it was written (scheme `bitcoin`, path the address, query the items joined by `&`), the URI has a colon, its scheme passes the check whatever the case, and the reader takes the address as path and `parse_qs` of the written items as its pairs; any amount and message (also lines 125-149) |
| Bip21Fields.CreateThenParse | electrum/payment_identifier.py:125-149 | when `urlparse` splits the created URI as it was written and `parse_qs` returns the written pairs, then for every amount up to the supply and every message, parsing the URI gives back its address, its amount when non-zero and its message (and `memo`) when non-empty; a zero amount and an empty message come back absent, and nothing else is added (also lines 41-121) |
| Bip21Fields.CreatedPairsFields | electrum/payment_identifier.py:64-119 | the pairs a created URI is read into have no repeated key and give exactly the address, the non-zero amount and the non-empty message with its `memo` |
| Bip21Fields.AmountOnlyUri | electrum/payment_identifier.py:41-121 | when `urlparse` splits `bitcoin:<address>?amount=<format_satoshis_plain(n)>` as written and `parse_qs` returns the one `amount` pair, the URI reads as exactly the address and `n`, zero included, for every n up to the supply, and is refused as out of bounds above it |
| PayTo.AlnumSuffix | electrum/payment_identifier.py:171 | the longest `[0-9A-Za-z]` tail of a text |
| PayTo.AliasForm | electrum/payment_identifier.py:171 | `text <word>`, with no newline in the text, matches `RE_ALIAS` with the word as its second group (also lines 359-360) |
| PayTo.AliasSplit | electrum/payment_identifier.py:171 | every match is such a text, white space, `<`, an alphanumeric word and `>` (also lines 359-360) |
| PayTo.NoAngleNoAlias | electrum/payment_identifier.py:171 | text without `<` never matches `RE_ALIAS` (also line 359) |
| PayTo.ParseAddress | electrum/payment_identifier.py:357-362 | the result is an address, either the stripped line or the `<...>` group of the alias form |
| PayTo.ParseAliasLine | electrum/payment_identifier.py:357-362 | for `name <word>` the result is the word if it is an address, and a failure otherwise |
| PayTo.ParseBareLine | electrum/payment_identifier.py:357-362 | without `<` the result is the stripped line if it is an address, and a failure otherwise |
| PayTo.ScriptFailurePersists | electrum/payment_identifier.py:336-343 | once a word fails, the script fails with that word's error |
| PayTo.ScriptSucceedsIff | electrum/payment_identifier.py:336-343 | the script is built iff every word is a known opcode or hex data |
| PayTo.ScriptFirstFailure | electrum/payment_identifier.py:336-343 | the failure reported is the first bad word's |
| PayTo.ParseScript | electrum/payment_identifier.py:334-343 | the loop over the words builds the script of its specification |
| PayTo.ParseOutput | electrum/payment_identifier.py:319-332 | the address's script, else the script's bytes, else nothing |
| PayTo.AddressGivesScript | electrum/payment_identifier.py:320-322 | an address is tried first and gives its script |
| PayTo.ScriptGivesOutput | electrum/payment_identifier.py:325-327 | failing as an address, a text of valid words gives the script's bytes |
| PayTo.NoOutput | electrum/payment_identifier.py:319-332 | neither an address nor a valid script gives no output, without raising |
| PayTo.ParseAmount | electrum/payment_identifier.py:345-355 | empty input is refused; a max-spend token is kept as it is |
| PayTo.AmountOfNumber | electrum/payment_identifier.py:350-353 | a number is `10^decimal_point` times its value, truncated |
| PayTo.PlainAmountParses | electrum/payment_identifier.py:345-355 | with 8 decimals, `format_satoshis_plain(n)` parses back to n satoshis |
| PayTo.ParseAddressAndAmount | electrum/payment_identifier.py:310-317 | the line parser equals its specification (with the destination required) |
| PayTo.LineAccepted | electrum/payment_identifier.py:310-317 | an accepted line holds exactly one comma; its output is the first part's script and the second part's amount |
| PayTo.LineRefinesAsWritten | electrum/payment_identifier.py:310-332 | the intended line parser accepts exactly the lines the code as written accepts with a script, and agrees on them |
| PayTo.LineParts | electrum/payment_identifier.py:312-317 | an accepted line splits into exactly two parts at the comma |
| PayTo.LineOfParts | electrum/payment_identifier.py:310-317 | a destination, a comma and an amount give that output |
| PayTo.GarbageHasNoOutput | electrum/payment_identifier.py:319-332 | `garbage`, when not an address, is neither an address nor a script, so no output is found |
| PayTo.GarbageLineAccepted | electrum/payment_identifier.py:310-332 | as written, `garbage,1` is accepted with no script; the intended parser rejects it |
| PayTo.NonEmptyLines | electrum/payment_identifier.py:287-288 | the lines kept are the non-empty ones, each without a newline |
| PayTo.DropEmptyOne | electrum/payment_identifier.py:288 | one line is kept exactly when it is not empty |
| PayTo.DropEmptyAppend | electrum/payment_identifier.py:288 | the filter works line by line: the kept lines of two runs of lines are the kept lines of each, in order; with the row above this determines the result |
| PayTo.LinesOfJoin | electrum/payment_identifier.py:287-288 | for any text written as newline-free lines joined by newlines, the lines kept are exactly the non-empty ones among them, in order |
| PayTo.OneLine | electrum/payment_identifier.py:287-288 | a text without a newline is one line |
| PayTo.CollectLines | electrum/payment_identifier.py:292-303 | the loop collects exactly the outputs and line errors of its specification |
| PayTo.BatchCounts | electrum/payment_identifier.py:292-303 | every line gives either an output or an error |
| PayTo.BatchErrorSound | electrum/payment_identifier.py:295-299 | each error names a line that failed, with its index, stripped content and exception |
| PayTo.BatchErrorsOrdered | electrum/payment_identifier.py:292-299 | errors come in line order |
| PayTo.FailedLineReported | electrum/payment_identifier.py:295-299 | every failing line is reported, and the lines after it are still parsed |
| PayTo.BatchOutputSound | electrum/payment_identifier.py:300 | every output is the parse of some line |
| PayTo.ParsedLineKept | electrum/payment_identifier.py:300 | every line that parses contributes its output |
| PayTo.EmailShape | electrum/payment_identifier.py:172 | a match of `RE_EMAIL` starts with a word character and holds an `@` followed later by a `.` |
| PayTo.EmailFormMatches | electrum/payment_identifier.py:172 | every text made of a word character and local characters, `@`, a non-empty domain, `.`, a TLD of two to seven letters, then the end or a non-word character, matches `RE_EMAIL` |
| PayTo.AliceMatches | electrum/payment_identifier.py:172 | `alice@example.com` matches |
| PayTo.TrailingTextMatches | electrum/payment_identifier.py:172 | the pattern is anchored at the start only: `bob@site.org extra` matches (also line 263) |
| Identifier.AcceptedFieldsRead | electrum/payment_identifier.py:259 | the text fields of a parsed URI read as text, and its `amount` as a whole number (also lines 419-426) |
| Identifier.BlankTextIgnored | electrum/payment_identifier.py:211-212 | blank text changes nothing, so a new identifier of it is not valid and has no error (also lines 234-236) |
| Identifier.MultilineFirst | electrum/payment_identifier.py:237-239 | a batch with an output wins: the family is multiline, the outputs are kept, and the error lists the failed lines |
| Identifier.MultilineErrorRule | electrum/payment_identifier.py:306-307 | `error` is set from the line errors (or cleared) only for more than one line or at least one output |
| Identifier.OneBadLineFallsThrough | electrum/payment_identifier.py:237-240 | a single line that is not `address,amount` leaves the state alone and the later families are tried (also lines 306-308) |
| Identifier.LightningSecond | electrum/payment_identifier.py:240-250 | Lightning comes next: `lnurl` gives a decoded pointer or the decode error, anything else an invoice |
| Identifier.UriThird | electrum/payment_identifier.py:251-259 | then a `bitcoin:` URI: its fields and `r` reference, the reason it is invalid, or the exception escaping |
| Identifier.LaterFamilies | electrum/payment_identifier.py:260-268 | then a non-empty script, then an e-mail-like alias; otherwise the error holds the text truncated to 100 characters plus `...` |
| Identifier.ClassifyFrame | electrum/payment_identifier.py:240-268 | classifying never touches the fetched data, the warning or the text, and never clears a target |
| Identifier.UriFrame | electrum/payment_identifier.py:251-259 | the URI branch keeps the fetched data, the warning and the text, and clears no target |
| Identifier.TargetFrame | electrum/payment_identifier.py:260-268 | the script and alias branches keep the fetched data, the warning and the text, and clear no target |
| Identifier.ParseFrame | electrum/payment_identifier.py:232-268 | `parse` never touches the fetched data, the warning or the text, and never clears a target |
| Identifier.LnurlNeedsRound1 | electrum/payment_identifier.py:223-227 | a new pointer identifier needs round 1 and not yet round 2 (also lines 240-247) |
| Identifier.Bip70NeedsRounds | electrum/payment_identifier.py:223-230 | a new URI with an `r` reference needs rounds 1 and 3 and not round 2 (also line 259) |
| Identifier.Round1NotNeeded | electrum/payment_identifier.py:482-499 | without anything to fetch, round 1 returns at once and changes nothing (also lines 223-224) |
| Identifier.Round1CallsBackOnlyWhenNeeded | electrum/payment_identifier.py:482-500 | round 1 calls back only when `needs_round_1` holds (also lines 223-224) |
| Identifier.Round1Lnurl | electrum/payment_identifier.py:495-497 | the LNURL parameters are stored, after which round 2 is needed |
| Identifier.Round1LnurlFails | electrum/payment_identifier.py:495-497 | a failed LNURL request escapes and stores nothing |
| Identifier.Round1Bip70 | electrum/payment_identifier.py:491-494 | a BIP 70 reference is fetched and the request stored |
| Identifier.ResolveFound | electrum/payment_identifier.py:456-474 | a resolvable alias key parses the found address into the identifier and returns the data |
| Identifier.Round1Alias | electrum/payment_identifier.py:456-490 | a resolved alias: address parsed, data stored, round 1 calls back; the warning is left alone for a validated alias and is otherwise set to the alias field as it stands after the address was parsed |
| Identifier.Round1AliasNotFound | electrum/payment_identifier.py:463-467 | an alias lookup that fails makes round 1 raise on the missing data (also lines 484-486) |
| Identifier.Round2Range | electrum/payment_identifier.py:505-507 | the amount is refused iff it is outside the inclusive LNURL bounds; the error names them and `on_success` is not called |
| Identifier.Round2Invoice | electrum/payment_identifier.py:508-524 | in range, an invoice for the amount becomes `bolt11`; an invoice for another amount raises |
| Identifier.Round2Stores | electrum/payment_identifier.py:502-524 | round 2 changes `bolt11` only for a pointer with parameters, and only to a callback answer whose decoding is an invoice for the amount asked |
| Identifier.Round2MissingPr | electrum/payment_identifier.py:516-524 | a callback answer without `pr` goes to `Invoice.from_bech32` as `None`: what that raises escapes round 2, and a decoding for the amount asked leaves `bolt11` as `None` after calling back |
| Identifier.OutOfRangeRaises | electrum/payment_identifier.py:505-507 | as written, an amount out of range raises `AttributeError`; the intended round reports the bounds |
| Identifier.Round2AgreesInRange | electrum/payment_identifier.py:502-524 | elsewhere round 2 as written and as intended agree |
| Identifier.Round3KeepsState | electrum/payment_identifier.py:527-531 | round 3 changes no field; it calls back or raises, never returning silently, and calls back at once when no request is pending |
| Identifier.PaymentAnswered | electrum/payment_identifier.py:528-531 | with a fetched request, round 3 calls back iff the payment call answers, whatever acknowledgement status it carries (the code only logs it), and raises the call's error otherwise |
| Identifier.PaymentNeverSent | electrum/payment_identifier.py:528-531 | as written, round 3 raises for every BIP 70 request; the intended round calls back once the payment is acknowledged |
| Identifier.DescriptionIsFirst | electrum/payment_identifier.py:447-450 | the description is the first `d` tag |
| Identifier.NoDescription | electrum/payment_identifier.py:451-452 | without a `d` tag the description is empty |
| Identifier.Bolt11FieldsRead | electrum/payment_identifier.py:436-454 | a decoded invoice shows its key; it has an amount iff the invoice does, and that amount is exactly its msat / 1000 |
| Identifier.GuiOnlyWarnsOrErrs | electrum/payment_identifier.py:364-434 | the projection changes only `warning` and `error`, and changes `error` only when it shows nothing |
| Identifier.GuiAlias | electrum/payment_identifier.py:372-380 | a resolved alias shows `alias <address>` and its validity, with a warning exactly when it is not validated |
| Identifier.GuiInvoice | electrum/payment_identifier.py:383-386 | an invoice shows its payee key and asks for an amount iff it has none or zero |
| Identifier.GuiLnurl | electrum/payment_identifier.py:388-393 | a pointer with parameters asks for an amount and proposes the minimum |
| Identifier.GuiRequestError | electrum/payment_identifier.py:395-399 | a fetched request with an error shows nothing and makes that error the identifier's |
| Identifier.GuiUri | electrum/payment_identifier.py:418-432 | a URI shows its address and amount, with the label standing in for a missing message; an embedded invoice takes over when the wallet has Lightning |
| Identifier.OnchainOutputsShape | electrum/payment_identifier.py:274-281 | a script or a URI gives one output paying the amount given |
| Identifier.UriOutputScript | electrum/payment_identifier.py:278-281 | a URI with an address pays that address's script |
| Identifier.HasExpiredOf | electrum/payment_identifier.py:476-479 | only a fetched BIP 70 request can have expired |
| Identifier.ScriptInvoice | electrum/payment_identifier.py:544-552 | for a script, the invoice as written raises; the intended one has one output paying the amount given, a satoshi amount or the max-spend token, and no message |
| Identifier.BatchInvoice | electrum/payment_identifier.py:544-552 | for a batch, the invoice as written raises; the intended one has the batch's outputs |
| Identifier.OnchainInvoiceMessage | electrum/payment_identifier.py:544-552 | on chain the intended invoice pays the outputs, with the URI's message if there is a URI and none otherwise |
| Identifier.InvoiceAgrees | electrum/payment_identifier.py:533-552 | over Lightning, or with a URI, the invoice as written and as intended agree |
| Identifier.LightningInvoiceAmount | electrum/payment_identifier.py:536-543 | an invoice with an amount keeps it whatever amount is given; an amountless one gets a satoshi amount times 1000 in msat, and the max-spend token makes `int` raise `ValueError` |
| Identifier.PaymentIdentifier.constructor | electrum/payment_identifier.py:186-207 | every field starts empty and the text is kept |
| Identifier.NewPaymentIdentifier | electrum/payment_identifier.py:186-209 | a new object is its initial state after `parse(text)` |
| Identifier.PaymentIdentifier.ParseAsMultiline | electrum/payment_identifier.py:285-308 | the outputs and the new `error` are those of the batch specification |
| Identifier.PaymentIdentifier.Parse | electrum/payment_identifier.py:232-268 | the new fields, and any exception escaping, are those of the `parse` specification |
| Identifier.PaymentIdentifier.ParseLightning | electrum/payment_identifier.py:240-250 | the Lightning branch's new fields |
| Identifier.PaymentIdentifier.ParseUri | electrum/payment_identifier.py:251-259 | the URI branch's new fields, or the exception escaping |
| Identifier.PaymentIdentifier.ParseTarget | electrum/payment_identifier.py:260-268 | the script branch, the alias branch, or the failure |
| Identifier.PaymentIdentifier.ResolveOpenalias | electrum/payment_identifier.py:456-474 | the data returned and the new fields are those of the resolution specification |
| Identifier.PaymentIdentifier.Round1 | electrum/payment_identifier.py:481-500 | the new fields and the outcome are those of the round 1 specification |
| Identifier.PaymentIdentifier.Round2 | electrum/payment_identifier.py:502-524 | the new fields and the outcome are those of the round 2 specification |
| Identifier.PaymentIdentifier.Round3 | electrum/payment_identifier.py:526-531 | the outcome is that of the round 3 specification, and no field changes |
| Identifier.PaymentIdentifier.GetBolt11Fields | electrum/payment_identifier.py:436-454 | the tag loop finds the description of the specification |
| Identifier.PaymentIdentifier.GetFieldsForGui | electrum/payment_identifier.py:364-434 | the display tuple and the new `warning`/`error` are those of the projection |
| Identifier.PaymentIdentifier.GetOnchainOutputs | electrum/payment_identifier.py:270-283 | the outputs, or the exception, of the specification |
| Identifier.PaymentIdentifier.HasExpired | electrum/payment_identifier.py:476-479 | the answer, or the exception, of the specification |
| Identifier.PaymentIdentifier.GetInvoice | electrum/payment_identifier.py:533-552 | the invoice of the intended specification, for a satoshi amount or the max-spend token the send tab passes |

## Left out

- Codecs are uninterpreted functions of `Env`: addresses, scripts and opcodes, base58, BOLT 11 decoding and `Invoice.from_bech32` (of a text, and of the `None` a callback answer without `pr` gives), LNURL decoding, `urlparse`, `parse_qsl`, `quote`, and the max-spend token test. Only their results matter here.
- The network is uninterpreted functions of `Network`. Concurrency, `asyncio`, `on_success` callbacks, logging and `log_exceptions` are left out. A round's outcome says whether it returned early, called back, or raised.
- Writing the resolved alias into `contacts` (the `contacts[key] = ...` line of `resolve_openalias`) is a side effect outside the object, and is not modelled.
- `wallet.create_invoice` is not modelled. The on-chain `get_invoice` outcome is the arguments passed to it. `wallet.has_lightning()` is a parameter.
- `round_3`'s transaction serialization and refund address are left out. They are passed through to the network call unchanged.
- `_parse_as_multiline` also sums `total` and sets `is_max`. Nothing reads them, so they are not modelled.
- `Decimal` is exact. Its 28-digit context (rounding of long mantissas, and overflow past its largest exponent) is not modelled, and neither are `Decimal` operations other than parsing, scaling by a power of ten, comparison and `int`.
- `str.lower`, the `\w` and `\b` of `RE_EMAIL`, and `[0-9A-Za-z]` of `RE_ALIAS` are ASCII-only. Non-ASCII letters are treated as non-letters.
- The `isinstance(uri, str)` check of `parse_bip21_URI` cannot fail in a typed model.
- Exceptions are identified by name or message text only. Python's exception chaining and the exact message formatting (`repr` of values) are not modelled.
- `get_error` only returns `error` and is not modelled as a separate member.
- Identifier.PaymentIdentifier.GetInvoice: the method follows the intended reading of `get_invoice`, not the code as written. See Findings.
- Identifier.PaymentIdentifier.Round2: the method follows the intended reading of `round_2`, not the code as written. See Findings.
- Identifier.PaymentIdentifier.Round3: the method follows the intended reading of `round_3`, not the code as written. See Findings.
- PayTo.ParseAddressAndAmount: the method follows the intended reading of `parse_address_and_amount`, not the code as written. See Findings.
- PayTo.CollectLines: the batch loop parses each line with the intended `parse_address_and_amount`. The single line `garbage,1`, where `garbage` is neither an address nor a script, is a line error here, where the code as written yields an output without a script (Findings, second row).
- Identifier.PaymentIdentifier.ParseAsMultiline: it uses the same intended line parser, so for `garbage,1` it records a line error and no output, where the code as written returns an output.
- Bip21.ParseBip21Uri: the result is the intended lightning amount check. For `bitcoin:A?amount=1&lightning=<invoice without an amount>` the URI is accepted here, where `int(None)` raises `TypeError` in the code as written (Findings, first row).
- Bip21.ProcessQuery: its lightning step is the intended amount check, so the amountless-invoice `TypeError` of the code as written is not raised.
- Identifier.PaymentIdentifier.ParseUri: it parses with the intended URI reader, so for a URI with `amount=1` and an amountless invoice it stores the URI, where in the code as written the `TypeError` escapes `parse`.
- Identifier.PaymentIdentifier.Parse: both intended readings apply. `garbage,1` does not stop parsing as a batch, and a URI with `amount=1` and an amountless invoice is stored instead of raising `TypeError`.
- Identifier.NewPaymentIdentifier: it runs the same `parse`, with the same two differences for `garbage,1` and for `amount=1` beside an amountless invoice.
- Bip21.SetAmount: the `Decimal` reader accepts ASCII digits only. Python's `Decimal` also accepts `_` between digits and non-ASCII decimal digits, so `amount=1_000` is refused here where the code reads 1000 BTC.
- Bip21.SetInt: the `int` reader accepts ASCII digits only. Python's `int` also accepts `_` between digits and non-ASCII decimal digits, so `time=1_700_000_000` is refused here where the code reads it.
- PayTo.ParseAmount: the same `Decimal` reader, so the batch line `A,1_000` is a line error here where the code makes an output of 1000 coins.
- Identifier.Round2Of: every failure of the LNURL callback request is the caught `LNURLError`, which sets `error`. Other exceptions the request could raise, which would escape round 2, are not distinguished.

## Findings

| source | as written | input that shows it | evidently intended | confidence | as-written member | corrected member |
|---|---|---|---|---|---|---|
| electrum/payment_identifier.py:110-114 | `int(lnaddr.get_amount_sat())` is evaluated for an invoice without an amount | a URI with `amount=1` whose `lightning=` invoice has no amount: `TypeError` escapes `parse_bip21_URI` and `parse` | the amount comparison is skipped for an amountless invoice, as the check is only meant to apply when both amounts are present | medium; not executed | Bip21Fields.AmountlessInvoiceRaises | Bip21Fields.LightningAmountAccepted |
| electrum/payment_identifier.py:319-332 | `parse_output` returns `None` when the text is neither an address nor a script (the raise is commented out) | the batch line `garbage,1` is accepted as an output with no script | the line is refused with "Invalid address or script." | medium; not executed | PayTo.GarbageLineAccepted | PayTo.LineAccepted |
| electrum/payment_identifier.py:546 | `self.bip21.get('message')` is read even when there is no URI | `get_invoice` for a script or a batch raises `AttributeError` | no message when there is no URI | medium; not executed | Identifier.ScriptInvoice | Identifier.OnchainInvoiceMessage |
| electrum/payment_identifier.py:505-507 | the out-of-range message reads `self._lnurl_data`, which no object has | round 2 with an amount below `min_sendable_sat` raises `AttributeError` | `error` names the bounds and round 2 returns | high; not executed | Identifier.OutOfRangeRaises | Identifier.Round2Range |
| electrum/payment_identifier.py:529 | the payment is sent through `self.bip70`, which holds the request's URL text | round 3 for any BIP 70 request raises `AttributeError` | the payment is sent through the fetched request `bip70_data` | high; not executed | Identifier.PaymentNeverSent | Identifier.PaymentAnswered |
