/**
 * The parsers behind the pay-to field: an address written bare or as
 * `name <address>`, a script written as opcode names and hex pushes, an
 * amount, one `address,amount` line, a batch of such lines, and the
 * e-mail-like shape that marks an OpenAlias.
 */
module PayTo {
  import opened Wrappers
  import opened Text
  import opened Hex
  import opened Decimals
  import opened Codecs

  // ------------------------------------------------------- `name <address>`

  /** A suffix of `s` is a suffix of `s` without its last character, followed by that character. */
  lemma SuffixSnoc(s: string, n: nat)
    requires n < |s|
    ensures s[|s| - n - 1..] == s[..|s| - 1][|s| - 1 - n..] + [s[|s| - 1]]
  {
  }

  /** Appending one letter or digit to a run of letters and digits gives a run of letters and digits. */
  lemma AllAlnumSnoc(w: string, c: char)
    requires AllAlnum(w) && IsAlnum(c)
    ensures AllAlnum(w + [c])
  {
    assert forall i :: 0 <= i < |w| ==> (w + [c])[i] == w[i];
  }

  /** The longest suffix of `s` made of ASCII letters and digits. */
  function AlnumSuffix(s: string): (w: string)
    ensures |w| <= |s| && w == s[|s| - |w|..] && AllAlnum(w)
    ensures |w| == |s| || !IsAlnum(s[|s| - |w| - 1])
  {
    if s != [] && IsAlnum(s[|s| - 1]) then
      var w' := AlnumSuffix(s[..|s| - 1]);
      SuffixSnoc(s, |w'|);
      AllAlnumSnoc(w', s[|s| - 1]);
      w' + [s[|s| - 1]]
    else []
  }

  /**
   * The address that `re.match('^(.*?)\s*<([0-9A-Za-z]+)>$', r)` captures as
   * its second group, or `None` when the pattern does not match. `.` stands
   * for any character but a newline and `\s` for whitespace; `r` is always
   * stripped here, so `$` can only match at the very end.
   */
  function AliasAddress(r: string): Option<string> {
    if r == [] || r[|r| - 1] != '>' then None
    else
      var body := r[..|r| - 1];
      var w := AlnumSuffix(body);
      var k := |body| - |w|;
      if w == [] || k == 0 || body[k - 1] != '<' then None
      else if '\n' in RStrip(body[..k - 1]) then None
      else Some(w)
  }

  lemma {:induction false} AlnumSuffixAfter(x: string, w: string)
    requires x != [] && !IsAlnum(x[|x| - 1]) && AllAlnum(w)
    ensures AlnumSuffix(x + w) == w
  {
    if w == [] {
      assert x + w == x;
    } else {
      assert (x + w)[..|x + w| - 1] == x + w[..|w| - 1];
      AlnumSuffixAfter(x, w[..|w| - 1]);
      assert w[..|w| - 1] + [w[|w| - 1]] == w;
    }
  }

  /** Trailing whitespace does not change what `rstrip` keeps. */
  lemma {:induction false} RStripSpaces(a: string, s: string)
    requires AllSpace(s)
    ensures RStrip(a + s) == RStrip(a)
  {
    if s == [] {
      assert a + s == a;
    } else {
      assert (a + s)[..|a + s| - 1] == a + s[..|s| - 1];
      RStripSpaces(a, s[..|s| - 1]);
    }
  }

  /**
   * Every text of the shape `a s <w>`, with no newline in `a`, only whitespace
   * in `s` and a non-empty alphanumeric `w`, matches, and `w` is the group.
   */
  lemma AliasForm(a: string, s: string, w: string)
    requires '\n' !in a && AllSpace(s) && w != [] && AllAlnum(w)
    ensures AliasAddress(a + s + ['<'] + w + ['>']) == Some(w)
  {
    var r := a + s + ['<'] + w + ['>'];
    var body := r[..|r| - 1];
    assert body == a + s + ['<'] + w;
    assert AlnumSuffix(body) == w by { AlnumSuffixAfter(a + s + ['<'], w); }
    var k := |body| - |w|;
    assert body[k - 1] == '<' && body[..k - 1] == a + s;
    assert '\n' !in RStrip(a + s) by {
      RStripSpaces(a, s);
      RStripShape(a);
      assert RStrip(a) == a[..|RStrip(a)|];
    }
  }

  /** What a match of `r` says about its last characters. */
  lemma AliasMatchEnds(r: string, w: string, p: string)
    ensures AliasAddress(r).Some? && w == AlnumSuffix(r[..|r| - 1]) && p == r[..|r| - |w| - 2] ==>
      AliasAddress(r) == Some(w) && w != [] && AllAlnum(w) && |r| >= |w| + 2 && r[|r| - 1] == '>' &&
      r[|r| - |w| - 2] == '<' && w == r[|r| - |w| - 1..|r| - 1] && '\n' !in RStrip(p)
  {
    if AliasAddress(r).Some? && w == AlnumSuffix(r[..|r| - 1]) {
      assert r[..|r| - 1][|r| - 1 - |w|..] == r[|r| - |w| - 1..|r| - 1];
      assert r[..|r| - 1][..|r| - |w| - 2] == r[..|r| - |w| - 2];
    }
  }

  /** The text around the brackets, put back together. */
  lemma Reassemble(r: string, w: string, a: string, s: string)
    requires |r| >= |w| + 2 && r[|r| - 1] == '>' && r[|r| - |w| - 2] == '<'
    requires w == r[|r| - |w| - 1..|r| - 1] && a + s == r[..|r| - |w| - 2]
    ensures r == a + s + ['<'] + w + ['>']
  {
    assert r == r[..|r| - |w| - 2] + [r[|r| - |w| - 2]] + r[|r| - |w| - 1..|r| - 1] + [r[|r| - 1]];
  }

  /** Conversely, every match has that shape. */
  lemma AliasSplit(r: string) returns (a: string, s: string, w: string)
    requires AliasAddress(r).Some?
    ensures AliasAddress(r) == Some(w) && r == a + s + ['<'] + w + ['>']
    ensures '\n' !in a && AllSpace(s) && w != [] && AllAlnum(w)
  {
    w := AlnumSuffix(r[..|r| - 1]);
    var p := r[..|r| - |w| - 2];
    AliasMatchEnds(r, w, p);
    a := RStrip(p);
    RStripShape(p);
    s := p[|a|..];
    assert a + s == p;
    Reassemble(r, w, a, s);
  }

  /** Text without `<` never matches. */
  lemma NoAngleNoAlias(r: string)
    requires '<' !in r
    ensures AliasAddress(r).None?
  {
    if AliasAddress(r).Some? {
      var a, s, w := AliasSplit(r);
    }
  }

  /**
   * `parse_address`: the stripped line, or the address inside its angle
   * brackets; `Failure` is the `AssertionError` for text that is not an address.
   */
  function ParseAddress(env: Env, line: string): (r: Result<string, string>)
    ensures r.Success? ==> env.isAddress(r.value)
    ensures r.Success? ==> r.value == Strip(line) || AliasAddress(Strip(line)) == Some(r.value)
  {
    var t := Strip(line);
    var address := match AliasAddress(t) case Some(w) => w case None => t;
    if env.isAddress(address) then Success(address) else Failure("AssertionError")
  }

  /** `name <address>`: the address in the brackets decides. */
  lemma ParseAliasLine(env: Env, line: string, a: string, s: string, w: string)
    requires Strip(line) == a + s + ['<'] + w + ['>']
    requires '\n' !in a && AllSpace(s) && w != [] && AllAlnum(w)
    ensures env.isAddress(w) ==> ParseAddress(env, line) == Success(w)
    ensures !env.isAddress(w) ==> ParseAddress(env, line).Failure?
  {
    AliasForm(a, s, w);
  }

  /** A line without `<` is taken as it stands, once stripped. */
  lemma ParseBareLine(env: Env, line: string)
    requires '<' !in Strip(line)
    ensures env.isAddress(Strip(line)) ==> ParseAddress(env, line) == Success(Strip(line))
    ensures !env.isAddress(Strip(line)) ==> ParseAddress(env, line).Failure?
  {
    NoAngleNoAlias(Strip(line));
  }

  // ---------------------------------------------------------- parse_script

  /** One word of a script: an opcode name (`KeyError` when unknown) or hex data (`ValueError` when not hex). */
  function WordScript(env: Env, word: string): Result<string, string> {
    if StartsWith(word, "OP_") then
      match env.opcodeScript(word)
      case None => Failure("KeyError")
      case Some(s) => Success(s)
    else if FromHex(word).None? then Failure("ValueError")
    else Success(env.pushScript(word))
  }

  /** The script of `words`, read from the left; the first word that fails decides the exception. */
  function ScriptOf(env: Env, words: seq<string>): Result<string, string> {
    if words == [] then Success("")
    else
      var init :- ScriptOf(env, words[..|words| - 1]);
      var piece :- WordScript(env, words[|words| - 1]);
      Success(init + piece)
  }

  /** Once a prefix of the words fails, the whole script fails the same way. */
  lemma {:induction false} ScriptFailurePersists(env: Env, words: seq<string>, i: nat)
    requires i <= |words| && ScriptOf(env, words[..i]).Failure?
    ensures ScriptOf(env, words) == ScriptOf(env, words[..i])
    decreases |words|
  {
    if i == |words| {
      assert words[..i] == words;
    } else {
      var init := words[..|words| - 1];
      assert init[..i] == words[..i];
      ScriptFailurePersists(env, init, i);
    }
  }

  /** A script is built exactly when every one of its words is. */
  lemma {:induction false} ScriptSucceedsIff(env: Env, words: seq<string>)
    ensures ScriptOf(env, words).Success? <==> forall i :: 0 <= i < |words| ==> WordScript(env, words[i]).Success?
  {
    if words != [] {
      var init := words[..|words| - 1];
      ScriptSucceedsIff(env, init);
      assert forall i :: 0 <= i < |init| ==> init[i] == words[i];
    }
  }

  /** The exception is the one of the first word that fails. */
  lemma ScriptFirstFailure(env: Env, words: seq<string>, j: nat)
    requires j < |words| && WordScript(env, words[j]).Failure?
    requires forall i :: 0 <= i < j ==> WordScript(env, words[i]).Success?
    ensures ScriptOf(env, words) == Failure(WordScript(env, words[j]).error)
  {
    ScriptSucceedsIff(env, words[..j]);
    assert words[..j + 1][..j] == words[..j];
    ScriptFailurePersists(env, words, j + 1);
  }

  /** A word that builds extends the script of the words before it. */
  lemma ScriptGrows(env: Env, words: seq<string>, i: nat, script: string)
    requires i < |words| && ScriptOf(env, words[..i]) == Success(script) && WordScript(env, words[i]).Success?
    ensures ScriptOf(env, words[..i + 1]) == Success(script + WordScript(env, words[i]).value)
  {
    assert words[..i + 1][..i] == words[..i] && words[..i + 1][i] == words[i];
  }

  /** A word that fails, after words that build, is the exception of the whole script. */
  lemma ScriptStops(env: Env, words: seq<string>, i: nat, script: string)
    requires i < |words| && ScriptOf(env, words[..i]) == Success(script) && WordScript(env, words[i]).Failure?
    ensures ScriptOf(env, words) == Failure(WordScript(env, words[i]).error)
  {
    assert words[..i + 1][..i] == words[..i] && words[..i + 1][i] == words[i];
    ScriptFailurePersists(env, words, i + 1);
  }

  /** `parse_script(x)`: the script text of the words of `x`. */
  method ParseScript(env: Env, x: string) returns (r: Result<string, string>)
    ensures r == ScriptOf(env, Words(x))
  {
    var words := Words(x);
    var script := "";
    var i := 0;
    while i < |words|
      invariant 0 <= i <= |words|
      invariant ScriptOf(env, words[..i]) == Success(script)
    {
      var word := words[i];
      if StartsWith(word, "OP_") {
        var opcode := env.opcodeScript(word);
        if opcode.None? {
          ScriptStops(env, words, i, script);
          return Failure("KeyError");
        }
        ScriptGrows(env, words, i, script);
        script := script + opcode.value;
      } else {
        if FromHex(word).None? {
          ScriptStops(env, words, i, script);
          return Failure("ValueError");
        }
        ScriptGrows(env, words, i, script);
        script := script + env.pushScript(word);
      }
      i := i + 1;
    }
    assert words[..i] == words;
    r := Success(script);
  }

  // ---------------------------------------------------------- parse_output

  /** The script of an address, when `x` parses as one and its script is hex. */
  function AddressOutput(env: Env, x: string): Option<Bytes> {
    match ParseAddress(env, x)
    case Success(a) => FromHex(env.addressToScript(a))
    case Failure(_) => None
  }

  /** `parse_output(x)`: the address' script, else the script text of `x`, else nothing. */
  function OutputOf(env: Env, x: string): Option<Bytes> {
    if AddressOutput(env, x).Some? then AddressOutput(env, x)
    else
      match ScriptOf(env, Words(x))
      case Success(s) => FromHex(s)
      case Failure(_) => None
  }

  method ParseOutput(env: Env, x: string) returns (r: Option<Bytes>)
    ensures r == OutputOf(env, x)
  {
    var address := ParseAddress(env, x);
    if address.Success? {
      var b := FromHex(env.addressToScript(address.value));
      if b.Some? {
        return b;
      }
    }
    var script := ParseScript(env, x);
    if script.Success? {
      r := FromHex(script.value);
    } else {
      r := None;
    }
  }

  /** An address (bare, or in `name <address>`) gives its own script. */
  lemma AddressGivesScript(env: Env, x: string, a: string, b: Bytes)
    requires ParseAddress(env, x) == Success(a) && FromHex(env.addressToScript(a)) == Some(b)
    ensures OutputOf(env, x) == Some(b)
  {
  }

  /** Text that is no address is read as a script, when every word is an opcode name or hex data. */
  lemma ScriptGivesOutput(env: Env, x: string)
    requires ParseAddress(env, x).Failure?
    requires forall i :: 0 <= i < |Words(x)| ==> WordScript(env, Words(x)[i]).Success?
    ensures ScriptOf(env, Words(x)).Success? && OutputOf(env, x) == FromHex(ScriptOf(env, Words(x)).value)
  {
    ScriptSucceedsIff(env, Words(x));
  }

  /** Text that is no address and holds a word that is neither an opcode name nor hex gives nothing. */
  lemma NoOutput(env: Env, x: string, j: nat)
    requires ParseAddress(env, x).Failure?
    requires j < |Words(x)| && WordScript(env, Words(x)[j]).Failure?
    ensures OutputOf(env, x).None?
  {
    ScriptSucceedsIff(env, Words(x));
  }

  // ---------------------------------------------------------- parse_amount

  /**
   * `parse_amount(x)`: the stripped text, empty (an exception), a spend-max
   * token, or a decimal number of coins multiplied by `10 ** decimal_point`
   * and truncated toward zero. `Decimal` raises `InvalidOperation` on text it
   * cannot read and on a signalling NaN (both "Invalid amount"); `int()` raises
   * on an infinity and on a quiet NaN.
   */
  function ParseAmount(env: Env, x: string): (r: Result<Amount, string>)
    ensures Strip(x) == [] ==> r == Failure("Amount is empty")
    ensures r.Success? && r.value.Max? ==> r.value.token == Strip(x) && env.isMaxSpend(Strip(x))
  {
    var t := Strip(x);
    if t == [] then Failure("Amount is empty")
    else if env.isMaxSpend(t) then Success(Max(t))
    else
      match ParseDecimal(t)
      case None => Failure("Invalid amount")
      case Some(Finite(d)) => Success(Sats(Truncate(Scale(d, env.decimalPoint))))
      case Some(Infinity(_)) => Failure("OverflowError")
      case Some(NaN(signaling)) => Failure(if signaling then "Invalid amount" else "ValueError")
  }

  /** A number of coins is read as that many units of `10 ** -decimal_point`, truncated. */
  lemma AmountOfNumber(env: Env, x: string, d: Dec)
    requires Strip(x) != [] && !env.isMaxSpend(Strip(x)) && ParseDecimal(x) == Some(Finite(d))
    ensures ParseAmount(env, x) == Success(Sats(Truncate(Scale(d, env.decimalPoint))))
  {
    StripIdempotent(x);
  }

  /** With eight decimals, the plain rendering of `n` satoshis reads back as `n`. */
  lemma PlainAmountParses(env: Env, n: int)
    requires env.decimalPoint == 8 && !env.isMaxSpend(FormatSatoshisPlain(n))
    ensures ParseAmount(env, FormatSatoshisPlain(n)) == Success(Sats(n))
  {
    var body, d := PlainUnsignedParses(Abs(n));
    var s := FormatSatoshisPlain(n);
    assert s == (if n < 0 then "-" else "") + body;
    StripStripped(s);
    FormatSatoshisPlainParsesBack(n);
    var v := ParseDecimal(s).value.d;
    IntegerTruncates(Scale(v, 8), n, 0);
    AmountOfNumber(env, s, v);
  }

  // ----------------------------------------------- parse_address_and_amount

  const TwoValuesExpected := "expected two comma-separated values: (address, amount)"
  const InvalidDestination := "Invalid address or script."

  /**
   * `parse_address_and_amount(line)` as written: exactly one comma, then an
   * output whose script may be missing, since `parse_output` returns nothing
   * instead of raising.
   */
  function LineAsWritten(env: Env, line: string): Result<TxOutput, string> {
    var parts := Split(line, ',');
    if |parts| != 2 then Failure(TwoValuesExpected)
    else
      var script := OutputOf(env, parts[0]);
      var amount :- ParseAmount(env, parts[1]);
      Success(TxOutput(script, amount))
  }

  /**
   * `parse_address_and_amount(line)` as intended: a destination that is
   * neither an address nor a script is refused, as the exception left
   * commented out in `parse_output` says.
   */
  function LineOf(env: Env, line: string): Result<TxOutput, string> {
    var parts := Split(line, ',');
    if |parts| != 2 then Failure(TwoValuesExpected)
    else
      var script := OutputOf(env, parts[0]);
      if script.None? then Failure(InvalidDestination)
      else
        var amount :- ParseAmount(env, parts[1]);
        Success(TxOutput(script, amount))
  }

  method ParseAddressAndAmount(env: Env, line: string) returns (r: Result<TxOutput, string>)
    ensures r == LineOf(env, line)
  {
    var parts := Split(line, ',');
    if |parts| != 2 {
      return Failure(TwoValuesExpected);
    }
    var script := ParseOutput(env, parts[0]);
    if script.None? {
      return Failure(InvalidDestination);
    }
    var amount := ParseAmount(env, parts[1]);
    if amount.Failure? {
      return Failure(amount.error);
    }
    r := Success(TxOutput(script, amount.value));
  }

  /** A line is accepted only with exactly one comma, a destination with a script, and an amount. */
  lemma LineAccepted(env: Env, line: string, o: TxOutput)
    requires LineOf(env, line) == Success(o)
    ensures multiset(line)[','] == 1
    ensures o.script.Some? && o.script == OutputOf(env, Split(line, ',')[0])
    ensures ParseAmount(env, Split(line, ',')[1]) == Success(o.value)
  {
    SplitCount(line, ',');
    LineParts(env, line, o);
  }

  lemma LineParts(env: Env, line: string, o: TxOutput)
    requires LineOf(env, line) == Success(o)
    ensures |Split(line, ',')| == 2
    ensures o.script.Some? && o.script == OutputOf(env, Split(line, ',')[0])
    ensures ParseAmount(env, Split(line, ',')[1]) == Success(o.value)
  {
    var parts := Split(line, ',');
    var script := OutputOf(env, parts[0]);
    var amount := ParseAmount(env, parts[1]);
    assert |parts| == 2;
    assert script.Some?;
    assert amount.Success?;
  }

  /** The intended parser accepts a line exactly when the written one does with a script. */
  lemma LineRefinesAsWritten(env: Env, line: string)
    ensures LineOf(env, line).Success? <==> LineAsWritten(env, line).Success? && LineAsWritten(env, line).value.script.Some?
    ensures LineOf(env, line).Success? ==> LineOf(env, line) == LineAsWritten(env, line)
  {
  }

  /** `address,amount` with a destination that has a script and an amount that reads. */
  lemma LineOfParts(env: Env, x: string, y: string, b: Bytes, amount: Amount)
    requires ',' !in x && ',' !in y && OutputOf(env, x) == Some(b) && ParseAmount(env, y) == Success(amount)
    ensures LineOf(env, x + [','] + y) == Success(TxOutput(Some(b), amount))
  {
    CommaParts(x, y);
  }

  /** The two halves of `x,y` when neither holds a comma. */
  lemma CommaParts(x: string, y: string)
    requires ',' !in x && ',' !in y
    ensures Split(x + [','] + y, ',') == [x, y]
  {
    SplitJoin([x, y], ',');
    assert Join([x, y], ',') == x + [','] + Join([y], ',');
  }

  lemma GarbageNotAddress(env: Env)
    requires !env.isAddress("garbage")
    ensures ParseAddress(env, "garbage").Failure?
  {
    var x := "garbage";
    assert Strip(x) == x by { StripStripped(x); }
    NoAngleNoAlias(x);
  }

  lemma GarbageIsOneWord()
    ensures Words("garbage") == ["garbage"]
  {
    WordsOfWord("garbage");
  }

  lemma GarbageIsNoScript(env: Env)
    ensures ScriptOf(env, Words("garbage")).Failure?
  {
    var x := "garbage";
    GarbageIsOneWord();
    assert WordScript(env, x).Failure? by {
      assert FromHex(x).None?;
    }
    ScriptFirstFailure(env, [x], 0);
  }

  lemma GarbageHasNoOutput(env: Env)
    requires !env.isAddress("garbage")
    ensures OutputOf(env, "garbage").None?
  {
    GarbageNotAddress(env);
    GarbageIsNoScript(env);
  }

  lemma OneSatoshiAmount(env: Env)
    requires !env.isMaxSpend("1")
    ensures ParseAmount(env, "1").Success?
  {
    var y := "1";
    assert Strip(y) == y by { StripStripped(y); }
    assert ParseInt(y) == Some(1) by {
      assert AllDigits(y) && DigitsValue(y) == 1;
    }
    ParseIntAgreesWithDecimal(y);
  }

  /** `garbage,1` is accepted as written, as an output with no script at all, and refused as intended. */
  lemma GarbageLineAccepted(env: Env)
    requires !env.isAddress("garbage") && !env.isMaxSpend("1")
    ensures LineAsWritten(env, "garbage,1").Success?
    ensures LineAsWritten(env, "garbage,1").value.script.None?
    ensures LineOf(env, "garbage,1") == Failure(InvalidDestination)
  {
    var x, y := "garbage", "1";
    CommaParts(x, y);
    assert x + [','] + y == "garbage,1";
    GarbageHasNoOutput(env);
    OneSatoshiAmount(env);
  }

  // ------------------------------------------------------ multiline batches

  /** `PayToLineError(idx=i, line_content=line.strip(), exc=e, is_multiline=True)`. */
  datatype LineError = LineError(lineContent: string, exc: string, idx: nat)

  /** The parts of `parts` that are not empty, in order. */
  function DropEmpty(parts: seq<string>): (r: seq<string>)
    ensures |r| <= |parts|
    ensures forall i :: 0 <= i < |r| ==> r[i] != [] && r[i] in parts
  {
    if parts == [] then []
    else
      var rest := DropEmpty(parts[1..]);
      if parts[0] == [] then rest else [parts[0]] + rest
  }

  /** `[l for l in text.split('\n') if l]`. */
  function NonEmptyLines(text: string): (lines: seq<string>)
    ensures forall i :: 0 <= i < |lines| ==> lines[i] != [] && '\n' !in lines[i]
  {
    DropEmpty(Split(text, '\n'))
  }

  /** Dropping the empty parts works part by part: one part is kept exactly when it is not empty. */
  lemma DropEmptyOne(p: string)
    ensures DropEmpty([p]) == (if p == [] then [] else [p])
  {
    assert [p][1..] == [];
  }

  /** Dropping the empty parts of a concatenation drops them from each side, keeping the order. */
  lemma {:induction false} DropEmptyAppend(a: seq<string>, b: seq<string>)
    ensures DropEmpty(a + b) == DropEmpty(a) + DropEmpty(b)
  {
    if a == [] {
      assert a + b == b;
    } else {
      assert (a + b)[0] == a[0];
      assert (a + b)[1..] == a[1..] + b;
      DropEmptyAppend(a[1..], b);
      ConsAppend(a[0], DropEmpty(a[1..]), DropEmpty(b));
    }
  }

  /** The non-empty lines of a text written line by line are exactly its non-empty lines, in order. */
  lemma LinesOfJoin(lines: seq<string>)
    requires |lines| >= 1 && forall i :: 0 <= i < |lines| ==> '\n' !in lines[i]
    ensures NonEmptyLines(Join(lines, '\n')) == DropEmpty(lines)
  {
    SplitJoin(lines, '\n');
  }

  /** Text of one line is one line. */
  lemma OneLine(text: string)
    requires text != [] && '\n' !in text
    ensures NonEmptyLines(text) == [text]
  {
  }

  /** The line parser the batch applies to each line. */
  function LineParser(env: Env): string -> Result<TxOutput, string> {
    line => LineOf(env, line)
  }

  /**
   * What the batch loop collects from `lines` with the line parser `parse`:
   * the outputs, and an error for each line that failed.
   */
  function Batch(parse: string -> Result<TxOutput, string>, lines: seq<string>): (seq<TxOutput>, seq<LineError>) {
    if lines == [] then ([], [])
    else
      var prev := Batch(parse, lines[..|lines| - 1]);
      var i := |lines| - 1;
      match parse(lines[i])
      case Success(o) => (prev.0 + [o], prev.1)
      case Failure(e) => (prev.0, prev.1 + [LineError(Strip(lines[i]), e, i)])
  }

  /** One more line adds its output or its error to what came before. */
  lemma BatchStep(parse: string -> Result<TxOutput, string>, lines: seq<string>, i: nat, r: Result<TxOutput, string>)
    requires i < |lines| && r == parse(lines[i])
    ensures r.Success? ==> Batch(parse, lines[..i + 1]) == (Batch(parse, lines[..i]).0 + [r.value], Batch(parse, lines[..i]).1)
    ensures r.Failure? ==> Batch(parse, lines[..i + 1]) == (Batch(parse, lines[..i]).0, Batch(parse, lines[..i]).1 + [LineError(Strip(lines[i]), r.error, i)])
  {
    assert lines[..i + 1][..i] == lines[..i] && lines[..i + 1][i] == lines[i];
  }

  /** The loop of `_parse_as_multiline` over the non-empty lines. */
  method CollectLines(env: Env, lines: seq<string>) returns (outputs: seq<TxOutput>, errors: seq<LineError>)
    ensures (outputs, errors) == Batch(LineParser(env), lines)
  {
    outputs, errors := [], [];
    var i := 0;
    while i < |lines|
      invariant 0 <= i <= |lines|
      invariant (outputs, errors) == Batch(LineParser(env), lines[..i])
    {
      var output := ParseAddressAndAmount(env, lines[i]);
      BatchStep(LineParser(env), lines, i, output);
      if output.Failure? {
        errors := errors + [LineError(Strip(lines[i]), output.error, i)];
      } else {
        outputs := outputs + [output.value];
      }
      i := i + 1;
    }
    assert lines[..i] == lines;
  }

  /** Every line yields either an output or an error. */
  lemma {:induction false} BatchCounts(parse: string -> Result<TxOutput, string>, lines: seq<string>)
    ensures |Batch(parse, lines).0| + |Batch(parse, lines).1| == |lines|
  {
    if lines != [] {
      BatchCounts(parse, lines[..|lines| - 1]);
    }
  }

  /** Each error names a line that failed, with its stripped text and its exception. */
  lemma {:induction false} BatchErrorSound(parse: string -> Result<TxOutput, string>, lines: seq<string>, j: nat)
    requires j < |Batch(parse, lines).1|
    ensures var e := Batch(parse, lines).1[j];
      e.idx < |lines| && parse(lines[e.idx]) == Failure(e.exc) && e.lineContent == Strip(lines[e.idx])
  {
    var init := lines[..|lines| - 1];
    if j < |Batch(parse, init).1| {
      BatchErrorSound(parse, init, j);
      assert init[Batch(parse, init).1[j].idx] == lines[Batch(parse, init).1[j].idx];
    }
  }

  /** The errors are in line order. */
  lemma {:induction false} BatchErrorsOrdered(parse: string -> Result<TxOutput, string>, lines: seq<string>, j: nat, k: nat)
    requires j < k < |Batch(parse, lines).1|
    ensures Batch(parse, lines).1[j].idx < Batch(parse, lines).1[k].idx
  {
    var init := lines[..|lines| - 1];
    if k < |Batch(parse, init).1| {
      BatchErrorsOrdered(parse, init, j, k);
    } else {
      BatchErrorSound(parse, init, j);
    }
  }

  /** Every line that fails has its error. */
  lemma {:induction false} FailedLineReported(parse: string -> Result<TxOutput, string>, lines: seq<string>, i: nat) returns (j: nat)
    requires i < |lines| && parse(lines[i]).Failure?
    ensures j < |Batch(parse, lines).1| && Batch(parse, lines).1[j].idx == i
  {
    var init := lines[..|lines| - 1];
    if i < |init| {
      assert init[i] == lines[i];
      j := FailedLineReported(parse, init, i);
    } else {
      j := |Batch(parse, init).1|;
    }
  }

  /** Each output is what some line parsed to. */
  lemma {:induction false} BatchOutputSound(parse: string -> Result<TxOutput, string>, lines: seq<string>, j: nat) returns (i: nat)
    requires j < |Batch(parse, lines).0|
    ensures i < |lines| && parse(lines[i]) == Success(Batch(parse, lines).0[j])
  {
    var init := lines[..|lines| - 1];
    if j < |Batch(parse, init).0| {
      i := BatchOutputSound(parse, init, j);
      assert init[i] == lines[i];
    } else {
      i := |lines| - 1;
    }
  }

  /** Every line that parses contributes its output. */
  lemma {:induction false} ParsedLineKept(parse: string -> Result<TxOutput, string>, lines: seq<string>, i: nat) returns (j: nat)
    requires i < |lines| && parse(lines[i]).Success?
    ensures j < |Batch(parse, lines).0| && Batch(parse, lines).0[j] == parse(lines[i]).value
  {
    var init := lines[..|lines| - 1];
    if i < |init| {
      assert init[i] == lines[i];
      j := ParsedLineKept(parse, init, i);
    } else {
      j := |Batch(parse, init).0|;
    }
  }

  // ------------------------------------------------------------- OpenAlias

  /** `\w` on ASCII text. */
  predicate IsWordChar(c: char) { IsAlnum(c) || c == '_' }
  predicate IsLocalChar(c: char) { IsAlnum(c) || c == '.' || c == '_' || c == '%' || c == '+' || c == '-' }
  predicate IsDomainChar(c: char) { IsAlnum(c) || c == '.' || c == '-' }
  /** `[A-Z|a-z]`: the bar is one of the characters of the class. */
  predicate IsTldChar(c: char) { IsAlpha(c) || c == '|' }

  /** `\b` at position `end > 0`: a word character on exactly one side. */
  predicate Boundary(s: string, end: nat)
    requires 0 < end <= |s|
  {
    IsWordChar(s[end - 1]) != (end < |s| && IsWordChar(s[end]))
  }

  /**
   * One way for `\b[A-Za-z0-9._%+-]+@[A-Za-z0-9.-]+\.[A-Z|a-z]{2,7}\b` to
   * match at the start of `s`: the `@` at `at`, the last dot at `dot`, the
   * match ending at `end`.
   */
  predicate EmailAt(s: string, at: nat, dot: nat, end: nat) {
    0 < at && at + 1 < dot && dot + 3 <= end <= dot + 8 && end <= |s| &&
    IsWordChar(s[0]) &&
    (forall i | 0 <= i < at :: IsLocalChar(s[i])) &&
    s[at] == '@' &&
    (forall i | at < i < dot :: IsDomainChar(s[i])) &&
    s[dot] == '.' &&
    (forall i | dot < i < end :: IsTldChar(s[i])) &&
    Boundary(s, end)
  }

  /** `re.match(RE_EMAIL, s)`: the pattern matches some prefix of `s`. */
  predicate EmailMatch(s: string) {
    exists at: nat, dot: nat, end: nat | at < |s| && dot < |s| && end <= |s| :: EmailAt(s, at, dot, end)
  }

  /** An e-mail-like text starts with a word character and holds an `@` followed later by a dot. */
  lemma EmailShape(s: string)
    requires EmailMatch(s)
    ensures s != [] && IsWordChar(s[0])
    ensures exists at, dot :: 0 < at < dot < |s| && s[at] == '@' && s[dot] == '.'
  {
    var at: nat, dot: nat, end: nat :| at < |s| && dot < |s| && end <= |s| && EmailAt(s, at, dot, end);
    assert 0 < at < dot < |s| && s[at] == '@' && s[dot] == '.';
  }

  /**
   * Every text of the form `local@domain.tld`, with a word character first,
   * a non-empty domain and a TLD of two to seven letters, followed by the end
   * of the text or by a character that is not a word character, matches.
   */
  lemma EmailFormMatches(s: string, local: string, domain: string, tld: string, rest: string)
    requires s == local + "@" + domain + "." + tld + rest
    requires local != [] && IsWordChar(local[0]) && forall i :: 0 <= i < |local| ==> IsLocalChar(local[i])
    requires domain != [] && forall i :: 0 <= i < |domain| ==> IsDomainChar(domain[i])
    requires 2 <= |tld| <= 7 && forall i :: 0 <= i < |tld| ==> IsAlpha(tld[i])
    requires rest == [] || !IsWordChar(rest[0])
    ensures EmailMatch(s)
  {
    var at := |local|;
    var dot := at + 1 + |domain|;
    var end := dot + 1 + |tld|;
    assert forall i | 0 <= i < at :: s[i] == local[i];
    assert forall i | at < i < dot :: s[i] == domain[i - at - 1];
    assert forall i | dot < i < end :: s[i] == tld[i - dot - 1];
    assert s[at] == '@' && s[dot] == '.' && s[end - 1] == tld[|tld| - 1];
    assert end < |s| ==> s[end] == rest[0];
    assert EmailAt(s, at, dot, end);
  }

  lemma AliceMatches()
    ensures EmailMatch("alice@example.com")
  {
    var s := "alice@example.com";
    assert EmailAt(s, 5, 13, 17);
  }

  /** Only a prefix has to match: text may follow a word boundary. */
  lemma TrailingTextMatches()
    ensures EmailMatch("bob@site.org extra")
  {
    var s := "bob@site.org extra";
    assert EmailAt(s, 3, 8, 12);
  }
}
