/** Bytes and their hexadecimal text: Python's `bytes.hex()` and `bytes.fromhex()`. */
module Hex {
  import opened Wrappers

  newtype byte = x: int | 0 <= x < 256
  type Bytes = seq<byte>

  predicate IsHexDigit(c: char) {
    '0' <= c <= '9' || 'a' <= c <= 'f' || 'A' <= c <= 'F'
  }

  function HexVal(c: char): (v: nat)
    requires IsHexDigit(c)
    ensures v < 16
  {
    if '0' <= c <= '9' then c as int - '0' as int
    else if 'a' <= c <= 'f' then c as int - 'a' as int + 10
    else c as int - 'A' as int + 10
  }

  /** The lower-case digit that `bytes.hex()` writes for a nibble. */
  function HexChar(v: nat): (c: char)
    requires v < 16
    ensures IsHexDigit(c) && HexVal(c) == v && !('A' <= c <= 'Z')
  {
    if v < 10 then ('0' as int + v) as char else ('a' as int + v - 10) as char
  }

  /** `b.hex()`: two lower-case hexadecimal digits per byte. */
  function ToHex(b: Bytes): (s: string)
    ensures |s| == 2 * |b|
    ensures forall i :: 0 <= i < |s| ==> IsHexDigit(s[i])
  {
    if b == [] then "" else [HexChar(b[0] as int / 16), HexChar(b[0] as int % 16)] + ToHex(b[1..])
  }

  /** The ASCII whitespace that `bytes.fromhex` skips. */
  predicate IsAsciiSpace(c: char) {
    c == ' ' || '\t' <= c <= '\r'
  }

  /**
   * `bytes.fromhex(s)`: pairs of hexadecimal digits, either case, with ASCII
   * whitespace allowed before any pair. `None` is the `ValueError` it raises.
   */
  function FromHex(s: string): Option<Bytes>
    decreases |s|
  {
    if s == [] then Some([])
    else if IsAsciiSpace(s[0]) then FromHex(s[1..])
    else if |s| >= 2 && IsHexDigit(s[0]) && IsHexDigit(s[1]) then
      match FromHex(s[2..])
      case None => None
      case Some(rest) => Some([(HexVal(s[0]) * 16 + HexVal(s[1])) as byte] + rest)
    else None
  }

  /** `bytes.fromhex(b.hex()) == b`. */
  lemma {:induction false} FromHexToHex(b: Bytes)
    ensures FromHex(ToHex(b)) == Some(b)
  {
    if b != [] {
      var s := ToHex(b);
      var hi := b[0] as int / 16;
      var lo := b[0] as int % 16;
      assert s[0] == HexChar(hi) && s[1] == HexChar(lo) && s[2..] == ToHex(b[1..]);
      FromHexToHex(b[1..]);
      assert (hi * 16 + lo) as byte == b[0];
      assert [b[0]] + b[1..] == b;
    }
  }

  /** Text that `bytes.fromhex` accepts has no character outside hex digits and whitespace. */
  lemma {:induction false} FromHexAlphabet(s: string, i: nat)
    requires FromHex(s).Some? && i < |s|
    ensures IsHexDigit(s[i]) || IsAsciiSpace(s[i])
    decreases |s|
  {
    if IsAsciiSpace(s[0]) {
      if i > 0 { FromHexAlphabet(s[1..], i - 1); }
    } else if i >= 2 {
      FromHexAlphabet(s[2..], i - 2);
    }
  }
}
