/**
 * Hex text as the kitsunet client writes it: Node's `Buffer.toString('hex')`
 * (two lower-case digits per byte, high nibble first) and ethereumjs-util's
 * `addHexPrefix`. `ParseHex` is the reference inverse used to state what the
 * written text means; the client itself never parses.
 */
module Hex {
  import opened Wrappers

  /** One octet of a Node.js Buffer. */
  type Byte = b: int | 0 <= b < 256

  predicate IsHexDigit(c: char) {
    '0' <= c <= '9' || 'a' <= c <= 'f'
  }

  /** The lower-case digit for a nibble. */
  function HexDigit(d: int): (c: char)
    requires 0 <= d < 16
    ensures IsHexDigit(c)
  {
    if d < 10 then ('0' as int + d) as char else ('a' as int + (d - 10)) as char
  }

  /** The nibble a lower-case digit stands for; None for any other character. */
  function DigitValue(c: char): (r: Option<int>)
    ensures r.Some? <==> IsHexDigit(c)
    ensures r.Some? ==> 0 <= r.value < 16 && HexDigit(r.value) == c
  {
    if '0' <= c <= '9' then Some(c as int - '0' as int)
    else if 'a' <= c <= 'f' then Some(c as int - 'a' as int + 10)
    else None
  }

  lemma DigitOfHexDigit(d: int)
    requires 0 <= d < 16
    ensures DigitValue(HexDigit(d)) == Some(d)
  {
  }

  /** `Buffer.toString('hex')`: every byte becomes two digits, most significant nibble first. */
  function HexOf(bytes: seq<Byte>): (s: string)
    ensures |s| == 2 * |bytes|
    ensures forall i :: 0 <= i < |s| ==> IsHexDigit(s[i])
  {
    if bytes == [] then ""
    else [HexDigit(bytes[0] / 16), HexDigit(bytes[0] % 16)] + HexOf(bytes[1..])
  }

  /** Reads back an even-length run of lower-case digits; None for anything else. */
  function ParseHex(s: string): (r: Option<seq<Byte>>)
    ensures r.Some? ==> 2 * |r.value| == |s|
    decreases |s|
  {
    if s == [] then Some([])
    else if |s| == 1 then None
    else
      match (DigitValue(s[0]), DigitValue(s[1]), ParseHex(s[2..]))
      case (Some(high), Some(low), Some(rest)) => Some([high * 16 + low] + rest)
      case _ => None
  }

  /** The digits `HexOf` writes read back as the very bytes they came from. */
  lemma {:induction false} ParseHexOfHex(bytes: seq<Byte>)
    ensures ParseHex(HexOf(bytes)) == Some(bytes)
  {
    if bytes != [] {
      var b := bytes[0];
      var s := HexOf(bytes);
      assert s[2..] == HexOf(bytes[1..]);
      DigitOfHexDigit(b / 16);
      DigitOfHexDigit(b % 16);
      ParseHexOfHex(bytes[1..]);
      assert [b / 16 * 16 + b % 16] + bytes[1..] == bytes;
    }
  }

  /** Conversely, whatever `ParseHex` accepts is exactly the hex text of its result. */
  lemma {:induction false} HexOfParseHex(s: string, bytes: seq<Byte>)
    requires ParseHex(s) == Some(bytes)
    ensures HexOf(bytes) == s
    decreases |s|
  {
    if s != [] {
      var high := DigitValue(s[0]).value;
      var low := DigitValue(s[1]).value;
      var rest := ParseHex(s[2..]).value;
      assert bytes == [high * 16 + low] + rest;
      assert (high * 16 + low) / 16 == high;
      assert (high * 16 + low) % 16 == low;
      HexOfParseHex(s[2..], rest);
      assert bytes[1..] == rest;
      assert s == [s[0], s[1]] + s[2..];
    }
  }

  /** Distinct byte strings never share hex text. */
  lemma HexOfInjective(a: seq<Byte>, b: seq<Byte>)
    ensures HexOf(a) == HexOf(b) <==> a == b
  {
    ParseHexOfHex(a);
    ParseHexOfHex(b);
  }

  /** ethjs-util's `isHexPrefixed`: the first two characters are "0x". */
  predicate HasHexPrefix(s: string)
    ensures HasHexPrefix(s) <==> |s| >= 2 && s[..2] == "0x"
  {
    |s| >= 2 && s[0] == '0' && s[1] == 'x'
  }

  /** ethereumjs-util's `addHexPrefix`: prepends "0x" unless it is already there. */
  function AddHexPrefix(s: string): (r: string)
    ensures HasHexPrefix(r)
    ensures HasHexPrefix(s) ==> r == s
    ensures !HasHexPrefix(s) ==> |r| == |s| + 2 && r[2..] == s
  {
    if HasHexPrefix(s) then s else "0x" + s
  }

  lemma AddHexPrefixIdempotent(s: string)
    ensures AddHexPrefix(AddHexPrefix(s)) == AddHexPrefix(s)
  {
  }

  /** Reads a "0x"-prefixed run of digits; None when the prefix or the digits are wrong. */
  function ParsePrefixedHex(s: string): (r: Option<seq<Byte>>)
  {
    if HasHexPrefix(s) then ParseHex(s[2..]) else None
  }

  /** Hex text never starts with "0x", so `addHexPrefix` always prepends, and the result reads back. */
  lemma PrefixedHexRoundTrip(bytes: seq<Byte>)
    ensures AddHexPrefix(HexOf(bytes)) == "0x" + HexOf(bytes)
    ensures ParsePrefixedHex(AddHexPrefix(HexOf(bytes))) == Some(bytes)
  {
    var digits := HexOf(bytes);
    assert |digits| >= 2 ==> IsHexDigit(digits[1]);
    assert ("0x" + digits)[2..] == digits;
    ParseHexOfHex(bytes);
  }
}
