/** Hexadecimal text and bytes, as viem's `toHex`/`keccak256` and Node's `Buffer.from(s, 'hex')` treat them. */
module Hex {

  type Byte = x: int | 0 <= x < 256
  type Nibble = x: int | 0 <= x < 16

  /** One character of the class `[0-9a-f]` under the `i` flag. */
  predicate IsHexChar(c: char) {
    ('0' <= c <= '9') || ('a' <= c <= 'f') || ('A' <= c <= 'F')
  }

  predicate IsHexString(s: string) {
    forall i :: 0 <= i < |s| ==> IsHexChar(s[i])
  }

  /** `/^[0-9a-f]{n}$/i.test(s)` */
  predicate IsHexOfLength(s: string, n: nat) {
    |s| == n && IsHexString(s)
  }

  predicate IsLowerHexChar(c: char) {
    ('0' <= c <= '9') || ('a' <= c <= 'f')
  }

  predicate IsLowerHexString(s: string) {
    forall i :: 0 <= i < |s| ==> IsLowerHexChar(s[i])
  }

  function HexCharValue(c: char): Nibble
    requires IsHexChar(c)
  {
    if '0' <= c <= '9' then c as int - '0' as int
    else if 'a' <= c <= 'f' then c as int - 'a' as int + 10
    else c as int - 'A' as int + 10
  }

  /** The digit `v.toString(16)` writes, i.e. `'0123456789abcdef'.charAt(v)`. */
  function HexDigit(v: Nibble): (c: char)
    ensures IsLowerHexChar(c) && IsHexChar(c) && HexCharValue(c) == v
  {
    if v < 10 then ('0' as int + v) as char else ('a' as int + v - 10) as char
  }

  /** Lower-case hex text of a byte string, two digits per byte (viem `toHex`, without its "0x"). */
  function HexEncode(bytes: seq<Byte>): (s: string)
    ensures |s| == 2 * |bytes| && IsLowerHexString(s) && IsHexString(s)
  {
    if bytes == [] then ""
    else [HexDigit(bytes[0] / 16), HexDigit(bytes[0] % 16)] + HexEncode(bytes[1..])
  }

  /**
   * `Buffer.from(s, 'hex')`: the characters are read in pairs, and decoding stops
   * (silently truncating) at the first pair that is not two hex digits and at an
   * odd trailing character.
   */
  function DecodeHex(s: string): (bytes: seq<Byte>)
    ensures 2 * |bytes| <= |s|
    decreases |s|
  {
    if |s| < 2 || !IsHexChar(s[0]) || !IsHexChar(s[1]) then []
    else [HexCharValue(s[0]) * 16 + HexCharValue(s[1])] + DecodeHex(s[2..])
  }

  /** Decoding the hex text of a byte string gives the bytes back. */
  lemma {:induction false} DecodeHexOfEncode(bytes: seq<Byte>)
    ensures DecodeHex(HexEncode(bytes)) == bytes
  {
    if bytes != [] {
      var s := HexEncode(bytes);
      assert s[2..] == HexEncode(bytes[1..]);
      DecodeHexOfEncode(bytes[1..]);
    }
  }

  /** A string made only of hex digits decodes to one byte per pair of digits. */
  lemma {:induction false} DecodeHexLength(s: string)
    requires IsHexString(s)
    ensures |DecodeHex(s)| == |s| / 2
  {
    if |s| >= 2 {
      DecodeHexLength(s[2..]);
    }
  }

  /** An even-length text with a character that is not a hex digit decodes to fewer bytes than it has pairs. */
  lemma {:induction false} DecodeHexShortOnNonHex(s: string)
    requires |s| % 2 == 0 && !IsHexString(s)
    ensures |DecodeHex(s)| < |s| / 2
  {
    if |s| >= 2 && IsHexChar(s[0]) && IsHexChar(s[1]) {
      assert !IsHexString(s[2..]) by {
        var i :| 0 <= i < |s| && !IsHexChar(s[i]);
        assert s[2..][i - 2] == s[i];
      }
      DecodeHexShortOnNonHex(s[2..]);
    }
  }

  /** Hex text of a concatenation is the concatenation of the hex texts. */
  lemma {:induction false} HexEncodeAppend(a: seq<Byte>, b: seq<Byte>)
    ensures HexEncode(a + b) == HexEncode(a) + HexEncode(b)
  {
    if a != [] {
      assert (a + b)[1..] == a[1..] + b;
      HexEncodeAppend(a[1..], b);
    } else {
      assert a + b == b;
    }
  }

  /** An even-length run of hex digits decodes independently of what follows it. */
  lemma {:induction false} DecodeHexAppend(a: string, b: string)
    requires IsHexString(a) && |a| % 2 == 0
    ensures DecodeHex(a + b) == DecodeHex(a) + DecodeHex(b)
  {
    if a != [] {
      assert (a + b)[2..] == a[2..] + b;
      DecodeHexAppend(a[2..], b);
    } else {
      assert a + b == b;
    }
  }
}
