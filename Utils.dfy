/**
 * Shared byte-level vocabulary and the lowercase hex encoder used to print
 * push immediates and selectors (`bytes_to_hex`).  A decoder is given
 * alongside as the encoder's inverse.
 */
module Utils {

  /** An unsigned 8-bit value (Rust `u8`). */
  type uint8 = x: int | 0 <= x < 256

  datatype Option<T> = None | Some(value: T)

  predicate IsLowerHexChar(c: char) {
    '0' <= c <= '9' || 'a' <= c <= 'f'
  }

  /** The value of one hex digit, either case; None for any other character. */
  function DigitValue(c: char): (r: Option<nat>)
    ensures r.Some? ==> r.value < 16
  {
    if '0' <= c <= '9' then Some(c as int - '0' as int)
    else if 'a' <= c <= 'f' then Some(c as int - 'a' as int + 10)
    else if 'A' <= c <= 'F' then Some(c as int - 'A' as int + 10)
    else None
  }

  /** The lowercase hex digit of a value below 16. */
  function HexDigit(d: nat): (c: char)
    requires d < 16
    ensures IsLowerHexChar(c)
    ensures DigitValue(c) == Some(d)
  {
    if d < 10 then (48 + d) as char else (87 + d) as char
  }

  /** A lowercase hex digit is the digit of its own value. */
  lemma HexDigitOfDigitValue(c: char)
    requires IsLowerHexChar(c)
    ensures DigitValue(c).Some? && HexDigit(DigitValue(c).value) == c
  {
  }

  /** Two zero-padded lowercase digits per byte, most significant first (`bytes_to_hex`). */
  function BytesToHex(bytes: seq<uint8>): (s: string)
    ensures |s| == 2 * |bytes|
    ensures forall i :: 0 <= i < |s| ==> IsLowerHexChar(s[i])
  {
    if bytes == [] then ""
    else [HexDigit(bytes[0] / 16), HexDigit(bytes[0] % 16)] + BytesToHex(bytes[1..])
  }

  /** Reads pairs of hex digits back into bytes; None on an odd length or a non-digit. */
  function HexToBytes(s: string): (r: Option<seq<uint8>>)
    ensures r.Some? ==> |s| == 2 * |r.value|
  {
    if s == [] then Some([])
    else if |s| == 1 then None
    else
      match (DigitValue(s[0]), DigitValue(s[1]), HexToBytes(s[2..]))
      case (Some(hi), Some(lo), Some(rest)) => Some([hi * 16 + lo] + rest)
      case _ => None
  }

  /** Byte `i` occupies characters 2i and 2i+1: the digit of its high nibble, then of its low one. */
  lemma {:induction false} BytesToHexDigits(bytes: seq<uint8>)
    ensures forall i :: 0 <= i < |bytes| ==>
      BytesToHex(bytes)[2 * i] == HexDigit(bytes[i] / 16)
      && BytesToHex(bytes)[2 * i + 1] == HexDigit(bytes[i] % 16)
  {
    if bytes != [] {
      BytesToHexDigits(bytes[1..]);
      forall i | 1 <= i < |bytes|
        ensures BytesToHex(bytes)[2 * i] == HexDigit(bytes[i] / 16)
        ensures BytesToHex(bytes)[2 * i + 1] == HexDigit(bytes[i] % 16)
      {
        assert bytes[1..][i - 1] == bytes[i];
      }
    }
  }

  /** The encoding distributes over concatenation. */
  lemma {:induction false} BytesToHexConcat(a: seq<uint8>, b: seq<uint8>)
    ensures BytesToHex(a + b) == BytesToHex(a) + BytesToHex(b)
  {
    if a != [] {
      assert (a + b)[1..] == a[1..] + b;
      BytesToHexConcat(a[1..], b);
    } else {
      assert a + b == b;
    }
  }

  /** Decoding undoes the encoding. */
  lemma {:induction false} HexToBytesOfBytesToHex(bytes: seq<uint8>)
    ensures HexToBytes(BytesToHex(bytes)) == Some(bytes)
  {
    if bytes != [] {
      var s := BytesToHex(bytes);
      assert s[2..] == BytesToHex(bytes[1..]);
      HexToBytesOfBytesToHex(bytes[1..]);
      assert [bytes[0] / 16 * 16 + bytes[0] % 16] + bytes[1..] == bytes;
    }
  }

  /** Every even-length lowercase hex string is the encoding of the bytes it decodes to. */
  lemma {:induction false} BytesToHexOfHexToBytes(s: string)
    requires |s| % 2 == 0
    requires forall i :: 0 <= i < |s| ==> IsLowerHexChar(s[i])
    ensures HexToBytes(s).Some?
    ensures BytesToHex(HexToBytes(s).value) == s
  {
    if s != [] {
      BytesToHexOfHexToBytes(s[2..]);
      HexDigitOfDigitValue(s[0]);
      HexDigitOfDigitValue(s[1]);
      var hi := DigitValue(s[0]).value;
      var lo := DigitValue(s[1]).value;
      assert (hi * 16 + lo) / 16 == hi && (hi * 16 + lo) % 16 == lo;
      assert s == [s[0], s[1]] + s[2..];
    }
  }

  /** Distinct byte strings have distinct encodings. */
  lemma BytesToHexInjective(a: seq<uint8>, b: seq<uint8>)
    requires BytesToHex(a) == BytesToHex(b)
    ensures a == b
  {
    HexToBytesOfBytesToHex(a);
    HexToBytesOfBytesToHex(b);
  }
}
