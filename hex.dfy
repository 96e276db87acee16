/**
 * The last step of password hashing: each byte of the SHA-256 digest is
 * written with `toString(16)` (lower-case base 16, no leading zeros),
 * padded on the left with '0' to two characters, and the pieces are joined.
 * The digest itself is not part of this module.
 */
module Hex {
  import opened Wrappers

  newtype byte = x: int | 0 <= x < 256

  /** A lower-case base-16 digit. */
  predicate IsHexDigit(c: char) {
    ('0' <= c <= '9') || ('a' <= c <= 'f')
  }

  /** The lower-case digit for a value below 16. */
  function Digit(n: nat): (c: char)
    requires n < 16
    ensures IsHexDigit(c)
  {
    if n < 10 then ('0' as int + n) as char else ('a' as int + n - 10) as char
  }

  /** The value of a lower-case base-16 digit, None for any other character. */
  function DigitValue(c: char): (r: Option<nat>)
    ensures r.Some? <==> IsHexDigit(c)
    ensures r.Some? ==> r.value < 16 && Digit(r.value) == c
  {
    if '0' <= c <= '9' then Some(c as int - '0' as int)
    else if 'a' <= c <= 'f' then Some(c as int - 'a' as int + 10)
    else None
  }

  /** `n.toString(16)` for a non-negative integer: base-16 digits, most significant first, no leading zeros. */
  function ToBase16(n: nat): (r: string)
    ensures |r| >= 1 && (r[0] == '0' ==> n == 0)
    ensures forall i :: 0 <= i < |r| ==> IsHexDigit(r[i])
    ensures n < 16 <==> |r| == 1
    ensures 16 <= n < 256 ==> |r| == 2
    decreases n
  {
    if n < 16 then [Digit(n)] else ToBase16(n / 16) + [Digit(n % 16)]
  }

  /** The number a string of lower-case base-16 digits denotes, most significant digit first. */
  function Base16Value(s: string): nat
    requires forall i :: 0 <= i < |s| ==> IsHexDigit(s[i])
  {
    if |s| == 0 then 0
    else 16 * Base16Value(s[..|s| - 1]) + DigitValue(s[|s| - 1]).value
  }

  /** `toString(16)` writes exactly the number: reading its digits back gives `n`. */
  lemma {:induction false} ToBase16Value(n: nat)
    ensures Base16Value(ToBase16(n)) == n
    decreases n
  {
    var r := ToBase16(n);
    DigitValueOfDigit(n % 16);
    if n < 16 {
      assert r[..0] == [];
    } else {
      ToBase16Value(n / 16);
      assert r[..|r| - 1] == ToBase16(n / 16);
    }
  }

  /** `s.padStart(width, fill)`: `fill` repeated on the left until `s` is `width` long. */
  function PadStart(s: string, width: nat, fill: char): (r: string)
    ensures |r| == if |s| < width then width else |s|
    ensures r[|r| - |s|..] == s
    ensures forall i :: 0 <= i < |r| - |s| ==> r[i] == fill
  {
    if |s| < width then seq(width - |s|, _ => fill) + s else s
  }

  /** One byte as written by the source: always two lower-case digits, high nibble first. */
  function ByteHex(b: byte): (r: string)
    ensures r == [Digit(b as int / 16), Digit(b as int % 16)]
  {
    var n := b as int;
    if n < 16 then
      assert ToBase16(n) == [Digit(n)];
      PadStart(ToBase16(n), 2, '0')
    else
      assert ToBase16(n / 16) == [Digit(n / 16)];
      PadStart(ToBase16(n), 2, '0')
  }

  /** The hex string `hashPass` returns for a digest: the bytes' two-digit forms joined. */
  function HashHex(digest: seq<byte>): (r: string)
    ensures |r| == 2 * |digest|
    ensures forall i :: 0 <= i < |r| ==> IsHexDigit(r[i])
  {
    if |digest| == 0 then [] else ByteHex(digest[0]) + HashHex(digest[1..])
  }

  /** Reads a hex string back into bytes; None if its length is odd or a character is not a lower-case digit. */
  function Unhex(s: string): (r: Option<seq<byte>>)
    ensures r.Some? ==> 2 * |r.value| == |s|
    decreases |s|
  {
    if |s| == 0 then Some([])
    else if |s| == 1 then None
    else
      match (DigitValue(s[0]), DigitValue(s[1]), Unhex(s[2..]))
      case (Some(hi), Some(lo), Some(rest)) => Some([(16 * hi + lo) as byte] + rest)
      case _ => None
  }

  /** A digit reads back as its own value. */
  lemma DigitValueOfDigit(n: nat)
    requires n < 16
    ensures DigitValue(Digit(n)) == Some(n)
  {
  }

  /** Decoding the two digits of one byte gives the byte back. */
  lemma UnhexByte(b: byte, rest: string, tail: seq<byte>)
    requires Unhex(rest) == Some(tail)
    ensures Unhex(ByteHex(b) + rest) == Some([b] + tail)
  {
    var n := b as int;
    var s := ByteHex(b) + rest;
    DigitValueOfDigit(n / 16);
    DigitValueOfDigit(n % 16);
    assert s[0] == Digit(n / 16) && s[1] == Digit(n % 16);
    assert s[2..] == rest;
    assert (16 * (n / 16) + n % 16) as byte == b;
  }

  /** Decoding the hex form of a digest gives the digest back. */
  lemma {:induction false} UnhexHashHex(digest: seq<byte>)
    ensures Unhex(HashHex(digest)) == Some(digest)
  {
    if |digest| > 0 {
      assert HashHex(digest) == ByteHex(digest[0]) + HashHex(digest[1..]);
      UnhexHashHex(digest[1..]);
      UnhexByte(digest[0], HashHex(digest[1..]), digest[1..]);
      assert digest == [digest[0]] + digest[1..];
    }
  }

  /** Different digests never give the same hex string, so comparing hex strings compares digests. */
  lemma HashHexInjective(a: seq<byte>, b: seq<byte>)
    requires HashHex(a) == HashHex(b)
    ensures a == b
  {
    UnhexHashHex(a);
    UnhexHashHex(b);
  }
}
