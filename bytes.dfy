/** Conversions between bytes and the integers below 256. */
module ByteCasts {
  lemma NatByte(n: nat)
    requires n < 256
    ensures (n as bv8) as int == n
  {
    CountValue(n);
    ByteOfNat(Count(n));
  }

  /** The byte reached by adding one to zero `n` times. */
  ghost function Count(n: nat): bv8
    requires n < 256
  {
    if n == 0 then 0 else Count(n - 1) + 1
  }

  lemma {:induction false} CountValue(n: nat)
    requires n < 256
    ensures Count(n) as nat == n
  {
    if n > 0 {
      CountValue(n - 1);
      Succ(Count(n - 1));
    }
  }

  lemma Succ(x: bv8)
    requires x as nat < 255
    ensures (x + 1) as nat == x as nat + 1
  {
  }

  lemma ByteOfNat(b: bv8)
    ensures (b as nat) as bv8 == b
  {
  }
}

/** Bytes, hexadecimal encoding and big-endian integers. */
module Bytes {
  import opened Wrappers
  import opened ByteCasts
  import Text

  type byte = bv8

  type Md5Digest = s: seq<byte> | |s| == 16 witness seq(16, _ => 0)
  type Sha256Digest = s: seq<byte> | |s| == 32 witness seq(32, _ => 0)
  type Sha512Digest = s: seq<byte> | |s| == 64 witness seq(64, _ => 0)

  /** The lower-case hexadecimal digit for `d`. */
  function HexDigit(d: nat): (c: char)
    requires d < 16
  {
    if d < 10 then ('0' as int + d) as char else ('a' as int + d - 10) as char
  }

  /** The upper-case hexadecimal digit for `d`. */
  function HexDigitUpper(d: nat): (c: char)
    requires d < 16
    ensures IsUpperHexChar(c)
  {
    if d < 10 then ('0' as int + d) as char else ('A' as int + d - 10) as char
  }

  predicate IsLowerHexChar(c: char) { '0' <= c <= '9' || 'a' <= c <= 'f' }

  predicate IsUpperHexChar(c: char) { '0' <= c <= '9' || 'A' <= c <= 'F' }

  /** Value of a hexadecimal digit of either case. */
  function HexValue(c: char): (r: Option<nat>)
    ensures r.Some? ==> r.value < 16
  {
    if '0' <= c <= '9' then Some(c as int - '0' as int)
    else if 'a' <= c <= 'f' then Some(c as int - 'a' as int + 10)
    else if 'A' <= c <= 'F' then Some(c as int - 'A' as int + 10)
    else None
  }

  lemma HexValueOfDigit(d: nat)
    requires d < 16
    ensures HexValue(HexDigit(d)) == Some(d)
    ensures HexValue(HexDigitUpper(d)) == Some(d)
  {
  }

  /** Lower-case hex of a byte sequence (Python's `bytes.hex`, Rust's `hex::encode`). */
  function Hex(bs: seq<byte>): (s: string)
    ensures |s| == 2 * |bs|
    ensures forall i :: 0 <= i < |s| ==> IsLowerHexChar(s[i])
  {
    if bs == [] then ""
    else [HexDigit(bs[0] as nat / 16), HexDigit(bs[0] as nat % 16)] + Hex(bs[1..])
  }

  lemma {:induction false} LowerHex(bs: seq<byte>)
    ensures Text.Lower(Hex(bs)) == Hex(bs)
  {
    var s := Hex(bs);
    forall i | 0 <= i < |s| ensures Text.Lower(s)[i] == s[i] {
      assert IsLowerHexChar(s[i]);
    }
  }

  /** Hex decoding of pairs of digits (Python's `bytes.fromhex` on text without spaces). */
  function Unhex(s: string): (r: Option<seq<byte>>)
    ensures r.Some? ==> 2 * |r.value| == |s|
    decreases |s|
  {
    if s == [] then Some([])
    else if |s| == 1 then None
    else
      match (HexValue(s[0]), HexValue(s[1]), Unhex(s[2..]))
      case (Some(hi), Some(lo), Some(rest)) => Some([(hi * 16 + lo) as bv8] + rest)
      case _ => None
  }

  /** The two hex digits of a byte below 256 decode back to its two halves. */
  lemma DigitsCompose(n: nat)
    requires n < 256
    ensures HexValue(HexDigit(n / 16)) == Some(n / 16) && HexValue(HexDigit(n % 16)) == Some(n % 16)
    ensures n / 16 * 16 + n % 16 == n
  {
    HexValueOfDigit(n / 16);
    HexValueOfDigit(n % 16);
  }


  lemma HexCons(bs: seq<byte>)
    requires bs != []
    ensures Hex(bs)[0] == HexDigit(bs[0] as nat / 16)
    ensures Hex(bs)[1] == HexDigit(bs[0] as nat % 16)
    ensures Hex(bs)[2..] == Hex(bs[1..])
  {
  }

  lemma {:induction false} UnhexHex(bs: seq<byte>)
    ensures Unhex(Hex(bs)) == Some(bs)
  {
    if bs != [] {
      var s, t := Hex(bs), Hex(bs[1..]);
      HexCons(bs);
      DigitsCompose(bs[0] as nat);
      ByteOfNat(bs[0]);
      UnhexHex(bs[1..]);
      assert Unhex(s[2..]) == Some(bs[1..]);
      assert [bs[0]] + bs[1..] == bs;
    }
  }

  /** Big-endian value of a byte sequence (`int.from_bytes(b, 'big')`). */
  function BigEndian(bs: seq<byte>): (n: nat)
    decreases |bs|
  {
    if bs == [] then 0 else BigEndian(bs[..|bs| - 1]) * 256 + bs[|bs| - 1] as nat
  }

  function Pow256(k: nat): (n: nat)
    ensures n >= 1
  {
    if k == 0 then 1 else 256 * Pow256(k - 1)
  }

  lemma {:induction false} BigEndianBound(bs: seq<byte>)
    ensures BigEndian(bs) < Pow256(|bs|)
    decreases |bs|
  {
    if bs != [] {
      BigEndianBound(bs[..|bs| - 1]);
    }
  }

  /** `b ^ k` applied to every byte. */
  function XorAll(bs: seq<byte>, k: byte): (r: seq<byte>)
    ensures |r| == |bs|
    ensures forall i :: 0 <= i < |bs| ==> r[i] == bs[i] ^ k
  {
    seq(|bs|, i requires 0 <= i < |bs| => bs[i] ^ k)
  }

  /** Maps a string of code points below 256 to bytes (used for ASCII text). */
  function Latin1(s: string): (r: seq<byte>)
    requires forall i :: 0 <= i < |s| ==> s[i] as int < 256
    ensures |r| == |s|
    ensures forall i :: 0 <= i < |s| ==> r[i] as int == s[i] as int
  {
    var r := seq(|s|, i requires 0 <= i < |s| => s[i] as int as bv8);
    forall i | 0 <= i < |s| ensures r[i] as int == s[i] as int {
      NatByte(s[i] as int);
    }
    r
  }
}
