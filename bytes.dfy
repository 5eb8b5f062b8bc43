/**
 * The byte-level vocabulary of the binary trace: little-endian unsigned
 * integers of a fixed width (what `ofstream::write` of an `uint16_t`,
 * `uint32_t`, `uint64_t` or `int64_t` puts on an x86 file), and strings
 * written one `char` per byte.
 */
module Bytes {
  import opened Text

  type Byte = b: int | 0 <= b < 256

  /** 256 to the power `w`: the number of values a `w`-byte integer holds. */
  function Pow256(w: nat): (p: nat)
    ensures p >= 1
  {
    if w == 0 then 1 else 256 * Pow256(w - 1)
  }

  const Two16: nat := 0x1_0000
  const Two32: nat := 0x1_0000_0000
  const Two63: nat := 0x8000_0000_0000_0000
  const Two64: nat := 0x1_0000_0000_0000_0000

  lemma Pow256Widths()
    ensures Pow256(2) == Two16 && Pow256(4) == Two32 && Pow256(8) == Two64
  {
    assert Pow256(1) == 256;
    assert Pow256(2) == 0x1_0000;
    assert Pow256(4) == 0x1_0000_0000 by {
      assert Pow256(3) == 0x100_0000;
    }
    assert Pow256(8) == 0x1_0000_0000_0000_0000 by {
      assert Pow256(5) == 0x100_0000_0000;
      assert Pow256(6) == 0x1_0000_0000_0000;
      assert Pow256(7) == 0x100_0000_0000_0000;
    }
  }

  /** The `w` low bytes of `x`, least significant first. */
  function LE(x: nat, w: nat): (bs: seq<Byte>)
    ensures |bs| == w
  {
    if w == 0 then [] else [x % 256] + LE(x / 256, w - 1)
  }

  /** The number a little-endian byte string stands for. */
  function FromLE(bs: seq<Byte>): nat {
    if bs == [] then 0 else bs[0] + 256 * FromLE(bs[1..])
  }

  lemma {:induction false} FromLEBound(bs: seq<Byte>)
    ensures FromLE(bs) < Pow256(|bs|)
  {
    if bs != [] {
      FromLEBound(bs[1..]);
    }
  }

  /** Writing `x` in `w` bytes and reading it back gives `x` when it fits. */
  lemma {:induction false} FromLEOfLE(x: nat, w: nat)
    requires x < Pow256(w)
    ensures FromLE(LE(x, w)) == x
  {
    if w > 0 {
      var q := x / 256;
      assert x == q * 256 + x % 256;
      assert q < Pow256(w - 1);
      FromLEOfLE(q, w - 1);
      assert LE(x, w)[1..] == LE(q, w - 1);
    }
  }

  /** Reading a byte string and writing the number back in as many bytes gives the same bytes. */
  lemma {:induction false} LEOfFromLE(bs: seq<Byte>)
    ensures LE(FromLE(bs), |bs|) == bs
  {
    if bs != [] {
      var x := FromLE(bs);
      assert x % 256 == bs[0] && x / 256 == FromLE(bs[1..]);
      LEOfFromLE(bs[1..]);
    }
  }

  /**
   * An integer stored in a `w`-byte unsigned variable and written out: C++
   * converts to an unsigned type modulo 256 to the `w`, so a negative or too
   * large value wraps.
   */
  function Unsigned(x: int, w: nat): (bs: seq<Byte>)
    ensures |bs| == w
  {
    LE(x % Pow256(w), w)
  }

  function U16(x: int): (bs: seq<Byte>)
    ensures |bs| == 2
  {
    Unsigned(x, 2)
  }

  function U32(x: int): (bs: seq<Byte>)
    ensures |bs| == 4
  {
    Unsigned(x, 4)
  }

  /** A `uint64_t`, and an `int64_t` in two's complement, as 8 bytes. */
  function U64(x: int): (bs: seq<Byte>)
    ensures |bs| == 8
  {
    Unsigned(x, 8)
  }

  /** Reading 8 bytes as an `int64_t`. */
  function ToInt64(u: nat): int {
    if u >= Two63 then u - Two64 else u
  }

  lemma UnsignedFits(x: int, w: nat)
    requires 0 <= x < Pow256(w)
    ensures FromLE(Unsigned(x, w)) == x
  {
    ModBelow(x, Pow256(w));
    FromLEOfLE(x, w);
  }

  lemma ModBelow(x: int, m: int)
    requires 0 <= x < m
    ensures x % m == x
  {
    assert x == 0 * m + x;
  }

  /** A 64-bit signed value survives being written as 8 bytes and read back as `int64_t`. */
  lemma Int64RoundTrip(v: int)
    requires Int64Min <= v <= Int64Max
    ensures ToInt64(FromLE(U64(v))) == v
  {
    Pow256Widths();
    var u := v % Two64;
    assert 0 <= u < Two64;
    FromLEOfLE(u, 8);
    if v < 0 {
      assert u == v + Two64;
    } else {
      assert u == v;
    }
  }

  /** A `std::string` written with `write(s.c_str(), n)`: one byte per character. */
  function CharBytes(s: string): (bs: seq<Byte>)
    ensures |bs| == |s|
  {
    seq(|s|, i requires 0 <= i < |s| => (s[i] as int) % 256)
  }

  /** Bytes read back as characters. */
  function BytesChars(bs: seq<Byte>): (s: string)
    ensures |s| == |bs|
  {
    seq(|bs|, i requires 0 <= i < |bs| => bs[i] as char)
  }

  /** A string of one-byte characters. */
  predicate Narrow(s: string) {
    forall i :: 0 <= i < |s| ==> (s[i] as int) < 256
  }

  lemma CharsRoundTrip(s: string)
    requires Narrow(s)
    ensures BytesChars(CharBytes(s)) == s
  {
  }
}
