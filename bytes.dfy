/** Fixed-width unsigned integers and their little-endian byte encodings,
    as Rust's `u64::to_le_bytes`, `u64::from_le_bytes` and
    `u16::from_le_bytes` produce and read them. */
module Bytes {

  /** One byte, Rust's `u8`, as the number it holds. */
  type byte = x: int | 0 <= x < 0x100

  const U16_LIMIT: nat := 0x1_0000
  const U64_LIMIT: nat := 0x1_0000_0000_0000_0000

  /** Rust's `u16` and `u64`: the values that fit in two and eight bytes. */
  type u16 = x: int | 0 <= x < 0x1_0000
  type u64 = x: int | 0 <= x < 0x1_0000_0000_0000_0000

  /** `u64::MAX`. */
  const U64_MAX: u64 := 0xFFFF_FFFF_FFFF_FFFF

  /** 256 to the power n: one more than the largest value n bytes hold. */
  function Pow256(n: nat): (r: nat)
    ensures r >= 1
  {
    if n == 0 then 1 else 256 * Pow256(n - 1)
  }

  lemma Pow256Widths()
    ensures Pow256(2) == U16_LIMIT
    ensures Pow256(8) == U64_LIMIT
  {
    assert Pow256(1) == 0x100;
    assert Pow256(2) == 0x1_0000;
    assert Pow256(3) == 0x100_0000;
    assert Pow256(4) == 0x1_0000_0000;
    assert Pow256(5) == 0x100_0000_0000;
    assert Pow256(6) == 0x1_0000_0000_0000;
    assert Pow256(7) == 0x100_0000_0000_0000;
  }

  /** The `width` low-order bytes of n, least significant first. */
  function ToLe(n: nat, width: nat): (r: seq<byte>)
    ensures |r| == width
  {
    if width == 0 then [] else [n % 256] + ToLe(n / 256, width - 1)
  }

  /** The unsigned value a little-endian byte string denotes. */
  function FromLe(s: seq<byte>): (r: nat)
    ensures r < Pow256(|s|)
  {
    if s == [] then 0 else s[0] + 256 * FromLe(s[1..])
  }

  /** Decoding an encoding gives back every value that fits the width. */
  lemma {:induction false} FromLeToLe(n: nat, width: nat)
    requires n < Pow256(width)
    ensures FromLe(ToLe(n, width)) == n
  {
    if width > 0 {
      var q, p := n / 256, Pow256(width - 1);
      assert Pow256(width) == 256 * p;
      assert n == 256 * q + n % 256;
      assert q < p;
      var s := ToLe(n, width);
      assert s[1..] == ToLe(q, width - 1);
      FromLeToLe(q, width - 1);
      assert s[0] == n % 256;
      assert FromLe(s) == s[0] + 256 * FromLe(s[1..]);
    }
  }

  /** Encoding a decoded byte string at its own width gives back the bytes. */
  lemma {:induction false} ToLeFromLe(s: seq<byte>)
    ensures ToLe(FromLe(s), |s|) == s
  {
    if s != [] {
      var n := FromLe(s);
      assert n % 256 == s[0];
      assert n / 256 == FromLe(s[1..]);
      ToLeFromLe(s[1..]);
    }
  }

  /** d * k is at least d for every positive k. */
  lemma MulMonotone(d: nat, k: nat)
    requires k >= 1
    ensures d * k >= d
  {
    if k > 1 {
      MulMonotone(d, k - 1);
      assert d * k == d * (k - 1) + d;
    }
  }

  /** The quotient is the only t with n == d * t + r and 0 <= r < d. */
  lemma DivUnique(n: int, d: nat, t: int, r: int)
    requires d > 0 && n == d * t + r && 0 <= r < d
    ensures n / d == t
  {
    var t', r' := n / d, n % d;
    assert n == d * t' + r';
    if t' > t {
      MulMonotone(d, t' - t);
    } else if t' < t {
      MulMonotone(d, t - t');
    }
  }

  /** Dividing by 256 and then by p is dividing by 256 * p. */
  lemma DivDiv(n: nat, p: nat)
    requires p >= 1
    ensures (n / 256) / p == n / (256 * p)
  {
    var q := n / 256;
    var t := q / p;
    var r := 256 * (q % p) + n % 256;
    assert n == 256 * q + n % 256;
    assert q == p * t + q % p;
    assert 256 * q == (256 * p) * t + 256 * (q % p) by {
      assert 256 * (p * t) == (256 * p) * t;
    }
    assert q % p <= p - 1;
    DivUnique(n, 256 * p, t, r);
  }

  /** Byte i of the encoding is digit i of n in base 256. */
  lemma {:induction false} ToLeDigit(n: nat, width: nat, i: nat)
    requires i < width
    ensures ToLe(n, width)[i] == (n / Pow256(i)) % 256
  {
    if i > 0 {
      ToLeDigit(n / 256, width - 1, i - 1);
      DivDiv(n, Pow256(i - 1));
    }
  }

  /** `x.to_le_bytes()` for a `u64`. */
  function U64ToLeBytes(x: u64): (r: seq<byte>)
    ensures |r| == 8
  {
    ToLe(x, 8)
  }

  /** Byte i of `x.to_le_bytes()` is digit i of x in base 256. */
  lemma U64ToLeBytesDigits(x: u64)
    ensures forall i :: 0 <= i < 8 ==> U64ToLeBytes(x)[i] == (x / Pow256(i)) % 256
  {
    forall i | 0 <= i < 8
      ensures U64ToLeBytes(x)[i] == (x / Pow256(i)) % 256
    {
      ToLeDigit(x, 8, i);
    }
  }

  /** `u64::from_le_bytes` on an eight-byte slice. */
  function U64FromLeBytes(s: seq<byte>): (r: u64)
    requires |s| == 8
  {
    Pow256Widths();
    FromLe(s)
  }

  /** The decoded `u64` is the eight bytes read as digits in base 256,
      least significant first. */
  lemma U64FromLeBytesDigits(s: seq<byte>)
    requires |s| == 8
    ensures U64FromLeBytes(s) == s[0] as int + 0x100 * (s[1] as int) + 0x1_0000 * (s[2] as int)
              + 0x100_0000 * (s[3] as int) + 0x1_0000_0000 * (s[4] as int) + 0x100_0000_0000 * (s[5] as int)
              + 0x1_0000_0000_0000 * (s[6] as int) + 0x100_0000_0000_0000 * (s[7] as int)
  {
    assert FromLe(s[7..]) == s[7] by { assert s[7..][1..] == []; }
    assert FromLe(s[6..]) == s[6] + 0x100 * FromLe(s[7..]) by { assert s[6..][1..] == s[7..]; }
    assert FromLe(s[5..]) == s[5] + 0x100 * FromLe(s[6..]) by { assert s[5..][1..] == s[6..]; }
    assert FromLe(s[4..]) == s[4] + 0x100 * FromLe(s[5..]) by { assert s[4..][1..] == s[5..]; }
    assert FromLe(s[3..]) == s[3] + 0x100 * FromLe(s[4..]) by { assert s[3..][1..] == s[4..]; }
    assert FromLe(s[2..]) == s[2] + 0x100 * FromLe(s[3..]) by { assert s[2..][1..] == s[3..]; }
    assert FromLe(s[1..]) == s[1] + 0x100 * FromLe(s[2..]) by { assert s[1..][1..] == s[2..]; }
  }

  /** `x.to_le_bytes()` for a `u16`. */
  function U16ToLeBytes(x: u16): (r: seq<byte>)
    ensures |r| == 2
  {
    ToLe(x, 2)
  }

  /** `u16::from_le_bytes` on a two-byte slice: low byte first. */
  function U16FromLeBytes(s: seq<byte>): (r: u16)
    requires |s| == 2
    ensures r == s[0] as int + 0x100 * (s[1] as int)
  {
    Pow256Widths();
    assert FromLe(s[1..]) == s[1] by { assert s[1..][1..] == []; }
    FromLe(s)
  }

  lemma U64RoundTrip(x: u64)
    ensures U64FromLeBytes(U64ToLeBytes(x)) == x
  {
    Pow256Widths();
    FromLeToLe(x, 8);
  }

  lemma U64BytesRoundTrip(s: seq<byte>)
    requires |s| == 8
    ensures U64ToLeBytes(U64FromLeBytes(s)) == s
  {
    ToLeFromLe(s);
  }

  lemma U16RoundTrip(x: u16)
    ensures U16FromLeBytes(U16ToLeBytes(x)) == x
  {
    Pow256Widths();
    FromLeToLe(x, 2);
  }

  lemma U16BytesRoundTrip(s: seq<byte>)
    requires |s| == 2
    ensures U16ToLeBytes(U16FromLeBytes(s)) == s
  {
    ToLeFromLe(s);
  }

  /** Two `u64` values with the same encoding are the same value. */
  lemma U64ToLeBytesInjective(x: u64, y: u64)
    requires U64ToLeBytes(x) == U64ToLeBytes(y)
    ensures x == y
  {
    U64RoundTrip(x);
    U64RoundTrip(y);
  }

  /** The largest value `width` bytes hold is encoded as `width` 0xFF bytes. */
  lemma {:induction false} ToLeAllOnes(n: nat, width: nat)
    requires n == Pow256(width) - 1
    ensures forall i :: 0 <= i < width ==> ToLe(n, width)[i] == 0xFF
  {
    if width > 0 {
      var p := Pow256(width - 1);
      assert n == 256 * (p - 1) + 255;
      ToLeAllOnes(p - 1, width - 1);
      var r, t := ToLe(n, width), ToLe(p - 1, width - 1);
      assert r == [0xFF] + t;
      forall i | 0 < i < width
        ensures r[i] == 0xFF
      {
        assert r[i] == t[i - 1];
      }
    }
  }

  /** `u64::MAX.to_le_bytes()` is eight 0xFF bytes. */
  lemma U64MaxBytes()
    ensures U64ToLeBytes(U64_MAX) == [0xFF, 0xFF, 0xFF, 0xFF, 0xFF, 0xFF, 0xFF, 0xFF]
  {
    Pow256Widths();
    ToLeAllOnes(U64_MAX, 8);
    var r := U64ToLeBytes(U64_MAX);
    assert r[0] == 0xFF && r[1] == 0xFF && r[2] == 0xFF && r[3] == 0xFF;
    assert r[4] == 0xFF && r[5] == 0xFF && r[6] == 0xFF && r[7] == 0xFF;
  }
}
