/** Integers of MessagePack: 64 bits built from 32-bit halves, and the loops that read them back. */
module MsgpackInts {
  import opened Basics

  const MAX_SAFE: int := 0x1f_ffff_ffff_ffff
  const POW32: int := 0x1_0000_0000

  predicate Safe(n: int) { -MAX_SAFE <= n <= MAX_SAFE }

  /** What a number leaves in one byte of a `Uint8Array`. */
  function Byte(x: int): byte { x % 256 }

  /** `x >>> k`: the low 32 bits, shifted. */
  function Shr8(x: int): nat { x % POW32 / 0x100 }
  function Shr16(x: int): nat { x % POW32 / 0x1_0000 }
  function Shr24(x: int): nat { x % POW32 / 0x100_0000 }

  /** `~x` of a 32-bit half, as the shifts after it see it. */
  function Not32(x: int): nat { POW32 - 1 - x % POW32 }

  function Half16(x: int): Bytes { [Byte(Shr8(x)), Byte(x)] }
  function Half32(x: int): (r: Bytes)
    ensures |r| == 4
  {
    [Byte(Shr24(x)), Byte(Shr16(x)), Byte(Shr8(x)), Byte(x)]
  }

  /** `appendInt64`: a negative number is the complement of the halves of its absolute value less one. */
  function Int64(value: int): Bytes {
    if value >= 0 then Half32(value / POW32) + Half32(value % POW32)
    else
      var v := -(value + 1);
      Half32(Not32(v / POW32)) + Half32(Not32(v % POW32))
  }

  // ----- two's complement, byte by byte -----

  /** The `k` low bytes of a number, the most significant first. */
  function BigEndian(x: int, k: nat): (r: Bytes)
    ensures |r| == k
    decreases k
  {
    if k == 0 then [] else BigEndian(x / 256, k - 1) + [x % 256]
  }

  lemma Half16Is(x: int)
    ensures Half16(x) == BigEndian(x, 2)
  {
    var r := x % POW32;
    assert x == x / POW32 * POW32 + r;
    assert x / 256 % 256 == r / 256 % 256 by { Low(x / POW32, r); }
    assert BigEndian(x / 256, 1) == BigEndian(x / 256 / 256, 0) + [x / 256 % 256];
  }

  /** Whole multiples of 2^32 do not show in the low four bytes. */
  lemma Low(q: int, r: int)
    requires 0 <= r < POW32
    ensures (q * POW32 + r) % 256 == r % 256
    ensures (q * POW32 + r) / 256 == q * 0x100_0000 + r / 256
    ensures (q * POW32 + r) / 256 % 256 == r / 256 % 256
    ensures (q * POW32 + r) / 256 / 256 == q * 0x1_0000 + r / 256 / 256
    ensures (q * POW32 + r) / 256 / 256 % 256 == r / 256 / 256 % 256
    ensures (q * POW32 + r) / 256 / 256 / 256 == q * 0x100 + r / 256 / 256 / 256
    ensures (q * POW32 + r) / 256 / 256 / 256 % 256 == r / 256 / 256 / 256
    ensures (q * POW32 + r) / 256 / 256 / 256 / 256 == q
  {
    Digit(q * 0x100_0000, r);
    Digit(q * 0x1_0000, r / 256);
    Digit(q * 0x100, r / 256 / 256);
    Digit(q, r / 256 / 256 / 256);
  }

  lemma Digit(q: int, r: int)
    requires 0 <= r
    ensures (q * 256 + r) / 256 == q + r / 256 && (q * 256 + r) % 256 == r % 256
  {
    var d, m := r / 256, r % 256;
    assert q * 256 + r == (q + d) * 256 + m;
    DivMod(q + d, m);
  }

  lemma DivMod(q: int, m: int)
    requires 0 <= m < 256
    ensures (q * 256 + m) / 256 == q && (q * 256 + m) % 256 == m
  {
  }

  lemma Half32Is(x: int)
    ensures Half32(x) == BigEndian(x, 4)
  {
    var q, r := x / POW32, x % POW32;
    assert x == q * POW32 + r;
    Low(q, r);
    assert BigEndian(x / 256 / 256 / 256, 1) == BigEndian(x / 256 / 256 / 256 / 256, 0) + [x / 256 / 256 / 256 % 256];
    assert BigEndian(x / 256 / 256, 2) == BigEndian(x / 256 / 256 / 256, 1) + [x / 256 / 256 % 256];
    assert BigEndian(x / 256, 3) == BigEndian(x / 256 / 256, 2) + [x / 256 % 256];
    assert r / 256 / 256 == r / 0x1_0000 && r / 256 / 256 / 256 == r / 0x100_0000;
  }

  lemma {:induction false} BigEndianSplit(x: int, k: nat)
    ensures BigEndian(x, k + 4) == BigEndian(x / POW32, k) + BigEndian(x, 4)
  {
    var q, r := x / POW32, x % POW32;
    assert x == q * POW32 + r;
    Low(q, r);
    var a, b, c := x / 256, x / 256 / 256, x / 256 / 256 / 256;
    assert c / 256 == q;
    assert BigEndian(x, k + 4) == BigEndian(a, k + 3) + [x % 256];
    assert BigEndian(a, k + 3) == BigEndian(b, k + 2) + [a % 256];
    assert BigEndian(b, k + 2) == BigEndian(c, k + 1) + [b % 256];
    assert BigEndian(c, k + 1) == BigEndian(q, k) + [c % 256];
    assert BigEndian(x, 4) == BigEndian(a, 3) + [x % 256];
    assert BigEndian(a, 3) == BigEndian(b, 2) + [a % 256];
    assert BigEndian(b, 2) == BigEndian(c, 1) + [b % 256];
    assert BigEndian(c, 1) == BigEndian(q, 0) + [c % 256];
  }

  lemma PositiveIs(value: int)
    requires 0 <= value <= MAX_SAFE
    ensures Int64(value) == BigEndian(value / POW32, 4) + BigEndian(value, 4)
  {
    Half32Is(value / POW32);
    Half32Is(value % POW32);
    LowBytes(value % POW32, value / POW32, value);
    hide BigEndian, Half32;
  }

  lemma NegativeIs(value: int)
    requires -MAX_SAFE <= value < 0
    ensures Int64(value) == BigEndian(value / POW32, 4) + BigEndian(value, 4)
  {
    var v := -(value + 1);
    var hi, lo := Not32(v / POW32), Not32(v % POW32);
    var q := -1 - v / POW32;
    assert v == v / POW32 * POW32 + v % POW32;
    assert value == q * POW32 + lo;
    Halves(q, lo);
    assert hi == POW32 + q;
    hide BigEndian, Half32;
    Half32Is(hi);
    Half32Is(lo);
    LowBytes(lo, q, value);
    LowBytes4(q, hi);
  }

  /** The halves and complements of `appendInt64` are the number's two's complement. */
  lemma Int64Is(value: int)
    requires Safe(value)
    ensures Int64(value) == BigEndian(value, 8)
  {
    BigEndianSplit(value, 4);
    if value >= 0 { PositiveIs(value); } else { NegativeIs(value); }
  }

  lemma Halves(q: int, r: int)
    requires 0 <= r < POW32
    ensures (q * POW32 + r) / POW32 == q
  {
  }

  /** Four bytes see a number modulo 2^32. */
  lemma LowBytes(r: int, q: int, x: int)
    requires 0 <= r < POW32 && x == q * POW32 + r
    ensures BigEndian(x, 4) == BigEndian(r, 4)
  {
    Half32Is(x);
    Half32Is(r);
    Low(q, r);
    assert x % POW32 == r by { Halves(q, r); }
  }

  lemma LowBytes4(x: int, y: int)
    requires y == POW32 + x && 0 <= y < POW32
    ensures BigEndian(x, 4) == BigEndian(y, 4)
  {
    LowBytes(y, -1, x);
  }

  // ----- reading -----

  /** `readUInt`, over the bytes it reads. */
  function UInt(b: Bytes): nat {
    if b == [] then 0 else UInt(b[..|b| - 1]) * 256 + b[|b| - 1]
  }

  /** `readInt`: the first byte's highest bit counts negative. */
  function SInt(b: Bytes): int
    requires b != []
  {
    if |b| == 1 then b[0] % 128 - (if b[0] >= 128 then 128 else 0) else SInt(b[..|b| - 1]) * 256 + b[|b| - 1]
  }

  function Pow256(k: nat): nat { if k == 0 then 1 else 256 * Pow256(k - 1) }

  /** Unsigned bytes read back, when the number fits them. */
  lemma {:induction false} UIntBack(x: int, k: nat)
    requires 0 <= x < Pow256(k)
    ensures UInt(BigEndian(x, k)) == x
    decreases k
  {
    if k > 0 {
      UIntBack(x / 256, k - 1);
      assert BigEndian(x, k)[..k - 1] == BigEndian(x / 256, k - 1);
    }
  }

  /** Signed bytes read back, when the number fits them. */
  lemma {:induction false} SIntBack(x: int, k: nat)
    requires k >= 1 && -128 * Pow256(k - 1) <= x < 128 * Pow256(k - 1)
    ensures SInt(BigEndian(x, k)) == x
    decreases k
  {
    if k == 1 {
      assert BigEndian(x / 256, 0) == [];
      assert Pow256(0) == 1;
    } else {
      assert Pow256(k - 1) == 256 * Pow256(k - 2);
      SIntBack(x / 256, k - 1);
      assert BigEndian(x, k)[..k - 1] == BigEndian(x / 256, k - 1);
    }
  }

  /** Every value the signed loop passes through stays an exact double. */
  lemma {:induction false} SIntExact(x: int, k: nat, j: nat)
    requires Safe(x) && 1 <= j <= k && -128 * Pow256(k - 1) <= x < 128 * Pow256(k - 1)
    ensures -MAX_SAFE - 1 <= SInt(BigEndian(x, k)[..j]) <= MAX_SAFE
    decreases k
  {
    SIntBack(x, k);
    if j == k {
      assert BigEndian(x, k)[..j] == BigEndian(x, k);
    } else {
      assert BigEndian(x, k)[..j] == BigEndian(x / 256, k - 1)[..j];
      assert Pow256(k - 1) == 256 * Pow256(k - 2);
      SIntExact(x / 256, k - 1, j);
    }
  }

  lemma {:induction false} UIntExact(x: int, k: nat, j: nat)
    requires 0 <= x <= MAX_SAFE && j <= k && x < Pow256(k)
    ensures UInt(BigEndian(x, k)[..j]) <= MAX_SAFE
    decreases k
  {
    UIntBack(x, k);
    if j == k {
      assert BigEndian(x, k)[..j] == BigEndian(x, k);
    } else {
      assert BigEndian(x, k)[..j] == BigEndian(x / 256, k - 1)[..j];
      UIntExact(x / 256, k - 1, j);
    }
  }

  lemma Powers()
    ensures Pow256(0) == 1 && Pow256(1) == 0x100 && Pow256(2) == 0x1_0000 && Pow256(3) == 0x100_0000 && Pow256(4) == POW32
    ensures Pow256(7) == 0x100_0000_0000_0000 && Pow256(8) == 0x1_0000_0000_0000_0000
  {
    assert Pow256(1) == 256 * Pow256(0);
    assert Pow256(2) == 256 * Pow256(1);
    assert Pow256(3) == 256 * Pow256(2);
    assert Pow256(4) == 256 * Pow256(3);
    assert Pow256(5) == 256 * Pow256(4);
    assert Pow256(6) == 256 * Pow256(5);
    assert Pow256(7) == 256 * Pow256(6);
    assert Pow256(8) == 256 * Pow256(7);
  }
}
