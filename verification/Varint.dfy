/** Unsigned varints over 32-bit shifts: seven bits a byte, the lowest first. */
module Varint {
  import opened Basics

  const TWO_32: nat := 0x1_0000_0000

  /** `v >>> 7` keeps the low 32 bits of what it shifts. */
  function EncodeVarint(value: nat): (r: Bytes)
    ensures 1 <= |r|
    decreases value
  {
    if value >= 128 then [value % 128 + 128] + EncodeVarint(value % TWO_32 / 128) else [value]
  }

  method EncodeLoop(value: nat) returns (out: Bytes)
    ensures out == EncodeVarint(value)
  {
    out := [];
    var v: nat := value;
    while v >= 0x80
      invariant out + EncodeVarint(v) == EncodeVarint(value)
      decreases v
    {
      ghost var tail := EncodeVarint(v % TWO_32 / 128);
      assert EncodeVarint(v) == [v % 128 + 128] + tail;
      hide EncodeVarint;
      assert out + ([v % 128 + 128] + tail) == (out + [v % 128 + 128]) + tail;
      out := out + [v % 128 + 128];
      v := v % TWO_32 / 128;
    }
    out := out + [v];
  }

  datatype Decoded = Value(value: nat, offset: nat) | TooLong | Truncated

  function Pow128(n: nat): nat {
    if n == 0 then 1 else 128 * Pow128(n - 1)
  }

  /**
   Decoding from index `i`, the `k`-th byte of the varint: its seven low bits land
   shifted by 7·k, and whatever passes 32 bits is lost.
   */
  function Decode(buf: Bytes, i: nat, k: nat, value: nat): Decoded
    requires i <= |buf|
    decreases |buf| - i
  {
    if i == |buf| then Truncated
    else
      var v := (value + buf[i] % 128 * Pow128(k)) % TWO_32;
      if buf[i] < 128 then Value(v, i + 1)
      else if k + 1 > 4 then TooLong
      else Decode(buf, i + 1, k + 1, v)
  }

  function DecodeVarint(buf: Bytes, start: nat): Decoded
    requires start <= |buf|
  {
    Decode(buf, start, 0, 0)
  }

  method DecodeLoop(buf: Bytes, start: nat) returns (r: Decoded)
    requires start <= |buf|
    ensures r == DecodeVarint(buf, start)
  {
    var value: nat, shift: nat, i: nat, place: nat := 0, 0, start, 1;
    while i < |buf|
      invariant start <= i <= |buf| && shift % 7 == 0 && 0 <= shift <= 28 && place == Pow128(shift / 7)
      invariant Decode(buf, i, shift / 7, value) == DecodeVarint(buf, start)
    {
      var b := buf[i];
      i := i + 1;
      value := (value + b % 128 * place) % TWO_32;
      if b < 0x80 { return Value(value, i); }
      shift := shift + 7;
      place := place * 128;
      if shift > 28 { return TooLong; }
    }
    return Truncated;
  }

  // ----- round trip -----

  /** One byte more, within 32 bits. */
  lemma DecodeByte(buf: Bytes, i: nat, k: nat, value: nat, d: nat)
    requires i < |buf| && d < 128 && value + d * Pow128(k) < TWO_32
    ensures buf[i] == d ==> Decode(buf, i, k, value) == Value(value + d * Pow128(k), i + 1)
    ensures buf[i] == d + 128 && k < 4 ==> Decode(buf, i, k, value) == Decode(buf, i + 1, k + 1, value + d * Pow128(k))
  {
    assert (d + 128) % 128 == d;
    var v := value + d * Pow128(k);
    assert v % TWO_32 == v;
  }

  /** What is encoded is decoded, whatever stands before and after. */
  lemma {:induction false} RoundTripAt(n: nat, before: Bytes, rest: Bytes, k: nat, value: nat)
    requires k <= 4 && n < TWO_32 && n * Pow128(k) + value < TWO_32
    ensures |EncodeVarint(n)| <= 5 - k
    ensures Decode(before + EncodeVarint(n) + rest, |before|, k, value) == Value(n * Pow128(k) + value, |before| + |EncodeVarint(n)|)
    decreases n
  {
    var buf := before + EncodeVarint(n) + rest;
    if n < 128 {
      assert buf[|before|] == n;
      DecodeByte(buf, |before|, k, value, n);
    } else {
      var m, d := n / 128, n % 128;
      assert n % TWO_32 == n;
      assert EncodeVarint(n) == [d + 128] + EncodeVarint(m);
      assert buf[|before|] == d + 128;
      Scale(n, k);
      Room(n, k, value);
      DecodeByte(buf, |before|, k, value, d);
      var b2 := before + [d + 128];
      assert buf == b2 + EncodeVarint(m) + rest;
      hide EncodeVarint, Decode, Pow128;
      RoundTripAt(m, b2, rest, k + 1, value + d * Pow128(k));
    }
  }

  /** A number of several bytes does not start at the fifth. */
  lemma Room(n: nat, k: nat, value: nat)
    requires k <= 4 && n >= 128 && n * Pow128(k) + value < TWO_32
    ensures k < 4 && n % 128 * Pow128(k) + value < TWO_32
  {
    Powers();
    Scale(n, k);
    Monotone(128, n, Pow128(4));
  }

  lemma Monotone(a: nat, b: nat, p: nat)
    requires a <= b
    ensures a * p <= b * p
  {
  }

  lemma Powers()
    ensures Pow128(0) == 1 && Pow128(1) == 0x80 && Pow128(2) == 0x4000 && Pow128(3) == 0x20_0000 && Pow128(4) == 0x1000_0000
  {
    assert Pow128(1) == 128 * Pow128(0);
    assert Pow128(2) == 128 * Pow128(1);
    assert Pow128(3) == 128 * Pow128(2);
    assert Pow128(4) == 128 * Pow128(3);
  }

  lemma Scale(n: nat, k: nat)
    ensures n * Pow128(k) == n / 128 * Pow128(k + 1) + n % 128 * Pow128(k)
  {
    var p := Pow128(k);
    assert Pow128(k + 1) == 128 * p;
    assert n == n / 128 * 128 + n % 128;
    assert n * p == (n / 128 * 128 + n % 128) * p == n / 128 * 128 * p + n % 128 * p;
    assert n / 128 * 128 * p == n / 128 * (128 * p);
  }

  /** Numbers below 2^32 survive the trip, in at most five bytes; larger ones lose what is past 32 bits. */
  lemma RoundTrip(n: nat, before: Bytes, rest: Bytes)
    ensures DecodeVarint(before + EncodeVarint(n) + rest, |before|) == Value(n % TWO_32, |before| + |EncodeVarint(n)|)
    ensures |EncodeVarint(n)| <= 5
    ensures DecodeVarint(before + EncodeVarint(n) + rest, |before|) == Value(n, |before| + |EncodeVarint(n)|) <==> n < TWO_32
  {
    if n < TWO_32 {
      assert n * Pow128(0) == n;
      RoundTripAt(n, before, rest, 0, 0);
    } else {
      Wrapped(n, before, rest);
    }
  }

  lemma Wrapped(n: nat, before: Bytes, rest: Bytes)
    requires n >= TWO_32
    ensures DecodeVarint(before + EncodeVarint(n) + rest, |before|) == Value(n % TWO_32, |before| + |EncodeVarint(n)|)
    ensures |EncodeVarint(n)| <= 5
  {
    var m, d := n % TWO_32 / 128, n % 128;
    var b2 := before + [d + 128];
    var buf := before + EncodeVarint(n) + rest;
    assert EncodeVarint(n) == [d + 128] + EncodeVarint(m);
    assert buf == b2 + EncodeVarint(m) + rest;
    assert buf[|before|] == d + 128;
    Powers();
    Wrap(n);
    hide EncodeVarint;
    assert d * Pow128(0) == d && m * Pow128(1) == m * 128;
    DecodeByte(buf, |before|, 0, 0, d);
    hide Decode, Pow128;
    RoundTripAt(m, b2, rest, 1, d);
  }

  lemma Wrap(n: nat)
    ensures n % TWO_32 / 128 * 128 + n % 128 == n % TWO_32
  {
    var q, r := n / TWO_32, n % TWO_32;
    assert n == q * TWO_32 + r;
    assert n == (q * 0x200_0000) * 128 + r;
    ModAdd(q * 0x200_0000, r);
  }

  lemma ModAdd(a: nat, r: nat)
    ensures (a * 128 + r) % 128 == r % 128
  {
    var d, m := r / 128, r % 128;
    assert a * 128 + r == (a + d) * 128 + m;
    DivMod(a + d, m);
  }

  lemma DivMod(q: nat, m: nat)
    requires m < 128
    ensures (q * 128 + m) % 128 == m
  {
  }

  // ----- telling incomplete from malformed -----

  /** The first `n` bytes from `start` all ask for another one. */
  predicate Continues(buf: Bytes, start: nat, n: nat)
    requires start + n <= |buf|
  {
    forall i :: start <= i < start + n ==> buf[i] >= 128
  }

  lemma {:induction false} DecodeOutcome(buf: Bytes, i: nat, k: nat, value: nat)
    requires i <= |buf| && k <= 4
    ensures Decode(buf, i, k, value).TooLong? <==> i + (5 - k) <= |buf| && Continues(buf, i, 5 - k)
    ensures Decode(buf, i, k, value).Truncated? <==> |buf| - i < 5 - k && Continues(buf, i, |buf| - i)
    ensures Decode(buf, i, k, value).Value? ==> i < Decode(buf, i, k, value).offset <= |buf| && Decode(buf, i, k, value).offset <= i + 5 - k
    decreases |buf| - i
  {
    if i < |buf| && buf[i] >= 128 && k < 4 {
      var v := (value + buf[i] % 128 * Pow128(k)) % TWO_32;
      DecodeOutcome(buf, i + 1, k + 1, v);
    }
  }

  datatype Length = Known(value: nat, offset: nat) | Incomplete | Malformed

  /** `readLength`: an error over fewer than five bytes only means that more must come. */
  function ReadLength(bytes: Bytes): Length {
    match DecodeVarint(bytes, 0)
    case Value(v, o) => Known(v, o)
    case _ => if |bytes| < 5 then Incomplete else Malformed
  }

  /**
   The length is malformed exactly when its first five bytes all ask for another
   one, and incomplete exactly when there are fewer and all of them do: so no
   prefix of a valid length is ever called malformed, and nothing incomplete
   stays so past five bytes.
   */
  lemma LengthOutcome(bytes: Bytes)
    ensures ReadLength(bytes).Malformed? <==> |bytes| >= 5 && Continues(bytes, 0, 5)
    ensures ReadLength(bytes).Incomplete? <==> |bytes| < 5 && Continues(bytes, 0, |bytes|)
  {
    DecodeOutcome(bytes, 0, 0, 0);
  }

  /** More bytes change nothing once the length is known, or known to be wrong. */
  lemma {:induction false} DecodeStable(buf: Bytes, more: Bytes, i: nat, k: nat, value: nat)
    requires i <= |buf| && !Decode(buf, i, k, value).Truncated?
    ensures Decode(buf + more, i, k, value) == Decode(buf, i, k, value)
    decreases |buf| - i
  {
    if buf[i] >= 128 && k < 4 {
      var v := (value + buf[i] % 128 * Pow128(k)) % TWO_32;
      DecodeStable(buf, more, i + 1, k + 1, v);
    }
  }
}
