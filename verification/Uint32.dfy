/** Credit on the wire: a big-endian 32-bit count that clamps rather than wraps. */
module Uint32 {
  import opened Basics

  const MAX_UINT32: nat := 0xffff_ffff

  function Clamp(n: int): nat {
    Min(MAX_UINT32, Max(0, n))
  }

  function EncodeUint32(n: int): Bytes {
    var c := Clamp(n);
    [c / 256 / 256 / 256, c / 256 / 256 % 256, c / 256 % 256, c % 256]
  }

  /** Four digits of base 256, the most significant first. */
  function Digits(a: int, b: int, c: int, d: int): int {
    ((a * 256 + b) * 256 + c) * 256 + d
  }

  /** `None` when the payload is too short to hold a count; what follows the count is ignored. */
  function DecodeUint32(bytes: Bytes): Option<int> {
    if |bytes| < 4 then None else Some(Digits(bytes[0], bytes[1], bytes[2], bytes[3]))
  }

  /** A count survives the trip exactly when it fits; a larger one arrives as the ceiling, a negative one as zero. */
  lemma RoundTrip(n: int, rest: Bytes)
    ensures DecodeUint32(EncodeUint32(n) + rest) == Some(Clamp(n))
    ensures DecodeUint32(EncodeUint32(n) + rest) == Some(n) <==> 0 <= n <= MAX_UINT32
  {
    var c, bytes := Clamp(n), EncodeUint32(n) + rest;
    assert bytes[0] == c / 256 / 256 / 256 && bytes[1] == c / 256 / 256 % 256 && bytes[2] == c / 256 % 256 && bytes[3] == c % 256;
  }

  /** Every decoded count re-encodes to the bytes it came from. */
  lemma Canonical(bytes: Bytes)
    requires |bytes| >= 4
    ensures 0 <= DecodeUint32(bytes).value <= MAX_UINT32 && EncodeUint32(DecodeUint32(bytes).value) == bytes[..4]
  {
    var a: int, b: int, c: int, d: int := bytes[0], bytes[1], bytes[2], bytes[3];
    var n := Digits(a, b, c, d);
    assert n / 256 == (a * 256 + b) * 256 + c && n % 256 == d;
    assert n / 256 / 256 == a * 256 + b && n / 256 % 256 == c;
  }
}
