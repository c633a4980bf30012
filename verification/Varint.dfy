/**
 * QUIC variable-length integers (section 16 of RFC 9000) as internal/hls/frame.go and
 * internal/cmaf/loc.go write and read them. Shifts and masks of unsigned words are
 * quotients and remainders here.
 */
module Varint {
  import opened Prelude
  import opened Modular

  type byte = x: int | 0 <= x < 0x100

  /** A Go uint64. */
  type u64 = x: int | 0 <= x < 0x1_0000_0000_0000_0000

  const MAX_VARINT: u64 := 0x3fff_ffff_ffff_ffff

  /** The bytes appendVarint appends. The prefix bits of the 8-byte form are or-ed onto a byte that may carry bits of v above the 62nd. */
  function Encode(v: u64): (b: seq<byte>)
    ensures |b| in {1, 2, 4, 8}
  {
    if v < 0x40 then [v]
    else if v < 0x4000 then [0x40 + v / 0x100, v % 0x100]
    else if v < 0x4000_0000 then
      [0x80 + v / 0x100_0000, v / 0x1_0000 % 0x100, v / 0x100 % 0x100, v % 0x100]
    else
      [0xc0 + v / 0x100_0000_0000_0000 % 0x40, v / 0x1_0000_0000_0000 % 0x100,
       v / 0x100_0000_0000 % 0x100, v / 0x1_0000_0000 % 0x100,
       v / 0x100_0000 % 0x100, v / 0x1_0000 % 0x100, v / 0x100 % 0x100, v % 0x100]
  }

  /** Bytes read big-endian after acc. */
  function BigEndian(acc: nat, b: seq<byte>): nat
    decreases |b|
  {
    if b == [] then acc else BigEndian(acc * 0x100 + b[0], b[1..])
  }

  function Width(first: byte): nat {
    match first / 0x40
    case 0 => 1
    case 1 => 2
    case 2 => 4
    case _ => 8
  }

  /** The value at the front of b and the bytes it took, or None when b is too short. */
  function Decode(b: seq<byte>): (r: Option<(nat, nat)>)
    ensures r.Some? ==> 1 <= r.value.1 <= |b| && r.value.1 <= 8
  {
    if b == [] || |b| < Width(b[0]) then None
    else Some((BigEndian(b[0] % 0x40, b[1..Width(b[0])]), Width(b[0])))
  }

  lemma {:induction false} BigEndianBound(acc: nat, b: seq<byte>, limit: nat, scale: nat)
    requires acc < limit && scale == Power256(|b|)
    ensures BigEndian(acc, b) < limit * scale
    decreases |b|
  {
    if b != [] {
      var rest := Power256(|b| - 1);
      assert acc * 0x100 + b[0] < limit * 0x100;
      BigEndianBound(acc * 0x100 + b[0], b[1..], limit * 0x100, rest);
      assert limit * 0x100 * rest == limit * (0x100 * rest);
    }
  }

  function Power256(n: nat): nat { if n == 0 then 1 else 0x100 * Power256(n - 1) }

  /** What is read never exceeds what a varint carries. */
  lemma DecodeBound(b: seq<byte>)
    ensures Decode(b).Some? ==> Decode(b).value.0 <= MAX_VARINT
  {
    if Decode(b).Some? {
      var n := Width(b[0]);
      BigEndianBound(b[0] % 0x40, b[1..n], 0x40, Power256(n - 1));
      assert Power256(0) == 1 && Power256(1) == 0x100;
      assert Power256(2) == 0x1_0000;
      assert Power256(3) == 0x100_0000;
      assert Power256(4) == 0x1_0000_0000;
      assert Power256(5) == 0x100_0000_0000;
      assert Power256(6) == 0x1_0000_0000_0000;
      assert Power256(7) == 0x100_0000_0000_0000;
    }
  }

  /** Appending a digit to what is read. */
  lemma {:induction false} BigEndianSnoc(acc: nat, b: seq<byte>, c: byte)
    ensures BigEndian(acc, b + [c]) == BigEndian(acc, b) * 0x100 + c
    decreases |b|
  {
    if b == [] {
      assert [c][1..] == [];
    } else {
      assert (b + [c])[1..] == b[1..] + [c];
      BigEndianSnoc(acc * 0x100 + b[0], b[1..], c);
    }
  }

  /** The base-256 digits of v below the first. */
  lemma {:induction false} Digits(v: nat, acc: nat, b: seq<byte>, q: nat)
    requires BigEndian(acc, b) == q && v / 0x100 == q
    ensures BigEndian(acc, b + [v % 0x100]) == v
  {
    BigEndianSnoc(acc, b, v % 0x100);
  }

  lemma NoDigits(acc: nat)
    ensures BigEndian(acc, []) == acc
  {
  }

  /** Successive one-byte shifts are one wider shift. */
  lemma Shift(v: nat, k: nat)
    requires k > 0
    ensures v / k / 0x100 == v / (0x100 * k)
  {
    var a, r := v / k, v % k;
    var q, s := a / 0x100, a % 0x100;
    ShiftParts(v, k, a, r, q, s);
    QuotientIs(v, 0x100 * k, q, k * s + r);
  }

  lemma ShiftParts(v: nat, k: nat, a: nat, r: nat, q: nat, s: nat)
    requires k > 0 && r < k && s < 0x100 && v == k * a + r && a == 0x100 * q + s
    ensures v == (0x100 * k) * q + (k * s + r)
    ensures 0 <= k * s + r < 0x100 * k
  {
  }

  /** Reading what was written gives the low 62 bits of it, so exactly it when it fits a varint, and what followed is left. */
  lemma DecodeEncode(v: u64, rest: seq<byte>)
    ensures Decode(Encode(v) + rest) == Some((v % 0x4000_0000_0000_0000, |Encode(v)|))
    ensures v <= MAX_VARINT <==> Decode(Encode(v) + rest) == Some((v, |Encode(v)|))
  {
    hide Encode, BigEndian, Width;
    var b := Encode(v);
    WidthIs(v);
    assert (b + rest)[0] == b[0];
    assert (b + rest)[1..|b|] == b[1..];
    Value(v);
  }

  /** The first byte states the length. */
  lemma WidthIs(v: u64)
    ensures Width(Encode(v)[0]) == |Encode(v)|
  {
  }

  lemma Value(v: u64)
    ensures BigEndian(Encode(v)[0] % 0x40, Encode(v)[1..]) == v % 0x4000_0000_0000_0000
  {
    var b := Encode(v);
    if v < 0x40 {
      assert b[1..] == [];
    } else if v < 0x4000 {
      Digits(v, b[0] % 0x40, [], v / 0x100);
      assert b[1..] == [] + [v % 0x100];
    } else if v < 0x4000_0000 {
      Value4(v, b);
    } else {
      Value8(v, b);
    }
  }

  lemma Value4(v: u64, b: seq<byte>)
    requires 0x4000 <= v < 0x4000_0000 && b == Encode(v)
    ensures BigEndian(b[0] % 0x40, b[1..]) == v
  {
    hide BigEndian;
    var acc := b[0] % 0x40;
    NoDigits(acc);
    Shift(v, 0x100);
    Shift(v, 0x1_0000);
    Digits(v / 0x1_0000, acc, [], v / 0x100_0000);
    Digits(v / 0x100, acc, [] + [b[1]], v / 0x1_0000);
    Digits(v, acc, [] + [b[1]] + [b[2]], v / 0x100);
    assert b[1..] == [] + [b[1]] + [b[2]] + [b[3]];
  }

  /** v and w, apart by a multiple of 256k, have the same byte at k. */
  lemma SameByte(v: nat, k: nat, m: nat, w: nat, a: nat, r: nat)
    requires v == k * (0x100 * m) + w && w == k * a + r && r < k
    ensures v / k % 0x100 == a % 0x100
  {
    assert v == k * (m * 0x100 + a) + r by {
      assert k * (m * 0x100 + a) == k * (0x100 * m) + k * a;
    }
    QuotientIs(v, k, m * 0x100 + a, r);
    ModPlus(a, m, 0x100);
  }

  /** v without the two bits its 8-byte form has no room for has the same lower bytes. */
  lemma LowBytes(v: u64, q: nat, w: nat)
    requires q == v / 0x4000_0000_0000_0000 && w == v % 0x4000_0000_0000_0000
    ensures w % 0x100 == v % 0x100
    ensures w / 0x100 % 0x100 == v / 0x100 % 0x100
    ensures w / 0x1_0000 % 0x100 == v / 0x1_0000 % 0x100
    ensures w / 0x100_0000 % 0x100 == v / 0x100_0000 % 0x100
    ensures w / 0x1_0000_0000 % 0x100 == v / 0x1_0000_0000 % 0x100
    ensures w / 0x100_0000_0000 % 0x100 == v / 0x100_0000_0000 % 0x100
    ensures w / 0x1_0000_0000_0000 % 0x100 == v / 0x1_0000_0000_0000 % 0x100
  {
    SameByte(v, 1, 0x40_0000_0000_0000 * q, w, w, 0);
    SameByte(v, 0x100, 0x4000_0000_0000 * q, w, w / 0x100, w % 0x100);
    SameByte(v, 0x1_0000, 0x40_0000_0000 * q, w, w / 0x1_0000, w % 0x1_0000);
    SameByte(v, 0x100_0000, 0x4000_0000 * q, w, w / 0x100_0000, w % 0x100_0000);
    SameByte(v, 0x1_0000_0000, 0x40_0000 * q, w, w / 0x1_0000_0000, w % 0x1_0000_0000);
    SameByte(v, 0x100_0000_0000, 0x4000 * q, w, w / 0x100_0000_0000, w % 0x100_0000_0000);
    SameByte(v, 0x1_0000_0000_0000, 0x40 * q, w, w / 0x1_0000_0000_0000, w % 0x1_0000_0000_0000);
  }

  lemma Value8(v: u64, b: seq<byte>)
    requires 0x4000_0000 <= v && b == Encode(v)
    ensures BigEndian(b[0] % 0x40, b[1..]) == v % 0x4000_0000_0000_0000
  {
    hide BigEndian;
    var acc, w := b[0] % 0x40, v % 0x4000_0000_0000_0000;
    Top(v);
    LowBytes(v, v / 0x4000_0000_0000_0000, w);
    Digits8(w, acc, b);
  }

  lemma Top(v: u64)
    ensures (v % 0x4000_0000_0000_0000) / 0x100_0000_0000_0000 == v / 0x100_0000_0000_0000 % 0x40
  {
  }

  lemma Digits8(w: nat, acc: nat, b: seq<byte>)
    requires |b| == 8 && acc == w / 0x100_0000_0000_0000
    requires b[1] == w / 0x1_0000_0000_0000 % 0x100 && b[2] == w / 0x100_0000_0000 % 0x100
    requires b[3] == w / 0x1_0000_0000 % 0x100 && b[4] == w / 0x100_0000 % 0x100
    requires b[5] == w / 0x1_0000 % 0x100 && b[6] == w / 0x100 % 0x100 && b[7] == w % 0x100
    ensures BigEndian(acc, b[1..]) == w
  {
    hide BigEndian;
    Shift(w, 0x100);
    Shift(w, 0x1_0000);
    Shift(w, 0x100_0000);
    Shift(w, 0x1_0000_0000);
    Shift(w, 0x100_0000_0000);
    Shift(w, 0x1_0000_0000_0000);
    var s := [];
    NoDigits(acc);
    Digits(w / 0x1_0000_0000_0000, acc, s, acc);
    s := s + [b[1]];
    Digits(w / 0x100_0000_0000, acc, s, w / 0x1_0000_0000_0000);
    s := s + [b[2]];
    Digits(w / 0x1_0000_0000, acc, s, w / 0x100_0000_0000);
    s := s + [b[3]];
    Digits(w / 0x100_0000, acc, s, w / 0x1_0000_0000);
    s := s + [b[4]];
    Digits(w / 0x1_0000, acc, s, w / 0x100_0000);
    s := s + [b[5]];
    Digits(w / 0x100, acc, s, w / 0x1_0000);
    s := s + [b[6]];
    Digits(w, acc, s, w / 0x100);
    assert b[1..] == s + [b[7]];
  }

  /** readVarint's loop. */
  method Read(b: seq<byte>) returns (v: nat, n: nat)
    ensures Decode(b) == if n == 0 then None else Some((v, n))
  {
    if |b| == 0 {
      return 0, 0;
    }
    n := Width(b[0]);
    if |b| < n {
      return 0, 0;
    }
    v := b[0] % 0x40;
    NoDigits(v);
    assert b[1..1] == [];
    hide BigEndian;
    for i := 1 to n
      invariant v == BigEndian(b[0] % 0x40, b[1..i])
    {
      assert b[1..i + 1] == b[1..i] + [b[i]];
      BigEndianSnoc(b[0] % 0x40, b[1..i], b[i]);
      v := v * 0x100 + b[i];
    }
  }

  /** Of all bytes that read as v, what is written for it is the fewest. */
  lemma EncodesShortest(v: u64, b: seq<byte>)
    requires Decode(b).Some? && Decode(b).value.0 == v
    ensures |Encode(v)| <= Decode(b).value.1
  {
    var n := Width(b[0]);
    BigEndianBound(b[0] % 0x40, b[1..n], 0x40, Power256(n - 1));
    assert Power256(0) == 1 && Power256(1) == 0x100;
    assert Power256(2) == 0x1_0000;
    assert Power256(3) == 0x100_0000;
    hide BigEndian;
  }

  /** What is cut short is not read as anything. */
  lemma CutVarint(v: u64, k: nat)
    requires k < |Encode(v)|
    ensures Decode(Encode(v)[..k]) == None
  {
    WidthIs(v);
    hide Encode;
  }
}
