/**
 Variable-length integers, bit for bit. A 64-bit integer is its two's complement pattern; the first
 byte's leading ones tell how many bytes follow.
 */
module SparseInt {
  type Byte = bv8

  /** `-half <= v < half`, for `v` read as a signed number. */
  predicate Fits(v: bv64, half: bv64) {
    v + half < half + half
  }

  predicate Fits32(v: bv32, half: bv32) {
    v + half < half + half
  }

  /** Byte `i` of a 64-bit integer, least significant first. */
  function B(v: bv64, i: nat): Byte
    requires i < 8
  {
    if i == 0 then (v & 0xFF) as bv8
    else if i == 1 then ((v >> 8) & 0xFF) as bv8
    else if i == 2 then ((v >> 16) & 0xFF) as bv8
    else if i == 3 then ((v >> 24) & 0xFF) as bv8
    else if i == 4 then ((v >> 32) & 0xFF) as bv8
    else if i == 5 then ((v >> 40) & 0xFF) as bv8
    else if i == 6 then ((v >> 48) & 0xFF) as bv8
    else ((v >> 56) & 0xFF) as bv8
  }

  function B32(v: bv32, i: nat): Byte
    requires i < 4
  {
    if i == 0 then (v & 0xFF) as bv8
    else if i == 1 then ((v >> 8) & 0xFF) as bv8
    else if i == 2 then ((v >> 16) & 0xFF) as bv8
    else ((v >> 24) & 0xFF) as bv8
  }

  function Sext(v: bv32): bv64 {
    if v & 0x8000_0000 != 0 then (v as bv64) | 0xFFFF_FFFF_0000_0000 else v as bv64
  }

  function BufSize(b: Byte): (k: nat)
    ensures 1 <= k <= 9
  {
    if b & 0x80 == 0 then 1
    else if b & 0xC0 == 0x80 then 2
    else if b & 0xE0 == 0xC0 then 3
    else if b & 0xF0 == 0xE0 then 4
    else if b & 0xF8 == 0xF0 then 5
    else if b & 0xFC == 0xF8 then 6
    else if b & 0xFE == 0xFC then 7
    else if b & 0xFF == 0xFE then 8
    else 9
  }

  function ValSize(v: bv64): (k: nat)
    ensures 1 <= k <= 9
  {
    if Fits(v, 0x40) then 1
    else if Fits(v, 0x2000) then 2
    else if Fits(v, 0x10_0000) then 3
    else if Fits(v, 0x800_0000) then 4
    else if Fits(v, 0x4_0000_0000) then 5
    else if Fits(v, 0x200_0000_0000) then 6
    else if Fits(v, 0x1_0000_0000_0000) then 7
    else if Fits(v, 0x80_0000_0000_0000) then 8
    else 9
  }

  /** `0xFF >> k`: the payload bits of the first of `k` bytes. */
  function Mask(k: nat): Byte {
    if k == 1 then 0x7F else if k == 2 then 0x3F else if k == 3 then 0x1F else if k == 4 then 0x0F
    else if k == 5 then 0x07 else if k == 6 then 0x03 else 0x01
  }

  /** The leading ones that announce `k` bytes. */
  function Prefix(k: nat): Byte {
    if k == 1 then 0x00 else if k == 2 then 0x80 else if k == 3 then 0xC0 else if k == 4 then 0xE0
    else if k == 5 then 0xF0 else if k == 6 then 0xF8 else if k == 7 then 0xFC else if k == 8 then 0xFE else 0xFF
  }

  /** `1 << (7 - k)`: the sign bit among the payload bits. */
  function SignBit(k: nat): Byte {
    if k == 1 then 0x40 else if k == 2 then 0x20 else if k == 3 then 0x10 else if k == 4 then 0x08
    else if k == 5 then 0x04 else if k == 6 then 0x02 else 0x01
  }

  /** `0xFF << (7 - k)`: what fills the first byte of a negative number. */
  function Fill(k: nat): Byte {
    if k == 1 then 0xC0 else if k == 2 then 0xE0 else if k == 3 then 0xF0 else if k == 4 then 0xF8
    else if k == 5 then 0xFC else if k == 6 then 0xFE else 0xFF
  }

  /** The `n` low bytes, most significant first. */
  function Low(v: bv64, n: nat): (r: seq<Byte>)
    requires n <= 8
    ensures |r| == n
  {
    seq(n, i requires 0 <= i < n => B(v, n - 1 - i))
  }

  function FirstByte(v: bv64, k: nat): Byte
    requires 1 <= k <= 8
  {
    (B(v, k - 1) & Mask(k)) | Prefix(k)
  }

  /** What `dump(i64)` writes. In the 8-byte class that is nine bytes, one more than it says. */
  function Dump64(v: bv64): (r: seq<Byte>)
    ensures |r| == if ValSize(v) < 8 then ValSize(v) else 9
  {
    var k := ValSize(v);
    if k < 8 then [FirstByte(v, k)] + Low(v, k - 1) else [Prefix(k)] + Low(v, 8)
  }

  /** What `dump(i32)` writes. */
  function Dump32(v: bv32): (r: seq<Byte>)
    ensures 1 <= |r| <= 5
  {
    if Fits32(v, 0x40) then [B32(v, 0) & 0x7F]
    else if Fits32(v, 0x2000) then [(B32(v, 1) & 0x3F) | 0x80, B32(v, 0)]
    else if Fits32(v, 0x10_0000) then [(B32(v, 2) & 0x1F) | 0xC0, B32(v, 1), B32(v, 0)]
    else if Fits32(v, 0x800_0000) then [(B32(v, 3) & 0x0F) | 0xE0, B32(v, 2), B32(v, 1), B32(v, 0)]
    else [if v & 0x8000_0000 != 0 then 0xF7 else 0xF0, B32(v, 3), B32(v, 2), B32(v, 1), B32(v, 0)]
  }

  function Join(p: seq<Byte>): bv64
    requires |p| == 8
  {
    (p[0] as bv64) | ((p[1] as bv64) << 8) | ((p[2] as bv64) << 16) | ((p[3] as bv64) << 24) |
    ((p[4] as bv64) << 32) | ((p[5] as bv64) << 40) | ((p[6] as bv64) << 48) | ((p[7] as bv64) << 56)
  }

  predicate Negative(f: Byte, k: nat) {
    f & Mask(k) & SignBit(k) != 0
  }

  /** The number's byte that is in the first byte `f` of its encoding. */
  function Top(f: Byte, k: nat): Byte {
    if Negative(f, k) then (f & Mask(k)) | Fill(k) else f & Mask(k)
  }

  /** The number's bytes that are not in its encoding. */
  function Pad(f: Byte, k: nat): Byte {
    if Negative(f, k) then 0xFF else 0
  }

  /** Byte `i` of the number in a buffer of class `k` below 8. */
  function Loaded(b: seq<Byte>, k: nat, i: nat): Byte
    requires 1 <= k <= |b|
  {
    if i < k - 1 then b[k - 1 - i] else if i == k - 1 then Top(b[0], k) else Pad(b[0], k)
  }

  function LoadedBytes(b: seq<Byte>, n: nat): (p: seq<Byte>)
    requires |b| >= n + 1
    ensures |p| == n
  {
    var k := BufSize(b[0]);
    if k < (if n < 8 then n + 1 else n) then seq(n, i requires 0 <= i < n => Loaded(b, k, i))
    else seq(n, i requires 0 <= i < n => b[n - i])
  }

  /** What `load_i64` makes of a buffer; from class 8 on it looks at nine bytes. */
  function Load64(b: seq<Byte>): bv64
    requires |b| >= 9
  {
    Join(LoadedBytes(b, 8))
  }

  function Join32(a: Byte, b: Byte, c: Byte, d: Byte): bv32 {
    (a as bv32) | ((b as bv32) << 8) | ((c as bv32) << 16) | ((d as bv32) << 24)
  }

  function Load32(b: seq<Byte>): bv32
    requires |b| >= 5
  {
    var p := LoadedBytes(b, 4);
    Join32(p[0], p[1], p[2], p[3])
  }

  // ---------- class by class ----------

  /** What the first byte of class `k` says, and that the bits above it are all the sign. */
  ghost predicate Faithful(v: bv64, k: nat)
    requires 1 <= k <= 7
  {
    var f := FirstByte(v, k);
    BufSize(f) == k && B(v, k - 1) == Top(f, k) && forall i | k <= i < 8 :: B(v, i) == Pad(f, k)
  }

  lemma {:induction false} Class1(v: bv64)
    requires Fits(v, 0x40)
    ensures Faithful(v, 1)
  {
    var neg := FirstByte(v, 1) & 0x7F & 0x40 != 0;
    assert B(v, 1) == (if neg then 0xFF else 0) && B(v, 2) == (if neg then 0xFF else 0);
    assert B(v, 3) == (if neg then 0xFF else 0) && B(v, 4) == (if neg then 0xFF else 0);
    assert B(v, 5) == (if neg then 0xFF else 0) && B(v, 6) == (if neg then 0xFF else 0);
  }

  lemma {:induction false} Class2(v: bv64)
    requires Fits(v, 0x2000)
    ensures Faithful(v, 2)
  {
    var neg := FirstByte(v, 2) & 0x3F & 0x20 != 0;
    assert B(v, 2) == (if neg then 0xFF else 0) && B(v, 3) == (if neg then 0xFF else 0);
    assert B(v, 4) == (if neg then 0xFF else 0) && B(v, 5) == (if neg then 0xFF else 0);
    assert B(v, 6) == (if neg then 0xFF else 0);
  }

  lemma {:induction false} Class3(v: bv64)
    requires Fits(v, 0x10_0000)
    ensures Faithful(v, 3)
  {
    var neg := FirstByte(v, 3) & 0x1F & 0x10 != 0;
    assert B(v, 3) == (if neg then 0xFF else 0) && B(v, 4) == (if neg then 0xFF else 0);
    assert B(v, 5) == (if neg then 0xFF else 0) && B(v, 6) == (if neg then 0xFF else 0);
  }

  lemma {:induction false} Class4(v: bv64)
    requires Fits(v, 0x800_0000)
    ensures Faithful(v, 4)
  {
    var neg := FirstByte(v, 4) & 0x0F & 0x08 != 0;
    assert B(v, 4) == (if neg then 0xFF else 0) && B(v, 5) == (if neg then 0xFF else 0);
    assert B(v, 6) == (if neg then 0xFF else 0);
  }

  lemma {:induction false} Class5(v: bv64)
    requires Fits(v, 0x4_0000_0000)
    ensures Faithful(v, 5)
  {
    var neg := FirstByte(v, 5) & 0x07 & 0x04 != 0;
    assert B(v, 5) == (if neg then 0xFF else 0) && B(v, 6) == (if neg then 0xFF else 0);
  }

  lemma {:induction false} Class6(v: bv64)
    requires Fits(v, 0x200_0000_0000)
    ensures Faithful(v, 6)
  {
    var neg := FirstByte(v, 6) & 0x03 & 0x02 != 0;
    assert B(v, 6) == (if neg then 0xFF else 0);
  }

  lemma {:induction false} Class7(v: bv64)
    requires Fits(v, 0x1_0000_0000_0000)
    ensures Faithful(v, 7)
  {
  }

  lemma {:induction false} ClassFaithful(v: bv64)
    requires ValSize(v) < 8
    ensures Faithful(v, ValSize(v))
  {
    hide Faithful, Fits;
    if Fits(v, 0x40) {
      Class1(v);
    } else if Fits(v, 0x2000) {
      Class2(v);
    } else if Fits(v, 0x10_0000) {
      Class3(v);
    } else if Fits(v, 0x800_0000) {
      Class4(v);
    } else if Fits(v, 0x4_0000_0000) {
      Class5(v);
    } else if Fits(v, 0x200_0000_0000) {
      Class6(v);
    } else {
      Class7(v);
    }
  }

  lemma {:induction false} JoinBytes(v: bv64, p: seq<Byte>)
    requires |p| == 8 && forall i | 0 <= i < 8 :: p[i] == B(v, i)
    ensures Join(p) == v
  {
    assert p[0] == B(v, 0) && p[1] == B(v, 1) && p[2] == B(v, 2) && p[3] == B(v, 3);
    assert p[4] == B(v, 4) && p[5] == B(v, 5) && p[6] == B(v, 6) && p[7] == B(v, 7);
  }

  // ---------- the properties ----------

  /** The 8-byte class. */
  predicate Eight(v: bv64) {
    ValSize(v) == 8
  }

  /** The size of a value, the size `dump` returns and the size its first byte announces are one. */
  lemma {:induction false} SizesAgree(v: bv64)
    ensures BufSize(Dump64(v)[0]) == ValSize(v)
  {
    hide ValSize, Top, Pad, B, FirstByte;
    if ValSize(v) < 8 {
      ClassFaithful(v);
    }
  }

  /** Below the 8-byte class every loaded byte is the value's own. */
  lemma {:induction false} LoadedByte(v: bv64, rest: seq<Byte>, i: nat)
    requires ValSize(v) < 8 && i < 8
    ensures Loaded(Dump64(v) + rest, ValSize(v), i) == B(v, i)
  {
    hide ValSize, Top, Pad, B, BufSize, FirstByte;
    var k, d := ValSize(v), Dump64(v);
    ClassFaithful(v);
    assert (d + rest)[0] == d[0] == FirstByte(v, k);
    if i < k - 1 {
      assert (d + rest)[k - 1 - i] == d[k - 1 - i] == Low(v, k - 1)[k - 2 - i];
    }
  }

  /** Reading back all that `dump` wrote, with anything behind it. */
  lemma {:induction false} RoundTrip64(v: bv64, rest: seq<Byte>)
    requires |Dump64(v)| + |rest| >= 9
    ensures Load64(Dump64(v) + rest) == v
  {
    hide ValSize, B, Join, BufSize, Loaded;
    var k, b := ValSize(v), Dump64(v) + rest;
    SizesAgree(v);
    assert b[0] == Dump64(v)[0];
    var p := LoadedBytes(b, 8);
    forall i | 0 <= i < 8 ensures p[i] == B(v, i) {
      if k < 8 {
        LoadedByte(v, rest, i);
      } else {
        assert b[8 - i] == Low(v, 8)[7 - i];
      }
    }
    JoinBytes(v, p);
  }

  /** `v` with another low byte. */
  function WithLow(v: bv64, b: Byte): bv64 {
    (v & 0xFFFF_FFFF_FFFF_FF00) | (b as bv64)
  }

  lemma {:induction false} WithLowFirst(v: bv64, b: Byte)
    ensures B(WithLow(v, b), 0) == b
    ensures WithLow(v, b) == v <==> b == B(v, 0)
  {
  }

  lemma {:induction false} WithLowOther(v: bv64, b: Byte, i: nat)
    requires 1 <= i < 8
    ensures B(WithLow(v, b), i) == B(v, i)
  {
    var w := WithLow(v, b);
    assert w & 0xFFFF_FFFF_FFFF_FF00 == v & 0xFFFF_FFFF_FFFF_FF00;
    OtherBytes(w, v, i);
  }

  lemma {:induction false} OtherBytes(w: bv64, v: bv64, i: nat)
    requires 1 <= i < 8 && w & 0xFFFF_FFFF_FFFF_FF00 == v & 0xFFFF_FFFF_FFFF_FF00
    ensures B(w, i) == B(v, i)
  {
    assert w >> 8 == v >> 8;
    HigherByte(w, i);
    HigherByte(v, i);
  }

  lemma {:induction false} HigherByte(v: bv64, i: nat)
    requires 1 <= i < 8
    ensures B(v, i) == B(v >> 8, i - 1)
  {
  }

  /** The bounds of the 8-byte class are multiples of 256. */
  lemma {:induction false} EightWithLow(v: bv64, b: Byte)
    requires Eight(v)
    ensures Eight(WithLow(v, b))
  {
  }

  /** Reading just the eight bytes `dump` claims in its 8-byte class gives whatever byte comes next as the low one. */
  lemma {:induction false} EightLoads(v: bv64, rest: seq<Byte>)
    requires Eight(v) && rest != []
    ensures Load64(Dump64(v)[..8] + rest) == WithLow(v, rest[0])
  {
    hide ValSize, B, Join, BufSize, WithLow;
    var b := Dump64(v)[..8] + rest;
    SizesAgree(v);
    assert b[0] == Dump64(v)[0];
    var p := LoadedBytes(b, 8);
    WithLowFirst(v, rest[0]);
    forall i | 0 <= i < 8 ensures p[i] == B(WithLow(v, rest[0]), i) {
      if i > 0 {
        assert b[8 - i] == Low(v, 8)[7 - i];
        WithLowOther(v, rest[0], i);
      }
    }
    JoinBytes(WithLow(v, rest[0]), p);
  }

  /** So the value is lost unless that byte happens to be the one left out. */
  lemma {:induction false} EightIff(v: bv64, rest: seq<Byte>)
    requires Eight(v) && rest != []
    ensures Load64(Dump64(v)[..8] + rest) == v <==> rest[0] == B(v, 0)
  {
    hide Load64, Dump64, WithLow, B;
    EightLoads(v, rest);
    WithLowFirst(v, rest[0]);
  }

  /** 281474976710657 is read back as 281474976710656 when a zero follows. */
  lemma {:induction false} ByteCanBeLost()
    ensures var v: bv64 := 0x1_0000_0000_0001;
            Eight(v) && Load64(Dump64(v)[..8] + [0]) == 0x1_0000_0000_0000
  {
    hide Load64, Dump64;
    var v: bv64 := 0x1_0000_0000_0001;
    assert Eight(v);
    EightLoads(v, [0]);
    assert WithLow(v, 0) == 0x1_0000_0000_0000;
  }

  // ---------- no byte too many, and in which order ----------

  lemma {:induction false} Payload1(f: Byte)
    ensures Fits(Join([Top(f, 1), Pad(f, 1), Pad(f, 1), Pad(f, 1), Pad(f, 1), Pad(f, 1), Pad(f, 1), Pad(f, 1)]), 0x40)
  {
  }

  lemma {:induction false} Payload2(p0: Byte, f: Byte)
    ensures Fits(Join([p0, Top(f, 2), Pad(f, 2), Pad(f, 2), Pad(f, 2), Pad(f, 2), Pad(f, 2), Pad(f, 2)]), 0x2000)
  {
  }

  lemma {:induction false} Payload3(p0: Byte, p1: Byte, f: Byte)
    ensures Fits(Join([p0, p1, Top(f, 3), Pad(f, 3), Pad(f, 3), Pad(f, 3), Pad(f, 3), Pad(f, 3)]), 0x10_0000)
  {
  }

  lemma {:induction false} Payload4(p0: Byte, p1: Byte, p2: Byte, f: Byte)
    ensures Fits(Join([p0, p1, p2, Top(f, 4), Pad(f, 4), Pad(f, 4), Pad(f, 4), Pad(f, 4)]), 0x800_0000)
  {
  }

  lemma {:induction false} Payload5(p0: Byte, p1: Byte, p2: Byte, p3: Byte, f: Byte)
    ensures Fits(Join([p0, p1, p2, p3, Top(f, 5), Pad(f, 5), Pad(f, 5), Pad(f, 5)]), 0x4_0000_0000)
  {
  }

  lemma {:induction false} Payload6(p0: Byte, p1: Byte, p2: Byte, p3: Byte, p4: Byte, f: Byte)
    ensures Fits(Join([p0, p1, p2, p3, p4, Top(f, 6), Pad(f, 6), Pad(f, 6)]), 0x200_0000_0000)
  {
  }

  lemma {:induction false} Payload7(p0: Byte, p1: Byte, p2: Byte, p3: Byte, p4: Byte, p5: Byte, f: Byte)
    ensures Fits(Join([p0, p1, p2, p3, p4, p5, Top(f, 7), Pad(f, 7)]), 0x1_0000_0000_0000)
  {
  }

  /** The bytes of what is read from a buffer of class `k`. */
  lemma {:induction false} ClassBytes(b: seq<Byte>, k: nat)
    requires |b| >= 9 && BufSize(b[0]) == k < 8
    ensures forall i | 0 <= i < 8 :: LoadedBytes(b, 8)[i] == Loaded(b, k, i)
  {
    hide BufSize, Top, Pad;
  }

  lemma {:induction false} Read1(b: seq<Byte>)
    requires |b| >= 9 && BufSize(b[0]) == 1
    ensures Fits(Load64(b), 0x40)
  {
    hide Fits, Join, Top, Pad, BufSize, LoadedBytes;
    ClassBytes(b, 1);
    var p := LoadedBytes(b, 8);
    Payload1(b[0]);
    var x := Pad(b[0], 1);
    assert p == [Top(b[0], 1), x, x, x, x, x, x, x];
  }

  lemma {:induction false} Read2(b: seq<Byte>)
    requires |b| >= 9 && BufSize(b[0]) == 2
    ensures Fits(Load64(b), 0x2000)
  {
    hide Fits, Join, Top, Pad, BufSize, LoadedBytes;
    ClassBytes(b, 2);
    var p := LoadedBytes(b, 8);
    Payload2(p[0], b[0]);
    var x := Pad(b[0], 2);
    assert p == [p[0], Top(b[0], 2), x, x, x, x, x, x];
  }

  lemma {:induction false} Read3(b: seq<Byte>)
    requires |b| >= 9 && BufSize(b[0]) == 3
    ensures Fits(Load64(b), 0x10_0000)
  {
    hide Fits, Join, Top, Pad, BufSize, LoadedBytes;
    ClassBytes(b, 3);
    var p := LoadedBytes(b, 8);
    Payload3(p[0], p[1], b[0]);
    assert p == [p[0], p[1], Top(b[0], 3), Pad(b[0], 3), Pad(b[0], 3), Pad(b[0], 3), Pad(b[0], 3), Pad(b[0], 3)];
  }

  lemma {:induction false} Read4(b: seq<Byte>)
    requires |b| >= 9 && BufSize(b[0]) == 4
    ensures Fits(Load64(b), 0x800_0000)
  {
    hide Fits, Join, Top, Pad, BufSize, LoadedBytes;
    ClassBytes(b, 4);
    var p := LoadedBytes(b, 8);
    Payload4(p[0], p[1], p[2], b[0]);
    assert p == [p[0], p[1], p[2], Top(b[0], 4), Pad(b[0], 4), Pad(b[0], 4), Pad(b[0], 4), Pad(b[0], 4)];
  }

  lemma {:induction false} Read5(b: seq<Byte>)
    requires |b| >= 9 && BufSize(b[0]) == 5
    ensures Fits(Load64(b), 0x4_0000_0000)
  {
    hide Fits, Join, Top, Pad, BufSize, LoadedBytes;
    ClassBytes(b, 5);
    var p := LoadedBytes(b, 8);
    Payload5(p[0], p[1], p[2], p[3], b[0]);
    assert p == [p[0], p[1], p[2], p[3], Top(b[0], 5), Pad(b[0], 5), Pad(b[0], 5), Pad(b[0], 5)];
  }

  lemma {:induction false} Read6(b: seq<Byte>)
    requires |b| >= 9 && BufSize(b[0]) == 6
    ensures Fits(Load64(b), 0x200_0000_0000)
  {
    hide Fits, Join, Top, Pad, BufSize, LoadedBytes;
    ClassBytes(b, 6);
    var p := LoadedBytes(b, 8);
    Payload6(p[0], p[1], p[2], p[3], p[4], b[0]);
    assert p == [p[0], p[1], p[2], p[3], p[4], Top(b[0], 6), Pad(b[0], 6), Pad(b[0], 6)];
  }

  lemma {:induction false} Read7(b: seq<Byte>)
    requires |b| >= 9 && BufSize(b[0]) == 7
    ensures Fits(Load64(b), 0x1_0000_0000_0000)
  {
    hide Fits, Join, Top, Pad, BufSize, LoadedBytes;
    ClassBytes(b, 7);
    var p := LoadedBytes(b, 8);
    Payload7(p[0], p[1], p[2], p[3], p[4], p[5], b[0]);
    assert p == [p[0], p[1], p[2], p[3], p[4], p[5], Top(b[0], 7), Pad(b[0], 7)];
  }

  /** What is read from a buffer of class `k` fits that class, so no shorter buffer reads as a value of it. */
  lemma {:induction false} LeastSize(b: seq<Byte>)
    requires |b| >= 9 && BufSize(b[0]) < 8
    ensures ValSize(Load64(b)) <= BufSize(b[0])
  {
    hide Fits, BufSize, Load64;
    var k := BufSize(b[0]);
    if k == 1 {
      Read1(b);
    } else if k == 2 {
      Read2(b);
    } else if k == 3 {
      Read3(b);
    } else if k == 4 {
      Read4(b);
    } else if k == 5 {
      Read5(b);
    } else if k == 6 {
      Read6(b);
    } else if k == 7 {
      Read7(b);
    }
  }

  /** `dump` writes the bytes of the value with the highest first, the first one sharing its byte with the size. */
  lemma {:induction false} HighFirst(v: bv64, i: nat)
    requires i < |Dump64(v)| && i < 8
    ensures var d, k := Dump64(v), ValSize(v);
            if i + 1 < |d| then d[|d| - 1 - i] == B(v, i)
            else d[0] & Mask(k) == B(v, i) & Mask(k) && d[0] & !Mask(k) == Prefix(k)
  {
    hide ValSize, B;
    var d, k := Dump64(v), ValSize(v);
    if i + 1 == |d| {
      FirstParts(B(v, k - 1), k);
    }
  }

  lemma {:induction false} FirstParts(x: Byte, k: nat)
    requires 1 <= k <= 7
    ensures var f := (x & Mask(k)) | Prefix(k); f & Mask(k) == x & Mask(k) && f & !Mask(k) == Prefix(k)
  {
  }

  // ---------- 32 bits ----------

  lemma {:induction false} SameBytes(v: bv32)
    ensures B32(v, 0) == B(Sext(v), 0) && B32(v, 1) == B(Sext(v), 1)
    ensures B32(v, 2) == B(Sext(v), 2) && B32(v, 3) == B(Sext(v), 3)
  {
  }

  lemma {:induction false} SameClass(v: bv32)
    ensures Fits32(v, 0x40) == Fits(Sext(v), 0x40) && Fits32(v, 0x2000) == Fits(Sext(v), 0x2000)
    ensures Fits32(v, 0x10_0000) == Fits(Sext(v), 0x10_0000) && Fits32(v, 0x800_0000) == Fits(Sext(v), 0x800_0000)
    ensures Fits(Sext(v), 0x4_0000_0000)
  {
  }

  lemma {:induction false} FifthByte(v: bv32)
    ensures FirstByte(Sext(v), 5) == if v & 0x8000_0000 != 0 then 0xF7 else 0xF0
  {
  }

  /** `dump(i32)` is `dump(i64)` of the same number, and never in the 8-byte class. */
  lemma {:induction false} DumpsAgree(v: bv32)
    ensures Dump32(v) == Dump64(Sext(v)) && ValSize(Sext(v)) <= 5
  {
    SameBytes(v);
    SameClass(v);
    FifthByte(v);
    hide B, B32, Fits, Fits32, Sext;
    var k := ValSize(Sext(v));
    assert Dump64(Sext(v)) == [FirstByte(Sext(v), k)] + Low(Sext(v), k - 1);
  }

  lemma {:induction false} JoinBytes32(v: bv32)
    ensures Join32(B32(v, 0), B32(v, 1), B32(v, 2), B32(v, 3)) == v
  {
    assert B32(v, 0) == (v & 0xFF) as bv8 && B32(v, 1) == ((v >> 8) & 0xFF) as bv8;
    assert B32(v, 2) == ((v >> 16) & 0xFF) as bv8 && B32(v, 3) == ((v >> 24) & 0xFF) as bv8;
  }

  lemma {:induction false} RoundTrip32(v: bv32, rest: seq<Byte>)
    requires |Dump32(v)| + |rest| >= 5
    ensures Load32(Dump32(v) + rest) == v
  {
    hide ValSize, B, B32, Join32, BufSize, Loaded, Dump32, Sext;
    DumpsAgree(v);
    var x := Sext(v);
    var k, b := ValSize(x), Dump64(x) + rest;
    SizesAgree(x);
    assert b[0] == Dump64(x)[0];
    var p := LoadedBytes(b, 4);
    forall i | 0 <= i < 4 ensures p[i] == B(x, i) {
      if k < 5 {
        LoadedByte(x, rest, i);
      } else {
        assert b[4 - i] == Low(x, 4)[3 - i];
      }
    }
    SameBytes(v);
    JoinBytes32(v);
  }

  // ---------- in a packet ----------

  /** Reading a `v64` from a stream: the first byte tells how many bytes to take. */
  function TakeSize(s: seq<Byte>): nat
    requires s != []
  {
    BufSize(s[0])
  }

  /** What `Marshal <<` sends of a `v64`: as many bytes as `dump` says it wrote. */
  function Sent(v: bv64): (r: seq<Byte>)
    ensures |r| == ValSize(v)
  {
    Dump64(v)[..ValSize(v)]
  }

  /**
   A `v64` from a stream: the first byte tells how many bytes to take into the buffer, and `junk` is what the
   buffer held before. The value read has the size that was taken, and is the one sent unless a byte was lost.
   */
  lemma {:induction false} TakeSent(v: bv64, rest: seq<Byte>, junk: seq<Byte>)
    requires |junk| >= 8
    ensures var s, n := Sent(v) + rest, |Sent(v)|;
            && TakeSize(s) == n && s[n..] == rest
            && ValSize(Load64(s[..n] + junk)) == n
            && (Load64(s[..n] + junk) == v <==> !Eight(v) || junk[0] == B(v, 0))
  {
    hide ValSize, Dump64, BufSize, Load64, B;
    SizesAgree(v);
    var s, n := Sent(v) + rest, ValSize(v);
    assert s[0] == Dump64(v)[0] && s[..n] == Sent(v) && s[n..] == rest;
    if Eight(v) {
      EightLoads(v, junk);
      EightIff(v, junk);
      EightWithLow(v, junk[0]);
    } else {
      assert Sent(v) == Dump64(v);
      RoundTrip64(v, junk);
    }
  }

  /**
   What the client takes for the length of a reply, from the sizes of the transaction id and the error code as
   read, is the length of what follows them: even for ids that are read back wrong.
   */
  lemma {:induction false} ReplyLength(xid: bv64, error: bv32, payload: seq<Byte>, junk: seq<Byte>, junk': seq<Byte>)
    requires |junk| >= 8 && |junk'| >= 4
    ensures var packet := Sent(xid) + Dump32(error) + payload;
            var n, m := |Sent(xid)|, |Dump32(error)|;
            var x, e := Load64(packet[..n] + junk), Load32(packet[n..n + m] + junk');
            && TakeSize(packet) == n && TakeSize(packet[n..]) == m
            && packet[n + m..] == payload && |packet| - ValSize(x) - ValSize(Sext(e)) == |payload|
            && e == error && (x == xid <==> !Eight(xid) || junk[0] == B(xid, 0))
  {
    hide ValSize, Dump32, Dump64, BufSize, Sent, Load64, Load32, B;
    var packet := Sent(xid) + Dump32(error) + payload;
    var tail := Dump32(error) + payload;
    assert packet == Sent(xid) + tail;
    TakeSent(xid, tail, junk);
    DumpsAgree(error);
    SizesAgree(Sext(error));
    var n, m := |Sent(xid)|, |Dump32(error)|;
    assert packet[n..] == tail && tail[0] == Dump32(error)[0];
    assert TakeSize(tail) == m == ValSize(Sext(error));
    assert packet[n..n + m] == tail[..m] == Dump32(error);
    assert packet[n + m..] == tail[m..] == payload;
    RoundTrip32(error, junk');
  }
}

/** The encoder and the decoder as implemented, on byte buffers. */
module SparseIntBuffers {
  import opened SparseInt

  /** Puts the `n` low bytes of `v` behind each other, most significant first. */
  method PutLow(v: bv64, buf: array<Byte>, n: nat)
    requires n <= 8 && n + 1 <= buf.Length
    modifies buf
    ensures buf[0] == old(buf[0]) && buf[1..n + 1] == Low(v, n)
  {
    hide B;
    var i := 0;
    while i < n
      invariant 0 <= i <= n && buf[0] == old(buf[0])
      invariant forall j | 1 <= j <= i :: buf[j] == B(v, n - j)
    {
      buf[i + 1] := B(v, n - 1 - i);
      i := i + 1;
    }
  }

  /** `dump(i64)`: returns the size it announces. */
  method DumpI64(v: bv64, buf: array<Byte>) returns (n: nat)
    requires buf.Length >= 9
    modifies buf
    ensures n == ValSize(v) && buf[..|Dump64(v)|] == Dump64(v)
  {
    hide B, ValSize, Mask, Prefix;
    n := ValSize(v);
    if n < 8 {
      PutLow(v, buf, n - 1);
      buf[0] := B(v, n - 1);
      buf[0] := buf[0] & Mask(n);
      buf[0] := buf[0] | Prefix(n);
      assert buf[..n] == [buf[0]] + buf[1..n];
    } else {
      PutLow(v, buf, 8);
      buf[0] := Prefix(n);
      assert buf[..9] == [buf[0]] + buf[1..9];
    }
  }

  /** The first `k` bytes of `pv` are those of `buf` from position `last` down. */
  method CopyReversed(buf: array<Byte>, pv: array<Byte>, k: nat, last: nat)
    requires buf != pv && k <= pv.Length && last < buf.Length && k <= last + 1
    modifies pv
    ensures forall j | 0 <= j < k :: pv[j] == buf[last - j]
    ensures forall j | k <= j < pv.Length :: pv[j] == old(pv[j])
  {
    var i := 0;
    while i < k
      invariant 0 <= i <= k
      invariant forall j | 0 <= j < i :: pv[j] == buf[last - j]
      invariant forall j | i <= j < pv.Length :: pv[j] == old(pv[j])
    {
      pv[i] := buf[last - i];
      i := i + 1;
    }
  }

  /** Makes of the `k` bytes of a buffer a number of all bytes: strips the prefix and extends the sign. */
  method ExtendSign(pv: array<Byte>, k: nat)
    requires 1 <= k <= pv.Length
    modifies pv
    requires forall j | k <= j < pv.Length :: pv[j] == 0
    ensures forall j | 0 <= j < k - 1 :: pv[j] == old(pv[j])
    ensures pv[k - 1] == Top(old(pv[k - 1]), k)
    ensures forall j | k <= j < pv.Length :: pv[j] == Pad(old(pv[k - 1]), k)
  {
    hide Top, Pad, Negative;
    var f := pv[k - 1];
    PadOf(f, k);
    pv[k - 1] := Top(f, k);
    if Negative(f, k) {
      FillWith(pv, k, 0xFF);
    }
  }

  lemma {:induction false} PadOf(f: Byte, k: nat)
    ensures Pad(f, k) == if Negative(f, k) then 0xFF else 0
  {
    hide Negative;
  }

  method FillWith(pv: array<Byte>, k: nat, x: Byte)
    requires k <= pv.Length
    modifies pv
    ensures forall j | 0 <= j < k :: pv[j] == old(pv[j])
    ensures forall j | k <= j < pv.Length :: pv[j] == x
  {
    var i := k;
    while i < pv.Length
      invariant k <= i <= pv.Length
      invariant forall j | 0 <= j < k :: pv[j] == old(pv[j])
      invariant forall j | k <= j < i :: pv[j] == x
    {
      pv[i] := x;
      i := i + 1;
    }
  }

  /** `load_i64`, and with `n` 4 `load_i32`: the bytes of the number, least significant first. */
  method LoadBytes(buf: array<Byte>, n: nat) returns (pv: array<Byte>)
    requires (n == 8 || n == 4) && buf.Length >= n + 1
    ensures fresh(pv) && pv.Length == n && pv[..] == LoadedBytes(buf[..], n)
  {
    hide Top, Pad, BufSize;
    pv := new Byte[n](_ => 0);
    var k := BufSize(buf[0]);
    if k < (if n < 8 then n + 1 else n) {
      CopyReversed(buf, pv, k, k - 1);
      ExtendSign(pv, k);
    } else {
      CopyReversed(buf, pv, n, n);
    }
  }

  method LoadI64(buf: array<Byte>) returns (v: bv64)
    requires buf.Length >= 9
    ensures v == Load64(buf[..])
  {
    hide Join, LoadedBytes;
    var pv := LoadBytes(buf, 8);
    v := Join(pv[..]);
  }

  method LoadI32(buf: array<Byte>) returns (v: bv32)
    requires buf.Length >= 5
    ensures v == Load32(buf[..])
  {
    hide Join32, LoadedBytes;
    var pv := LoadBytes(buf, 4);
    assert pv[..][0] == pv[0] && pv[..][1] == pv[1] && pv[..][2] == pv[2] && pv[..][3] == pv[3];
    v := Join32(pv[0], pv[1], pv[2], pv[3]);
  }
}
