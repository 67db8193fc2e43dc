/** The hand-written X25519 of mesh-crypto.ts: byte codecs, field inversion and the Montgomery ladder. */
module X25519 {
  import opened ModularArithmetic
  import opened Fermat

  type byte = b: int | 0 <= b < 0x100

  // 2^255 - 19
  const P: int := 0x7fff_ffff_ffff_ffff_ffff_ffff_ffff_ffff_ffff_ffff_ffff_ffff_ffff_ffff_ffff_ffed
  const TWO_248: int := 0x100_0000_0000_0000_0000_0000_0000_0000_0000_0000_0000_0000_0000_0000_0000_0000
  const TWO_254: int := 0x4000_0000_0000_0000_0000_0000_0000_0000_0000_0000_0000_0000_0000_0000_0000_0000
  const TWO_255: int := 0x8000_0000_0000_0000_0000_0000_0000_0000_0000_0000_0000_0000_0000_0000_0000_0000
  const A24 := 121665

  /** BigInt of a missing byte throws. */
  datatype Outcome<T> = Returned(value: T) | TypeError

  // ---- Little-endian numbers ----

  function LittleEndian(s: seq<byte>): (n: nat) {
    if s == [] then 0 else s[0] + 0x100 * LittleEndian(s[1..])
  }

  lemma {:induction false} LittleEndianAppend(s: seq<byte>, b: byte)
    ensures LittleEndian(s + [b]) == LittleEndian(s) + Pow(0x100, |s|) * b
  {
    if s == [] {
      assert s + [b] == [b];
      assert LittleEndian([b][1..]) == 0;
    } else {
      LittleEndianAppend(s[1..], b);
      assert (s + [b])[1..] == s[1..] + [b];
      assert 0x100 * (Pow(0x100, |s| - 1) * b) == (0x100 * Pow(0x100, |s| - 1)) * b;
    }
  }

  lemma {:induction false} LittleEndianBound(s: seq<byte>)
    ensures LittleEndian(s) < Pow(0x100, |s|)
  {
    if s != [] { LittleEndianBound(s[1..]); }
  }

  lemma ByteCapacities()
    ensures Pow(0x100, 31) == TWO_248 && Pow(0x100, 32) == 2 * TWO_255
    ensures 0x40 * TWO_248 == TWO_254 && 2 * TWO_254 == TWO_255
    ensures P + 19 == TWO_255
  {
    assert Pow(0x100, 1) == 0x100;
    PowAdd(0x100, 1, 1);
    PowAdd(0x100, 2, 2);
    PowAdd(0x100, 4, 4);
    PowAdd(0x100, 8, 8);
    PowAdd(0x100, 16, 8);
    PowAdd(0x100, 24, 4);
    PowAdd(0x100, 28, 2);
    PowAdd(0x100, 30, 1);
    PowAdd(0x100, 31, 1);
  }

  /** A 32-byte number split at its two end bytes, the only ones clamping touches. */
  lemma LittleEndianEnds(s: seq<byte>)
    requires |s| == 32
    ensures LittleEndian(s) == s[0] + 0x100 * LittleEndian(s[1..31]) + TWO_248 * s[31]
    ensures 0 <= s[0] + 0x100 * LittleEndian(s[1..31]) < TWO_248
  {
    ByteCapacities();
    assert s == s[..31] + [s[31]];
    LittleEndianAppend(s[..31], s[31]);
    LittleEndianBound(s[..31]);
    assert s[..31][1..] == s[1..31];
  }

  // ---- Field elements ----

  /** The remainder operator of the source truncates towards zero. */
  function TruncatedRemainder(x: int, m: int): int
    requires m > 0
  {
    if x >= 0 then x % m else -((-x) % m)
  }

  /** The one representative of x in [0, P), for negative x too. */
  function FeMod(x: int): (r: int)
    ensures 0 <= r < P && r == x % P && Cong(r, x, P)
  {
    var t := TruncatedRemainder(x, P);
    assert x == P * (x / P) + x % P;
    if x < 0 then
      NegatedRemainder(x, P);
      if t >= 0 then t else t + P
    else
      if t >= 0 then t else t + P
  }

  lemma NegatedRemainder(x: int, m: int)
    requires m > 0 && x < 0
    ensures (-x) % m == if x % m == 0 then 0 else m - x % m
  {
    var q, r := x / m, x % m;
    if r == 0 {
      DivModUnique(-x, m, -q, 0);
    } else {
      assert m * (-q - 1) == -(m * q) - m;
      DivModUnique(-x, m, -q - 1, m - r);
    }
  }

  function Inverse(x: int): int {
    Pow(x, P - 2) % P
  }

  /** Square and multiply over the bits of P - 2. */
  method FeInv(x: int) returns (result: int)
    ensures result == Inverse(x)
  {
    hide FeMod;
    var base := FeMod(x);
    var exp := P - 2;
    result := 1;
    CongPow(base, x, P - 2, P);
    while exp > 0
      invariant exp >= 0 && 0 <= result < P && 0 <= base < P
      invariant Cong(result * Pow(base, exp), Pow(x, P - 2), P)
    {
      ghost var r0, b0, e0 := result, base, exp;
      if exp % 2 == 1 {
        result := FeMod(result * base);
      }
      base := FeMod(base * base);
      exp := exp / 2;
      SquareAndMultiply(r0, b0, e0, result, base);
    }
    assert result * Pow(base, 0) == result;
  }

  lemma SquareAndMultiply(r: int, b: int, e: int, r': int, b': int)
    requires e > 0 && Cong(b', b * b, P)
    requires if e % 2 == 1 then Cong(r', r * b, P) else r' == r
    ensures Cong(r' * Pow(b', e / 2), r * Pow(b, e), P)
  {
    var h := e / 2;
    CongPow(b', b * b, h, P);
    PowSquare(b, h);
    if e % 2 == 1 {
      assert Pow(b, e) == b * Pow(b, 2 * h);
      CongMul(r', r * b, Pow(b', h), Pow(b, 2 * h), P);
      assert (r * b) * Pow(b, 2 * h) == r * (b * Pow(b, 2 * h));
    } else {
      CongMul(r', r, Pow(b', h), Pow(b, 2 * h), P);
    }
  }

  /** With P prime, Inverse inverts every nonzero element and sends zero to zero. */
  lemma InverseIsFieldInverse(x: int)
    requires IsPrime(P)
    ensures x % P != 0 ==> (x * Inverse(x)) % P == 1
    ensures x % P == 0 ==> Inverse(x) == 0
  {
    if x % P != 0 {
      FermatInverse(P, x);
      CongMul(x, x, Pow(x, P - 2) % P, Pow(x, P - 2), P);
    } else {
      CongPow(x, 0, P - 2, P);
      PowZero(P - 2);
    }
  }

  // ---- Byte codecs ----

  /** What the u-coordinate decoder reads: the top bit is ignored. */
  function DecodedU(n: nat): (u: nat)
    ensures u < TWO_255
  {
    n % TWO_255
  }

  method DecodeUCoord(bytes: array<byte>) returns (r: Outcome<int>)
    ensures r == if bytes.Length < 32 then TypeError else Returned(DecodedU(LittleEndian(bytes[..32])))
  {
    var masked := new byte[bytes.Length](i requires 0 <= i < bytes.Length reads bytes => bytes[i]);
    if masked.Length <= 31 { return TypeError; }  // the loop starts at byte 31
    masked[31] := masked[31] % 0x80;  // & 0x7f
    var u: int := 0;
    var i := 32;
    assert masked[32..32] == [];
    while i > 0
      invariant 0 <= i <= 32
      invariant u == LittleEndian(masked[i..32])
    {
      i := i - 1;
      u := u * 0x100 + masked[i];
      assert masked[i..32][1..] == masked[i + 1..32];
    }
    TopBitIgnored(bytes[..32], masked[..32]);
    r := Returned(u);
  }

  lemma TopBitIgnored(s: seq<byte>, m: seq<byte>)
    requires |s| == |m| == 32 && m == s[31 := s[31] % 0x80]
    ensures LittleEndian(m) == DecodedU(LittleEndian(s))
  {
    LittleEndianEnds(s);
    LittleEndianEnds(m);
    ByteCapacities();
    assert m[1..31] == s[1..31];
    DivModUnique(LittleEndian(s), TWO_255, s[31] / 0x80, LittleEndian(m));
  }

  method EncodeUCoord(u: int) returns (bytes: array<byte>)
    ensures fresh(bytes) && bytes.Length == 32
    ensures LittleEndian(bytes[..]) == u % P
  {
    bytes := new byte[32];
    var v := FeMod(u);
    var i := 0;
    while i < 32
      invariant 0 <= i <= 32 && v >= 0
      invariant LittleEndian(bytes[..i]) + Pow(0x100, i) * v == u % P
    {
      var low := v % 0x100;
      LittleEndianAppend(bytes[..i], low);
      bytes[i] := low;
      assert bytes[..i + 1] == bytes[..i] + [low];
      assert Pow(0x100, i) * v == Pow(0x100, i) * low + Pow(0x100, i + 1) * (v / 0x100) by {
        assert v == 0x100 * (v / 0x100) + low;
        ByteShift(Pow(0x100, i), v / 0x100, low);
      }
      v := v / 0x100;
      i := i + 1;
    }
    ByteCapacities();
    assert bytes[..] == bytes[..32];
  }

  lemma ByteShift(w: int, q: int, r: int)
    ensures w * (0x100 * q + r) == w * r + (0x100 * w) * q
  {
  }

  /** Decoding an encoded coordinate gives its canonical representative, for every integer. */
  method EncodeThenDecode(u: int) returns (v: int)
    ensures v == FeMod(u)
  {
    var bytes := EncodeUCoord(u);
    assert bytes[..32] == bytes[..];
    var decoded := DecodeUCoord(bytes);
    v := decoded.value;
  }

  function Clamped(n: nat): (k: nat) {
    TWO_254 + n % TWO_254 / 8 * 8
  }

  /** RFC 7748, section 5: a multiple of eight in [2^254, 2^255) that keeps bits 3 to 253. */
  lemma ClampedRange(n: nat)
    ensures TWO_254 <= Clamped(n) < TWO_255 && Clamped(n) % 8 == 0
    ensures Clamped(n) / 8 % (TWO_254 / 8) == n / 8 % (TWO_254 / 8)
  {
    var q, r := n / TWO_254, n % TWO_254;
    DivModUnique(Clamped(n), 8, TWO_254 / 8 + r / 8, 0);
    DivModUnique(n, 8, TWO_254 / 8 * q + r / 8, r % 8);
    DivModUnique(n / 8, TWO_254 / 8, q, r / 8);
    DivModUnique(Clamped(n) / 8, TWO_254 / 8, 1, r / 8);
  }

  /** Writes beyond the end of a typed array are ignored. */
  method ClampScalar(bytes: array<byte>) returns (scalar: array<byte>)
    ensures fresh(scalar) && scalar.Length == bytes.Length
    ensures bytes.Length >= 32 ==> LittleEndian(scalar[..32]) == Clamped(LittleEndian(bytes[..32]))
    ensures bytes.Length < 32 ==> forall i :: 0 <= i < bytes.Length ==> scalar[i] == if i == 0 then bytes[0] / 8 * 8 else bytes[i]
  {
    scalar := new byte[bytes.Length](i requires 0 <= i < bytes.Length reads bytes => bytes[i]);
    if scalar.Length > 0 {
      scalar[0] := scalar[0] - scalar[0] % 8;    // & 248
    }
    if scalar.Length > 31 {
      scalar[31] := scalar[31] % 0x80;           // & 0x7f
      scalar[31] := scalar[31] % 0x40 + 0x40;    // | 0x40
      ClampedEnds(bytes[..32], scalar[..32]);
    }
  }

  lemma ClampedEnds(s: seq<byte>, c: seq<byte>)
    requires |s| == |c| == 32 && forall i :: 0 < i < 31 ==> s[i] == c[i]
    requires c[0] == s[0] - s[0] % 8 && c[31] == s[31] % 0x40 + 0x40
    ensures LittleEndian(c) == Clamped(LittleEndian(s))
  {
    hide *;
    LittleEndianEnds(s);
    LittleEndianEnds(c);
    assert s[1..31] == c[1..31];
    ClampedParts(s[0], LittleEndian(s[1..31]), s[31]);
  }

  lemma ClampedParts(low: byte, mid: nat, high: byte)
    requires low + 0x100 * mid < TWO_248
    ensures Clamped(low + 0x100 * mid + TWO_248 * high) ==
            low - low % 8 + 0x100 * mid + TWO_248 * (high % 0x40 + 0x40)
  {
    var rest := low + 0x100 * mid + TWO_248 * (high % 0x40);
    assert high == 0x40 * (high / 0x40) + high % 0x40;
    DivModUnique(low + 0x100 * mid + TWO_248 * high, TWO_254, high / 0x40, rest);
    var eighth := low / 8 + 0x20 * mid + TWO_248 / 8 * (high % 0x40);
    DivModUnique(rest, 8, eighth, low % 8);
  }

  /** The encoding of a number in a given width is unique, so the number fixes the bytes. */
  lemma {:induction false} LittleEndianInjective(s: seq<byte>, t: seq<byte>)
    requires |s| == |t| && LittleEndian(s) == LittleEndian(t)
    ensures s == t
  {
    if s != [] {
      LittleEndianInjective(s[1..], t[1..]);
      assert s == [s[0]] + s[1..] && t == [t[0]] + t[1..];
    }
  }

  // ---- The Montgomery ladder ----

  datatype Point = Point(x: int, z: int)

  /** Doubling on y^2 = x^3 + 486662 x^2 + x in projective (X : Z) form. */
  function Double(p: Point): Point {
    Point(((p.x * p.x - p.z * p.z) * (p.x * p.x - p.z * p.z)) % P,
          (4 * (p.x * p.z) * (p.x * p.x + 486662 * (p.x * p.z) + p.z * p.z)) % P)
  }

  /** Differential addition of points whose difference has affine x-coordinate x1. */
  function DiffAdd(p: Point, q: Point, x1: int): Point {
    var s := p.x * q.x - p.z * q.z;
    var d := p.x * q.z - p.z * q.x;
    Point(FourTimes(s * s), FourTimes(x1 * (d * d)))
  }

  function FourTimes(n: int): int {
    (4 * n) % P
  }

  /** One ladder step on the pair of registers (multiple n, multiple n + 1). */
  function Step(r: (Point, Point), bit: int, x1: int): (Point, Point) {
    if bit == 0 then (Double(r.0), DiffAdd(r.0, r.1, x1))
    else (DiffAdd(r.0, r.1, x1), Double(r.1))
  }

  /** The textbook recursion over the bits of n, most significant first. */
  function Ladder(n: nat, start: (Point, Point), x1: int): (Point, Point) {
    if n == 0 then start else Step(Ladder(n / 2, start, x1), n % 2, x1)
  }

  function Start(x1: int): (Point, Point) {
    (Point(1, 0), Point(x1, 1))
  }

  function Affine(p: Point): int {
    (p.x * Inverse(p.z)) % P
  }

  /** X25519 as a function of the two decoded integers. */
  function ScalarMult(k: nat, u: int): int {
    Affine(Ladder(k, Start(u), u).0)
  }

  function Shifted(n: nat, t: nat): nat {
    PowPositive(2, t);
    n / Pow(2, t)
  }

  /** (scalar[t >> 3] >> (t & 7)) & 1 */
  function ScalarBit(scalar: seq<byte>, t: nat): int
    requires t / 8 < |scalar|
  {
    ByteBit(scalar[t / 8], t % 8)
  }

  function ByteBit(b: byte, i: nat): int {
    PowPositive(2, i);
    b / Pow(2, i) % 2
  }

  predicate IsBit(b: int) { b == 0 || b == 1 }

  function Swapped(r: (Point, Point), swap: int): (Point, Point) {
    if swap == 1 then (r.1, r.0) else r
  }

  /** The straight-line code of one iteration computes a doubling and a differential addition. */
  method Iterate(x1: int, x: int, z: int, x': int, z': int) returns (x2: int, z2: int, x3: int, z3: int)
    ensures Point(x2, z2) == Double(Point(x, z))
    ensures Point(x3, z3) == DiffAdd(Point(x, z), Point(x', z'), x1)
  {
    hide *;
    var a := FeMod(x + z);
    var aa := FeMod(a * a);
    var b := FeMod(x - z);
    var bb := FeMod(b * b);
    var e := FeMod(aa - bb);
    var c := FeMod(x' + z');
    var d := FeMod(x' - z');
    var da := FeMod(d * a);
    var cb := FeMod(c * b);
    var t1 := FeMod(da + cb);
    var t2 := FeMod(da - cb);
    x3 := FeMod(t1 * t1);
    z3 := FeMod(x1 * t2 * t2);
    x2 := FeMod(aa * bb);
    z2 := FeMod(e * (aa + A24 * e));
    DoubleAlgebra(x, z, a, b, aa, bb, e, P);
    DiffAddAlgebra(x, z, x', z', x1, a, b, c, d, da, cb, t1, t2, P);
    DoubleFromCong(Point(x, z), aa * bb, e * (aa + A24 * e));
    DiffAddFromCong(Point(x, z), Point(x', z'), x1, t1 * t1, x1 * t2 * t2);
  }

  method X25519(scalarBytes: array<byte>, uBytes: array<byte>) returns (r: Outcome<array<byte>>)
    ensures r.TypeError? <==> scalarBytes.Length < 32 || uBytes.Length < 32
    ensures r.Returned? ==> fresh(r.value) && r.value.Length == 32
    ensures r.Returned? ==>
              LittleEndian(r.value[..]) ==
              ScalarMult(Clamped(LittleEndian(scalarBytes[..32])), DecodedU(LittleEndian(uBytes[..32])))
  {
    hide Double, DiffAdd, Pow, LittleEndian, Clamped, DecodedU, Shifted, ScalarBit, FeMod, Inverse, Affine;
    var scalar := ClampScalar(scalarBytes);
    var decoded := DecodeUCoord(uBytes);
    if decoded.TypeError? || scalar.Length < 32 { return TypeError; }  // the first iteration reads byte 31
    var x1 := decoded.value;
    var x2, z2, x3, z3 := 1, 0, x1, 1;
    var swap := 0;
    var t := 255;
    ghost var n := LittleEndian(scalar[..32]);
    ClampedRange(LittleEndian(scalarBytes[..32]));
    ShiftedEnds(n);
    while t > 0
      invariant 0 <= t <= 255 && IsBit(swap) && LittleEndian(scalar[..32]) == n
      invariant (Point(x2, z2), Point(x3, z3)) == Swapped(Ladder(Shifted(n, t), Start(x1), x1), swap)
    {
      t := t - 1;
      BitOfLittleEndian(scalar[..32], t);
      LeadingBit(n, t);
      HalveShift(n, t);
      var bit := ScalarBit(scalar[..32], t);
      swap := if swap == bit then 0 else 1;
      if swap == 1 {
        x2, x3 := x3, x2;
        z2, z3 := z3, z2;
      }
      swap := bit;
      DiffAddSymmetric(Point(x2, z2), Point(x3, z3), x1);
      x2, z2, x3, z3 := Iterate(x1, x2, z2, x3, z3);
    }
    if swap == 1 {
      x2, x3 := x3, x2;
      z2, z3 := z3, z2;
    }
    var inverse := FeInv(z2);
    var bytes := EncodeUCoord(x2 * inverse);
    AffineOf(Point(x2, z2), inverse);
    r := Returned(bytes);
  }

  lemma AffineOf(p: Point, inverse: int)
    requires inverse == Inverse(p.z)
    ensures (p.x * inverse) % P == Affine(p)
  {
  }

  lemma DiffAddSymmetric(p: Point, q: Point, x1: int)
    ensures DiffAdd(p, q, x1) == DiffAdd(q, p, x1)
  {
    hide FourTimes;
    var d, e := p.x * q.z - p.z * q.x, q.x * p.z - q.z * p.x;
    assert e == -d;
    assert e * e == d * d;
  }

  lemma SquareCong(a: int, u: int, aa: int, m: int)
    requires m > 0 && Cong(a, u, m) && Cong(aa, a * a, m)
    ensures Cong(aa, u * u, m)
  {
    CongMul(a, u, a, u, m);
  }

  lemma DoubleAlgebra(x: int, z: int, a: int, b: int, aa: int, bb: int, e: int, m: int)
    requires m > 0 && Cong(a, x + z, m) && Cong(b, x - z, m)
    requires Cong(aa, a * a, m) && Cong(bb, b * b, m) && Cong(e, aa - bb, m)
    ensures Cong(aa * bb, (x * x - z * z) * (x * x - z * z), m)
    ensures Cong(e * (aa + A24 * e), 4 * (x * z) * (x * x + 486662 * (x * z) + z * z), m)
  {
    SquareCong(a, x + z, aa, m);
    SquareCong(b, x - z, bb, m);
    DoubleCong(aa, bb, e, (x + z) * (x + z), (x - z) * (x - z), m);
    SumAndDifference(x, z);
  }

  lemma DoubleCong(aa: int, bb: int, e: int, u: int, v: int, m: int)
    requires m > 0 && Cong(aa, u, m) && Cong(bb, v, m) && Cong(e, aa - bb, m)
    ensures Cong(aa * bb, u * v, m)
    ensures Cong(e * (aa + A24 * e), (u - v) * (u + A24 * (u - v)), m)
  {
    CongAdd(aa, u, bb, v, m);
    CongMul(aa, u, bb, v, m);
    CongMul(A24, A24, e, u - v, m);
    CongAdd(aa, u, A24 * e, A24 * (u - v), m);
    CongMul(e, u - v, aa + A24 * e, u + A24 * (u - v), m);
  }

  lemma SumAndDifference(x: int, z: int)
    ensures var u, v := (x + z) * (x + z), (x - z) * (x - z);
            && u * v == (x * x - z * z) * (x * x - z * z)
            && (u - v) * (u + A24 * (u - v)) == 4 * (x * z) * (x * x + 486662 * (x * z) + z * z)
  {
    Interchange(x + z, x + z, x - z, x - z);
    assert (x + z) * (x - z) == x * x - z * z;
    assert (x + z) * (x + z) == x * x + 2 * (x * z) + z * z;
    assert (x - z) * (x - z) == x * x - 2 * (x * z) + z * z;
  }

  lemma DiffAddAlgebra(x: int, z: int, x': int, z': int, x1: int, a: int, b: int, c: int, d: int,
                       da: int, cb: int, t1: int, t2: int, m: int)
    requires m > 0
    requires Cong(a, x + z, m) && Cong(b, x - z, m) && Cong(c, x' + z', m) && Cong(d, x' - z', m)
    requires Cong(da, d * a, m) && Cong(cb, c * b, m) && Cong(t1, da + cb, m) && Cong(t2, da - cb, m)
    ensures var s, w := x * x' - z * z', x * z' - z * x';
            Cong(t1 * t1, 4 * (s * s), m) && Cong(x1 * t2 * t2, 4 * (x1 * (w * w)), m)
  {
    CrossCong(a, b, c, d, da, cb, x + z, x - z, x' + z', x' - z', m);
    CrossTerms(x, z, x', z');
    DiffAddCong(t1, t2, x * x' - z * z', x * z' - z * x', x1, m);
  }

  lemma CrossCong(a: int, b: int, c: int, d: int, da: int, cb: int, u: int, v: int, u': int, v': int, m: int)
    requires m > 0 && Cong(a, u, m) && Cong(b, v, m) && Cong(c, u', m) && Cong(d, v', m)
    requires Cong(da, d * a, m) && Cong(cb, c * b, m)
    ensures Cong(da + cb, v' * u + u' * v, m) && Cong(da - cb, v' * u - u' * v, m)
  {
    CongMul(d, v', a, u, m);
    CongMul(c, u', b, v, m);
    CongAdd(da, v' * u, cb, u' * v, m);
  }

  lemma DiffAddCong(t1: int, t2: int, s: int, w: int, x1: int, m: int)
    requires m > 0 && Cong(t1, 2 * s, m) && Cong(t2, -2 * w, m)
    ensures Cong(t1 * t1, 4 * (s * s), m) && Cong(x1 * t2 * t2, 4 * (x1 * (w * w)), m)
  {
    SquareOfDouble(s, x1);
    SquareOfDouble(w, x1);
    SquareCong(t1, 2 * s, t1 * t1, m);
    SquareCong(t2, -2 * w, t2 * t2, m);
    CongSelf(x1, m);
    hide Cong;
    CongMul(x1, x1, t2 * t2, (-2 * w) * (-2 * w), m);
    assert x1 * t2 * t2 == x1 * (t2 * t2);
  }

  lemma CongSelf(x: int, m: int)
    requires m > 0
    ensures Cong(x, x, m)
  {
  }

  lemma CrossTerms(x: int, z: int, x': int, z': int)
    ensures (x' - z') * (x + z) + (x' + z') * (x - z) == 2 * (x * x' - z * z')
    ensures (x' - z') * (x + z) - (x' + z') * (x - z) == -2 * (x * z' - z * x')
  {
  }

  lemma DoubleFromCong(p: Point, x: int, z: int)
    requires Cong(x, (p.x * p.x - p.z * p.z) * (p.x * p.x - p.z * p.z), P)
    requires Cong(z, 4 * (p.x * p.z) * (p.x * p.x + 486662 * (p.x * p.z) + p.z * p.z), P)
    ensures Double(p) == Point(x % P, z % P)
  {
  }

  lemma DiffAddFromCong(p: Point, q: Point, x1: int, x: int, z: int)
    requires var s, w := p.x * q.x - p.z * q.z, p.x * q.z - p.z * q.x;
             Cong(x, 4 * (s * s), P) && Cong(z, 4 * (x1 * (w * w)), P)
    ensures DiffAdd(p, q, x1) == Point(x % P, z % P)
  {
  }

  lemma SquareOfDouble(s: int, k: int)
    ensures (2 * s) * (2 * s) == 4 * (s * s)
    ensures k * ((-2 * s) * (-2 * s)) == 4 * (k * (s * s))
  {
    assert (-2 * s) * (-2 * s) == 4 * (s * s);
  }

  lemma ShiftedEnds(n: nat)
    requires n < TWO_255
    ensures Shifted(n, 255) == 0 && Shifted(n, 0) == n
  {
    TwoTo255();
    DivModUnique(n, Pow(2, 255), 0, n);
  }

  /** Clamping sets bit 254, so the recursion never meets a leading zero. */
  lemma {:induction false} LeadingBit(n: nat, t: nat)
    requires TWO_254 <= n < TWO_255 && t < 255
    ensures Shifted(n, t) > 0
    decreases 255 - t
  {
    HalveShift(n, t);
    if t < 254 {
      LeadingBit(n, t + 1);
    } else {
      TwoTo255();
      DivModUnique(n, Pow(2, 254), 1, n - TWO_254);
    }
  }

  lemma TwoTo255()
    ensures Pow(2, 255) == TWO_255
  {
    assert Pow(2, 1) == 2;
    PowAdd(2, 1, 1);
    PowAdd(2, 2, 2);
    PowAdd(2, 4, 3);
    PowAdd(2, 2, 1);
    ByteCapacities();
    PowPower(31);
    PowAdd(2, 248, 7);
  }

  lemma {:induction false} PowPower(e: nat)
    ensures Pow(2, 8 * e) == Pow(0x100, e)
  {
    if e > 0 {
      PowPower(e - 1);
      PowAdd(2, 8, 8 * (e - 1));
      assert Pow(2, 4) == 16 && Pow(2, 8) == 16 * Pow(2, 4) by { PowAdd(2, 4, 4); }
    }
  }

  lemma {:induction false} SplitByte(t: nat)
    requires t < 8
    ensures Pow(2, t) * (2 * Pow(2, 7 - t)) == 0x100
  {
    PowPower(1);
    PowAdd(2, t, 8 - t);
  }

  /** Bit t of the number is bit t mod 8 of byte t div 8. */
  lemma {:induction false} BitOfLittleEndian(s: seq<byte>, t: nat)
    requires t / 8 < |s|
    ensures ScalarBit(s, t) == Shifted(LittleEndian(s), t) % 2
  {
    hide Pow, ByteBit, Shifted;
    var rest := LittleEndian(s[1..]);
    if t < 8 {
      FirstByteBit(s[0], rest, t);
    } else {
      BitOfLittleEndian(s[1..], t - 8);
      ShiftByByte(s[0], rest, t);
      assert s[t / 8] == s[1..][(t - 8) / 8];
      assert t % 8 == (t - 8) % 8;
    }
  }

  lemma FirstByteBit(low: byte, rest: nat, t: nat)
    requires t < 8
    ensures ByteBit(low, t) == Shifted(low + 0x100 * rest, t) % 2
  {
    hide Pow;
    PowPositive(2, t);
    PowPositive(2, 7 - t);
    SplitByte(t);
    LowBits(low, rest, Pow(2, t), Pow(2, 7 - t));
  }

  lemma ShiftByByte(low: byte, rest: nat, t: nat)
    requires t >= 8
    ensures Shifted(low + 0x100 * rest, t) == Shifted(rest, t - 8)
  {
    hide Pow;
    PowAdd(2, 8, t - 8);
    PowPositive(2, t - 8);
    TwoTo8();
    HighBits(low, rest, Pow(2, t - 8));
  }

  lemma TwoTo8()
    ensures Pow(2, 8) == 0x100
  {
    PowPower(1);
  }

  lemma LowBits(low: byte, rest: nat, w: int, v: int)
    requires w > 0 && v > 0 && w * (2 * v) == 0x100
    ensures (low + 0x100 * rest) / w % 2 == low / w % 2
  {
    assert low + 0x100 * rest == w * (low / w + 2 * v * rest) + low % w by {
      assert w * (low / w + 2 * v * rest) == w * (low / w) + (w * (2 * v)) * rest;
    }
    DivModUnique(low + 0x100 * rest, w, low / w + 2 * v * rest, low % w);
    ModShift(low / w, 2, v * rest);
    assert 2 * v * rest == 2 * (v * rest);
  }

  lemma HighBits(low: byte, rest: nat, w: int)
    requires w > 0
    ensures (low + 0x100 * rest) / (0x100 * w) == rest / w
  {
    var q, r := rest / w, rest % w;
    assert 0x100 * (w * q + r) == (0x100 * w) * q + 0x100 * r;
    DivModUnique(low + 0x100 * rest, 0x100 * w, q, low + 0x100 * r);
  }

  lemma HalveShift(n: nat, t: nat)
    ensures Shifted(n, t) / 2 == Shifted(n, t + 1)
  {
    PowPositive(2, t);
    var w, k := Pow(2, t), n / Pow(2, t);
    assert n == w * k + n % w;
    assert w * (2 * (k / 2) + k % 2) == (2 * w) * (k / 2) + w * (k % 2);
    assert 0 <= w * (k % 2) <= w by {
      if k % 2 == 0 { assert w * (k % 2) == 0; }
    }
    DivModUnique(n, 2 * w, k / 2, w * (k % 2) + n % w);
  }

  // ---- Projective independence ----

  /** q has the coordinates of p times k. */
  ghost predicate Scaled(p: Point, q: Point, k: int) {
    Cong(q.x, k * p.x, P) && Cong(q.z, k * p.z, P)
  }

  lemma ScaledProduct(a: int, a': int, k: int, b: int, b': int, l: int, m: int)
    requires m > 0 && Cong(a', k * a, m) && Cong(b', l * b, m)
    ensures Cong(a' * b', (k * l) * (a * b), m)
  {
    hide Cong;
    CongMul(a', k * a, b', l * b, m);
    Interchange(k, a, l, b);
  }

  lemma ScaledSum(a: int, a': int, b: int, b': int, k: int, m: int)
    requires m > 0 && Cong(a', k * a, m) && Cong(b', k * b, m)
    ensures Cong(a' + b', k * (a + b), m) && Cong(a' - b', k * (a - b), m)
  {
    hide Cong;
    CongAdd(a', k * a, b', k * b, m);
    Distribute(k, a, b);
  }

  lemma ScaledConstant(c: int, a: int, a': int, k: int, m: int)
    requires m > 0 && Cong(a', k * a, m)
    ensures Cong(c * a', k * (c * a), m)
  {
    CongMul(c, c, a', k * a, m);
    Interchange(1, c, k, a);
  }

  lemma ScaledMod(a: int, a': int, k: int, m: int)
    requires m > 0 && Cong(a', k * a, m)
    ensures Cong(a' % m, k * (a % m), m)
  {
    CongMod(a', m);
    CongMod(a, m);
    CongMul(k, k, a % m, a, m);
  }

  lemma DoubleScaledFormula(xx: int, zz: int, xz: int, xx': int, zz': int, xz': int, k: int, m: int)
    requires m > 0 && Cong(xx', k * xx, m) && Cong(zz', k * zz, m) && Cong(xz', k * xz, m)
    ensures Cong((xx' - zz') * (xx' - zz'), (k * k) * ((xx - zz) * (xx - zz)), m)
    ensures Cong(4 * xz' * (xx' + 486662 * xz' + zz'), (k * k) * (4 * xz * (xx + 486662 * xz + zz)), m)
  {
    hide Cong;
    ScaledSum(xx, xx', zz, zz', k, m);
    ScaledProduct(xx - zz, xx' - zz', k, xx - zz, xx' - zz', k, m);
    ScaledConstant(486662, xz, xz', k, m);
    ScaledSum(xx, xx', 486662 * xz, 486662 * xz', k, m);
    ScaledSum(xx + 486662 * xz, xx' + 486662 * xz', zz, zz', k, m);
    ScaledConstant(4, xz, xz', k, m);
    ScaledProduct(4 * xz, 4 * xz', k, xx + 486662 * xz + zz, xx' + 486662 * xz' + zz', k, m);
  }

  lemma DoubleScaled(p: Point, q: Point, k: int)
    requires Scaled(p, q, k)
    ensures Scaled(Double(p), Double(q), (k * k) * (k * k))
  {
    hide Cong;
    ScaledProduct(p.x, q.x, k, p.x, q.x, k, P);
    ScaledProduct(p.z, q.z, k, p.z, q.z, k, P);
    ScaledProduct(p.x, q.x, k, p.z, q.z, k, P);
    DoubleScaledFormula(p.x * p.x, p.z * p.z, p.x * p.z, q.x * q.x, q.z * q.z, q.x * q.z, k * k, P);
    ScaledMod((p.x * p.x - p.z * p.z) * (p.x * p.x - p.z * p.z),
              (q.x * q.x - q.z * q.z) * (q.x * q.x - q.z * q.z), (k * k) * (k * k), P);
    ScaledMod(4 * (p.x * p.z) * (p.x * p.x + 486662 * (p.x * p.z) + p.z * p.z),
              4 * (q.x * q.z) * (q.x * q.x + 486662 * (q.x * q.z) + q.z * q.z), (k * k) * (k * k), P);
  }

  lemma DiffAddScaled(p: Point, q: Point, p': Point, q': Point, x1: int, x1': int, k: int, l: int)
    requires Scaled(p, p', k) && Scaled(q, q', l) && Cong(x1', x1, P)
    ensures Scaled(DiffAdd(p, q, x1), DiffAdd(p', q', x1'), (k * l) * (k * l))
  {
    hide Cong;
    var s, s' := p.x * q.x - p.z * q.z, p'.x * q'.x - p'.z * q'.z;
    var d, d' := p.x * q.z - p.z * q.x, p'.x * q'.z - p'.z * q'.x;
    ScaledProduct(p.x, p'.x, k, q.x, q'.x, l, P);
    ScaledProduct(p.z, p'.z, k, q.z, q'.z, l, P);
    ScaledProduct(p.x, p'.x, k, q.z, q'.z, l, P);
    ScaledProduct(p.z, p'.z, k, q.x, q'.x, l, P);
    ScaledSum(p.x * q.x, p'.x * q'.x, p.z * q.z, p'.z * q'.z, k * l, P);
    ScaledSum(p.x * q.z, p'.x * q'.z, p.z * q.x, p'.z * q'.x, k * l, P);
    ScaledProduct(s, s', k * l, s, s', k * l, P);
    ScaledProduct(d, d', k * l, d, d', k * l, P);
    ScaledQuadruple(s * s, s' * s', (k * l) * (k * l));
    assert 1 * x1 == x1;
    ScaledProduct(x1, x1', 1, d * d, d' * d', (k * l) * (k * l), P);
    ScaledQuadruple(x1 * (d * d), x1' * (d' * d'), (k * l) * (k * l));
  }

  lemma ScaledQuadruple(a: int, a': int, k: int)
    requires Cong(a', k * a, P)
    ensures Cong(FourTimes(a'), k * FourTimes(a), P)
  {
    hide Cong;
    ScaledConstant(4, a, a', k, P);
    ScaledMod(4 * a, 4 * a', k, P);
  }

  /** What a rescaling of the two registers becomes after the bits of n. */
  function ScaleAfter(n: nat, k: int, l: int): (int, int) {
    if n == 0 then (k, l) else
    var (i, j) := ScaleAfter(n / 2, k, l);
    if n % 2 == 0 then ((i * i) * (i * i), (i * j) * (i * j)) else ((i * j) * (i * j), (j * j) * (j * j))
  }

  lemma {:induction false} LadderScaled(n: nat, r: (Point, Point), r': (Point, Point), x1: int, x1': int, k: int, l: int)
    requires Scaled(r.0, r'.0, k) && Scaled(r.1, r'.1, l) && Cong(x1', x1, P)
    ensures Scaled(Ladder(n, r, x1).0, Ladder(n, r', x1').0, ScaleAfter(n, k, l).0)
    ensures Scaled(Ladder(n, r, x1).1, Ladder(n, r', x1').1, ScaleAfter(n, k, l).1)
  {
    hide Cong, Scaled, Double, DiffAdd;
    if n > 0 {
      LadderScaled(n / 2, r, r', x1, x1', k, l);
      var (i, j) := ScaleAfter(n / 2, k, l);
      var (p, q) := Ladder(n / 2, r, x1);
      var (p', q') := Ladder(n / 2, r', x1');
      DiffAddScaled(p, q, p', q', x1, x1', i, j);
      if n % 2 == 0 { DoubleScaled(p, p', i); } else { DoubleScaled(q, q', j); }
    }
  }

  lemma {:induction false} ScaleStaysNonzero(n: nat, k: int, l: int)
    requires IsPrime(P) && k % P != 0 && l % P != 0
    ensures ScaleAfter(n, k, l).0 % P != 0 && ScaleAfter(n, k, l).1 % P != 0
  {
    hide IsPrime;
    if n > 0 {
      ScaleStaysNonzero(n / 2, k, l);
      var (i, j) := ScaleAfter(n / 2, k, l);
      FourthPowerNonzero(i, j);
      FourthPowerNonzero(i, i);
      FourthPowerNonzero(j, j);
    }
  }

  lemma FourthPowerNonzero(i: int, j: int)
    requires IsPrime(P) && i % P != 0 && j % P != 0
    ensures ((i * j) * (i * j)) % P != 0
  {
    hide IsPrime;
    Euclid(P, i, j);
    Euclid(P, i * j, i * j);
  }

  lemma {:induction false} UnitScale(n: nat)
    ensures ScaleAfter(n, 1, 1) == (1, 1)
  {
    if n > 0 { UnitScale(n / 2); }
  }

  /** The affine reading forgets a nonzero common factor, even when the denominator is zero. */
  lemma AffineScaled(p: Point, q: Point, k: int)
    requires Scaled(p, q, k)
    requires k == 1 || (IsPrime(P) && k % P != 0)
    ensures Affine(q) == Affine(p)
  {
    hide IsPrime, Cong;
    var e := P - 2;
    CongPow(q.z, k * p.z, e, P);
    PowMul(k, p.z, e);
    InverseCong(q.z);
    InverseCong(p.z);
    ScaledProduct(p.x, q.x, k, Pow(p.z, e), Pow(q.z, e), Pow(k, e), P);
    if k == 1 { PowOne(e); FactorIsOne(1); } else { FermatInverse(P, k); FactorIsOne(k * Pow(k, e)); }
    AffineFromProducts(p, q, k * Pow(k, e));
  }

  lemma {:induction false} PowOne(e: nat)
    ensures Pow(1, e) == 1
  {
    if e > 0 { PowOne(e - 1); }
  }

  lemma InverseCong(z: int)
    ensures Cong(Inverse(z), Pow(z, P - 2), P)
  {
  }

  lemma FactorIsOne(f: int)
    ensures f == 1 ==> Cong(f, 1, P)
  {
  }

  lemma AffineFromProducts(p: Point, q: Point, f: int)
    requires Cong(f, 1, P)
    requires Cong(q.x * Pow(q.z, P - 2), f * (p.x * Pow(p.z, P - 2)), P)
    ensures Affine(q) == Affine(p)
  {
    hide Pow;
    var w, v := Pow(p.z, P - 2), Pow(q.z, P - 2);
    InverseCong(q.z);
    InverseCong(p.z);
    CongMul(q.x, q.x, Inverse(q.z), v, P);
    CongMul(p.x, p.x, Inverse(p.z), w, P);
    CongMul(f, 1, p.x * w, p.x * w, P);
  }

  /**
   * The shared secret depends on the base point only projectively: rescaling the two registers of the
   * start by any nonzero factors, and replacing u by any congruent number, changes nothing.
   */
  lemma ProjectiveIndependence(n: nat, u: int, u': int, start: (Point, Point), k: int, l: int)
    requires IsPrime(P) && k % P != 0 && l % P != 0
    requires Cong(u', u, P) && Scaled(Start(u).0, start.0, k) && Scaled(Start(u).1, start.1, l)
    ensures Affine(Ladder(n, start, u').0) == ScalarMult(n, u)
  {
    hide IsPrime, Cong, Scaled;
    LadderScaled(n, Start(u), start, u, u', k, l);
    ScaleStaysNonzero(n, k, l);
    AffineScaled(Ladder(n, Start(u), u).0, Ladder(n, start, u').0, ScaleAfter(n, k, l).0);
  }

  /** RFC 7748, section 5: a non-canonical coordinate counts as its remainder, with no hypothesis on P. */
  lemma NonCanonicalCoordinate(n: nat, u: int)
    ensures ScalarMult(n, u) == ScalarMult(n, u % P)
  {
    var v := u % P;
    LadderScaled(n, Start(v), Start(u), v, u, 1, 1);
    UnitScale(n);
    AffineScaled(Ladder(n, Start(v), v).0, Ladder(n, Start(u), u).0, 1);
  }
}
