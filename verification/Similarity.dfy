/** Cosine similarity and the embedding codec of pkg/kb/vector.go, over the reals. */
module Similarity {

  type Vector = seq<real>

  function Dot(a: Vector, b: Vector): real
    requires |a| == |b|
  {
    if a == [] then 0.0
    else var n := |a| - 1; Dot(a[..n], b[..n]) + a[n] * b[n]
  }

  function NormSquared(a: Vector): real { Dot(a, a) }

  /** math.Sqrt on what it is applied to. */
  ghost predicate IsSqrt(sqrt: real -> real) {
    forall x {:trigger sqrt(x)} :: x >= 0.0 ==> sqrt(x) >= 0.0 && sqrt(x) * sqrt(x) == x
  }

  function Cosine(a: Vector, b: Vector, sqrt: real -> real): real {
    if |a| != |b| || |a| == 0 then 0.0
    else
      var denom := sqrt(NormSquared(a)) * sqrt(NormSquared(b));
      if denom == 0.0 then 0.0 else Dot(a, b) / denom
  }

  method CosineSimilarity(a: Vector, b: Vector, sqrt: real -> real) returns (score: real)
    ensures score == Cosine(a, b, sqrt)
  {
    if |a| != |b| || |a| == 0 {
      return 0.0;
    }
    var dot, normA, normB := 0.0, 0.0, 0.0;
    for i := 0 to |a|
      invariant dot == Dot(a[..i], b[..i]) && normA == NormSquared(a[..i]) && normB == NormSquared(b[..i])
    {
      assert a[..i + 1][..i] == a[..i] && b[..i + 1][..i] == b[..i];
      dot := dot + a[i] * b[i];
      normA := normA + a[i] * a[i];
      normB := normB + b[i] * b[i];
    }
    assert a[..|a|] == a && b[..|b|] == b;
    var denom := sqrt(normA) * sqrt(normB);
    if denom == 0.0 {
      return 0.0;
    }
    return dot / denom;
  }

  // ------------------------------------------------------------------ what the product and the quotient are

  /** The product of two vectors adds up over their parts, and on single coordinates is that of numbers. */
  lemma {:induction false} DotConcat(a: Vector, b: Vector, c: Vector, d: Vector)
    requires |a| == |b| && |c| == |d|
    ensures Dot(a + c, b + d) == Dot(a, b) + Dot(c, d)
  {
    if c == [] {
      assert a + c == a && b + d == b;
    } else {
      var n := |c| - 1;
      assert (a + c)[..|a| + n] == a + c[..n] && (b + d)[..|b| + n] == b + d[..n];
      DotConcat(a, b, c[..n], d[..n]);
    }
  }

  lemma DotOfOne(x: real, y: real)
    ensures Dot([x], [y]) == x * y && Dot([], []) == 0.0 && NormSquared([x]) == x * x
  {
    assert [x][..0] == [] && [y][..0] == [];
  }

  lemma CosineOfNothing(a: Vector, b: Vector, sqrt: real -> real)
    requires IsSqrt(sqrt) && (|a| != |b| || a == [] || NormSquared(a) == 0.0 || NormSquared(b) == 0.0)
    ensures Cosine(a, b, sqrt) == 0.0
  {
    if |a| == |b| != 0 {
      var r := sqrt(0.0);
      assert r * r == 0.0;
      RootOfNothing(r);
      var x, y := sqrt(NormSquared(a)), sqrt(NormSquared(b));
      assert x == 0.0 || y == 0.0;
      var denom := sqrt(NormSquared(a)) * sqrt(NormSquared(b));
      assert denom == 0.0;
    }
  }

  lemma RootOfNothing(r: real)
    requires r * r == 0.0
    ensures r == 0.0
  {
    SquaresOrder(r, 0.0);
  }

  /** Otherwise the similarity, times the lengths of both vectors, is their product. */
  lemma CosineTimesLengths(a: Vector, b: Vector, sqrt: real -> real)
    requires IsSqrt(sqrt) && |a| == |b| && NormSquared(a) != 0.0 && NormSquared(b) != 0.0
    ensures Cosine(a, b, sqrt) * (sqrt(NormSquared(a)) * sqrt(NormSquared(b))) == Dot(a, b)
  {
    NormNonNegative(a);
    NormNonNegative(b);
    var denom := sqrt(NormSquared(a)) * sqrt(NormSquared(b));
    assert a != [];
    RootsMultiply(NormSquared(a), NormSquared(b), sqrt);
    PositiveProduct(NormSquared(a), NormSquared(b));
    assert denom != 0.0;
    assert Cosine(a, b, sqrt) == Dot(a, b) / denom;
  }

  // ------------------------------------------------------------------ Cauchy-Schwarz

  lemma SquareNonNegative(x: real)
    ensures x * x >= 0.0
  {
  }

  lemma {:induction false} NormNonNegative(a: Vector)
    ensures NormSquared(a) >= 0.0
  {
    if a == [] {
    } else {
      NormNonNegative(a[..|a| - 1]);
      SquareNonNegative(a[|a| - 1]);
    }
  }

  lemma PositiveProduct(x: real, y: real)
    requires x > 0.0 && y > 0.0
    ensures x * y > 0.0
  {
  }

  lemma StrictSquares(x: real, y: real)
    requires x > y >= 0.0
    ensures x * x > y * y
  {
    PositiveProduct(x - y, x + y);
    assert (x - y) * (x + y) == x * x - y * y;
  }

  lemma SquaresOrder(x: real, y: real)
    requires y >= 0.0 && x * x <= y * y
    ensures -y <= x <= y
  {
    if x > y {
      StrictSquares(x, y);
    } else if x < -y {
      assert (-x) * (-x) == x * x;
      StrictSquares(-x, y);
    }
  }

  /** 2m <= p + q when m^2 <= p q. */
  lemma ArithmeticGeometric(p: real, q: real, m: real)
    requires p >= 0.0 && q >= 0.0 && m * m <= p * q
    ensures 2.0 * m <= p + q
  {
    var s := p + q;
    SquareNonNegative(p - q);
    assert (p - q) * (p - q) == s * s - 4.0 * (p * q);
    assert (2.0 * m) * (2.0 * m) == 4.0 * (m * m);
    SquaresOrder(2.0 * m, s);
  }

  /** The step of the induction: adding one coordinate to each vector. */
  lemma CauchySchwarzStep(d: real, na: real, nb: real, x: real, y: real)
    requires na >= 0.0 && nb >= 0.0 && d * d <= na * nb
    ensures (d + x * y) * (d + x * y) <= (na + x * x) * (nb + y * y)
  {
    var xx, yy, xy := x * x, y * y, x * y;
    SquareNonNegative(x);
    SquareNonNegative(y);
    var p, q, m := na * yy, nb * xx, d * xy;
    assert xx * yy == xy * xy;
    assert p * q == (na * nb) * (xy * xy) by {
      assert p * q == (na * nb) * (xx * yy);
    }
    assert m * m == (d * d) * (xy * xy);
    SquareNonNegative(xy);
    ProductOrder(d * d, na * nb, xy * xy);
    ArithmeticGeometric(p, q, m);
    assert (d + xy) * (d + xy) == d * d + 2.0 * m + xy * xy;
    assert (na + xx) * (nb + yy) == na * nb + p + q + xx * yy;
  }

  lemma ProductOrder(a: real, b: real, c: real)
    requires a <= b && c >= 0.0
    ensures a * c <= b * c
  {
  }

  lemma {:induction false} CauchySchwarz(a: Vector, b: Vector)
    requires |a| == |b|
    ensures Dot(a, b) * Dot(a, b) <= NormSquared(a) * NormSquared(b)
  {
    if a == [] {
    } else {
      var n := |a| - 1;
      CauchySchwarz(a[..n], b[..n]);
      NormNonNegative(a[..n]);
      NormNonNegative(b[..n]);
      CauchySchwarzStep(Dot(a[..n], b[..n]), NormSquared(a[..n]), NormSquared(b[..n]), a[n], b[n]);
    }
  }

  lemma StrictProduct(p: real, q: real, d: real)
    requires p > q && d > 0.0
    ensures p * d > q * d
  {
    PositiveProduct(p - q, d);
  }

  lemma QuotientInRange(x: real, d: real)
    requires d > 0.0 && -d <= x <= d
    ensures -1.0 <= x / d <= 1.0
  {
    var p := x / d;
    assert p * d == x;
    if p > 1.0 {
      StrictProduct(p, 1.0, d);
    } else if p < -1.0 {
      StrictProduct(-1.0, p, d);
    }
  }

  lemma RootsMultiply(x: real, y: real, sqrt: real -> real)
    requires IsSqrt(sqrt) && x >= 0.0 && y >= 0.0
    ensures var denom := sqrt(x) * sqrt(y); denom >= 0.0 && denom * denom == x * y
  {
    var r, s := sqrt(x), sqrt(y);
    assert (r * s) * (r * s) == (r * r) * (s * s);
  }

  /** Cosine similarity of any two vectors lies in [-1, 1]. */
  lemma CosineInRange(a: Vector, b: Vector, sqrt: real -> real)
    requires IsSqrt(sqrt)
    ensures -1.0 <= Cosine(a, b, sqrt) <= 1.0
  {
    if |a| == |b| && |a| > 0 {
      var x, y := NormSquared(a), NormSquared(b);
      NormNonNegative(a);
      NormNonNegative(b);
      CauchySchwarz(a, b);
      var denom := sqrt(x) * sqrt(y);
      RootsMultiply(x, y, sqrt);
      if denom != 0.0 {
        var dot := Dot(a, b);
        SquaresOrder(dot, denom);
        QuotientInRange(dot, denom);
        assert Cosine(a, b, sqrt) == dot / denom;
      }
    }
  }

  /** A vector that is not zero is entirely similar to itself. */
  lemma SelfSimilarity(a: Vector, sqrt: real -> real)
    requires IsSqrt(sqrt) && NormSquared(a) != 0.0
    ensures Cosine(a, a, sqrt) == 1.0
  {
    NormNonNegative(a);
    var x := NormSquared(a);
    var denom := sqrt(x) * sqrt(x);
    assert denom == x;
    assert a != [];
    assert Cosine(a, a, sqrt) == x / x == 1.0;
  }

  // ------------------------------------------------------------------ the codec

  type Byte = x: int | 0 <= x < 256
  /** The bit pattern of a 32-bit float. */
  type Bits = x: int | 0 <= x < 0x1_0000_0000

  function PutUint32(v: Bits): (bs: seq<Byte>)
    ensures |bs| == 4
  {
    [v % 256, v / 0x100 % 256, v / 0x1_0000 % 256, v / 0x100_0000]
  }

  function Uint32(bs: seq<Byte>): Bits
    requires |bs| == 4
  {
    var b0: int, b1: int, b2: int, b3: int := bs[0], bs[1], bs[2], bs[3];
    b0 + b1 * 0x100 + b2 * 0x1_0000 + b3 * 0x100_0000
  }

  function Encode(emb: seq<Bits>): (data: seq<Byte>)
    ensures |data| == 4 * |emb|
  {
    if emb == [] then [] else Encode(emb[..|emb| - 1]) + PutUint32(emb[|emb| - 1])
  }

  function DecodeFirst(data: seq<Byte>, n: nat): (emb: seq<Bits>)
    requires 4 * n <= |data|
    ensures |emb| == n
  {
    if n == 0 then [] else DecodeFirst(data, n - 1) + [Uint32(data[4 * n - 4..4 * n])]
  }

  /** A trailing incomplete value is ignored. */
  function Decode(data: seq<Byte>): seq<Bits> { DecodeFirst(data, |data| / 4) }

  method EncodeEmbedding(emb: seq<Bits>) returns (buf: array<Byte>)
    ensures fresh(buf) && buf[..] == Encode(emb)
  {
    buf := new Byte[4 * |emb|];
    for i := 0 to |emb|
      invariant buf[..4 * i] == Encode(emb[..i])
    {
      assert emb[..i + 1][..i] == emb[..i];
      ghost var done := buf[..4 * i];
      var bs := PutUint32(emb[i]);
      buf[4 * i], buf[4 * i + 1], buf[4 * i + 2], buf[4 * i + 3] := bs[0], bs[1], bs[2], bs[3];
      assert buf[..4 * i + 4] == done + bs;
    }
    assert emb[..|emb|] == emb && buf[..4 * |emb|] == buf[..];
  }

  method DecodeEmbedding(data: seq<Byte>) returns (emb: array<Bits>)
    ensures fresh(emb) && emb[..] == Decode(data)
  {
    var n := |data| / 4;
    emb := new Bits[n];
    for i := 0 to n
      invariant emb[..i] == DecodeFirst(data, i)
    {
      emb[i] := Uint32(data[4 * i..4 * i + 4]);
      assert emb[..i + 1] == emb[..i] + [emb[i]];
    }
    assert emb[..n] == emb[..];
  }

  lemma Uint32Inverse(v: Bits)
    ensures Uint32(PutUint32(v)) == v
  {
    HigherBytes(v);
  }

  lemma LowByte(b: int, rest: int)
    requires 0 <= b < 0x100
    ensures (b + rest * 0x100) % 0x100 == b && (b + rest * 0x100) / 0x100 == rest
  {
  }

  lemma PutUint32Inverse(bs: seq<Byte>)
    requires |bs| == 4
    ensures PutUint32(Uint32(bs)) == bs
  {
    var b0: int, b1: int, b2: int, b3: int := bs[0], bs[1], bs[2], bs[3];
    var w2 := b2 + b3 * 0x100;
    var w1 := b1 + w2 * 0x100;
    var v := b0 + w1 * 0x100;
    assert Uint32(bs) == v;
    LowByte(b2, b3);
    LowByte(b1, w2);
    LowByte(b0, w1);
    HigherBytes(v);
  }

  lemma HigherBytes(v: int)
    ensures v / 0x1_0000 == v / 0x100 / 0x100 && v / 0x100_0000 == v / 0x100 / 0x100 / 0x100
  {
  }

  lemma {:induction false} EncodeAt(emb: seq<Bits>, k: nat)
    requires k < |emb|
    ensures Encode(emb)[4 * k..4 * k + 4] == PutUint32(emb[k])
  {
    var n := |emb| - 1;
    if k < n {
      EncodeAt(emb[..n], k);
      assert Encode(emb)[4 * k..4 * k + 4] == Encode(emb[..n])[4 * k..4 * k + 4];
    }
  }

  lemma {:induction false} DecodeFirstEncode(emb: seq<Bits>, n: nat)
    requires n <= |emb|
    ensures DecodeFirst(Encode(emb), n) == emb[..n]
  {
    if n == 0 {
    } else {
      DecodeFirstEncode(emb, n - 1);
      EncodeAt(emb, n - 1);
      Uint32Inverse(emb[n - 1]);
      assert emb[..n] == emb[..n - 1] + [emb[n - 1]];
    }
  }

  /** What was stored is what is read back. */
  lemma DecodeEncode(emb: seq<Bits>)
    ensures Decode(Encode(emb)) == emb
  {
    DecodeFirstEncode(emb, |emb|);
  }

  lemma {:induction false} EncodeDecodeFirst(data: seq<Byte>, n: nat)
    requires 4 * n <= |data|
    ensures Encode(DecodeFirst(data, n)) == data[..4 * n]
  {
    if n == 0 {
    } else {
      EncodeDecodeFirst(data, n - 1);
      var bs := data[4 * n - 4..4 * n];
      PutUint32Inverse(bs);
      var emb := DecodeFirst(data, n);
      assert emb[..n - 1] == DecodeFirst(data, n - 1) && emb[n - 1] == Uint32(bs);
      assert data[..4 * n] == data[..4 * n - 4] + bs;
    }
  }

  /** Every blob is, up to an incomplete tail, the encoding of what it decodes to. */
  lemma EncodeDecode(data: seq<Byte>)
    ensures Encode(Decode(data)) == data[..4 * (|data| / 4)]
  {
    EncodeDecodeFirst(data, |data| / 4);
  }

  lemma PutBytes(v: Bits)
    ensures var bs := PutUint32(v);
            && bs[0] == v % 0x100 && bs[1] == v / 0x100 % 0x100
            && bs[2] == v / 0x1_0000 % 0x100 && bs[3] == v / 0x100_0000
  {
  }

  lemma SliceAt(data: seq<Byte>, p: nat, bs: seq<Byte>)
    requires |bs| == 4 && p + 4 <= |data| && data[p..p + 4] == bs
    ensures data[p] == bs[0] && data[p + 1] == bs[1] && data[p + 2] == bs[2] && data[p + 3] == bs[3]
  {
    assert data[p] == data[p..p + 4][0] && data[p + 1] == data[p..p + 4][1];
    assert data[p + 2] == data[p..p + 4][2] && data[p + 3] == data[p..p + 4][3];
  }

  /** Values are stored one after the other, each from its lowest byte to its highest. */
  lemma EncodingIsLittleEndian(emb: seq<Bits>, k: nat)
    requires k < |emb|
    ensures var data, v := Encode(emb), emb[k];
            && data[4 * k] == v % 0x100 && data[4 * k + 1] == v / 0x100 % 0x100
            && data[4 * k + 2] == v / 0x1_0000 % 0x100 && data[4 * k + 3] == v / 0x100_0000
  {
    EncodeAt(emb, k);
    SliceAt(Encode(emb), 4 * k, PutUint32(emb[k]));
    PutBytes(emb[k]);
  }
}
