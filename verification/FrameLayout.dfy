/** Where every field of a frame lies on the wire, byte by byte, as the format's description gives it:
    what another implementation of the format would have to send and expect. */
module FrameLayout {
  import Arithmetic
  import opened FrameCodec

  /** The element types with a code, in the order of their codes. */
  const CODED: seq<DType> := [FLOAT32, FLOAT16, BFLOAT16, FLOAT64, INT64, INT32, UINT8, INT8, BOOL]

  predicate Digit(b: Byte, v: nat, k: nat) {
    Radix(k) > 0 && b == v / Radix(k) % 256
  }

  /** The number `v` in as many bytes as there are, the most significant first. */
  predicate BigEndian(bs: seq<Byte>, v: nat) {
    v < Radix(|bs|) && forall j | 0 <= j < |bs| :: Digit(bs[j], v, |bs| - 1 - j)
  }

  lemma RadixIs()
    ensures Radix(1) == 0x100 && Radix(2) == 0x1_0000 && Radix(4) == 0x1_0000_0000
    ensures Radix(8) == 0x1_0000_0000_0000_0000
  {
    assert Radix(1) == 0x100 && Radix(2) == 0x1_0000 && Radix(3) == 0x100_0000 && Radix(4) == 0x1_0000_0000;
    assert Radix(5) == 256 * Radix(4) && Radix(6) == 256 * Radix(5);
    assert Radix(7) == 256 * Radix(6) && Radix(8) == 256 * Radix(7);
  }

  lemma {:induction false} RadixPositive(k: nat)
    ensures Radix(k) > 0
  {
    if k > 0 { RadixPositive(k - 1); }
  }

  lemma DivTwice(v: nat, r: nat)
    requires r > 0
    ensures v / 256 / r == v / (256 * r)
  {
    var q, m := v / 256, v % 256;
    var a, b := q / r, q % r;
    assert v == 256 * (a * r + b) + m == (256 * r) * a + (256 * b + m);
    assert 0 <= 256 * b + m < 256 * r;
    Arithmetic.DivMod(256 * r, a, 256 * b + m);
  }

  lemma {:induction false} BigIs(k: nat, v: nat)
    requires v < Radix(k)
    ensures BigEndian(Big(k, v), v)
  {
    var bs := Big(k, v);
    if k > 0 {
      BigIs(k - 1, v / 256);
      forall j | 0 <= j < k ensures Digit(bs[j], v, k - 1 - j) {
        if j < k - 1 {
          assert Digit(Big(k - 1, v / 256)[j], v / 256, k - 2 - j);
          DivTwice(v, Radix(k - 2 - j));
          assert Radix(k - 1 - j) == 256 * Radix(k - 2 - j);
        }
      }
    }
  }

  /** A tensor sent by value: kind, batch, element type, number of dimensions, length of the context; then
      the context, the dimensions, the length of the data and the data. */
  lemma ByValueLayout(f: Frame)
    requires f.Packable() && f.ByValue?
    ensures var bs, t, c := Encode(f), f.tensor, |f.ctx|;
      var n := |t.shape|;
      var data := 10 + c + 8 * n;
      && |bs| == data + 8 + |t.data|
      && bs[0] == (if f.backward then 'B' else 'F') as int
      && BigEndian(bs[1..5], f.batch)
      && bs[5] < 9 && CODED[bs[5]] == (if t.dtype.Unlisted? then FLOAT32 else t.dtype)
      && BigEndian(bs[6..8], n) && BigEndian(bs[8..10], c)
      && bs[10..10 + c] == f.ctx
      && (forall i: nat | i < n :: DimAt(bs, 10 + c, i, t.shape[i]))
      && BigEndian(bs[data..data + 8], |t.data|) && bs[data + 8..] == t.data
  {
    var bs, t, c := Encode(f), f.tensor, |f.ctx|;
    var n := |t.shape|;
    var data := 10 + c + 8 * n;
    assert bs[0] == (if f.backward then 'B' else 'F') as int;
    BigIs(4, f.batch);
    BigIs(2, n);
    BigIs(2, c);
    BigIs(8, |t.data|);
    hide Radix, BigEndian, Big;
    ByValuePlaces(f, bs);
    forall i: nat | i < n ensures DimAt(bs, 10 + c, i, t.shape[i]) {
      ShapeAt(t.shape, i);
      BigIs(8, t.shape[i]);
      assert bs[10 + c..data] == ShapeBytes(t.shape);
      assert bs[10 + c..data][8 * i..8 * i + 8] == bs[10 + c + 8 * i..10 + c + 8 * i + 8];
    }
  }

  predicate DimAt(bs: seq<Byte>, at: nat, i: nat, dim: int) {
    at + 8 * i + 8 <= |bs| && dim >= 0 && BigEndian(bs[at + 8 * i..at + 8 * i + 8], dim)
  }

  lemma ByValuePlaces(f: Frame, bs: seq<Byte>)
    requires f.Packable() && f.ByValue? && bs == Encode(f)
    ensures var t, c := f.tensor, |f.ctx|;
      var n := |t.shape|;
      var data := 10 + c + 8 * n;
      && |bs| == data + 8 + |t.data|
      && bs[1..5] == Big(4, f.batch) && bs[5] == t.dtype.Code()
      && bs[6..8] == Big(2, n) && bs[8..10] == Big(2, c) && bs[10..10 + c] == f.ctx
      && bs[10 + c..data] == ShapeBytes(t.shape)
      && bs[data..data + 8] == Big(8, |t.data|) && bs[data + 8..] == t.data
  {
    hide Radix, Big, ShapeBytes;
    var t, c := f.tensor, |f.ctx|;
    var h, len := Header(f), Big(8, |t.data|);
    assert |h| == 9;
    Places(f.Kind(), h, f.ctx, ShapeBytes(t.shape) + (len + t.data));
    Places3(bs, 10 + c, ShapeBytes(t.shape), len, t.data);
    assert bs[1..5] == bs[1..10][0..4] && bs[6..8] == bs[1..10][5..7] && bs[8..10] == bs[1..10][7..9];
    assert h[0..4] == Big(4, f.batch) && h[5..7] == Big(2, |t.shape|) && h[7..9] == Big(2, c);
    assert bs[5] == bs[1..10][4] == h[4];
  }

  /** The parts of a frame. */
  lemma Places(kind: Byte, h: seq<Byte>, ctx: seq<Byte>, body: seq<Byte>)
    ensures var bs := [kind] + (h + (ctx + body));
      var at := 1 + |h|;
      && bs[0] == kind && bs[1..at] == h && bs[at..at + |ctx|] == ctx && bs[at + |ctx|..] == body
  {
  }

  lemma Places3(bs: seq<Byte>, at: nat, a: seq<Byte>, b: seq<Byte>, d: seq<Byte>)
    requires at <= |bs| && bs[at..] == a + (b + d)
    ensures |bs| == at + |a| + |b| + |d|
    ensures bs[at..at + |a|] == a && bs[at + |a|..at + |a| + |b|] == b && bs[at + |a| + |b|..] == d
  {
    assert bs[at..][..|a|] == a && bs[at..][|a|..|a| + |b|] == b && bs[at..][|a| + |b|..] == d;
  }

  /** A handle: kind in lower case, batch, length of the handle, length of the context; then the context
      and the handle. */
  lemma ByHandleLayout(f: Frame)
    requires f.Packable() && f.ByHandle?
    ensures var bs, c := Encode(f), |f.ctx|;
      && |bs| == 11 + c + |f.handle|
      && bs[0] == (if f.backward then 'b' else 'f') as int
      && BigEndian(bs[1..5], f.batch) && BigEndian(bs[5..9], |f.handle|) && BigEndian(bs[9..11], c)
      && bs[11..11 + c] == f.ctx && bs[11 + c..] == f.handle
  {
    var bs, c := Encode(f), |f.ctx|;
    assert bs[0] == (if f.backward then 'b' else 'f') as int;
    BigIs(4, f.batch);
    BigIs(4, |f.handle|);
    BigIs(2, c);
    hide Radix, BigEndian, Big;
    var h := Header(f);
    Places(f.Kind(), h, f.ctx, f.handle);
    assert h[0..4] == Big(4, f.batch) && h[4..8] == Big(4, |f.handle|) && h[8..10] == Big(2, c);
    assert bs[1..5] == bs[1..11][0..4] && bs[5..9] == bs[1..11][4..8] && bs[9..11] == bs[1..11][8..10];
  }
}
