/** The wire form of the frames two neighbouring workers exchange over TCP: a printer, a parser over
    bytes, and what the parser makes of a printed stream, whole or cut short. */
module FrameCodec {
  import opened Sequences
  import opened Wrappers
  import Arithmetic

  type Byte = b: int | 0 <= b < 256

  // ── big-endian numbers ───────────────────────────────────────────────────────

  /** How many values `k` bytes can hold. */
  function Radix(k: nat): nat {
    if k == 0 then 1 else 256 * Radix(k - 1)
  }

  function Big(k: nat, v: nat): (bs: seq<Byte>)
    requires v < Radix(k)
    ensures |bs| == k
  {
    if k == 0 then [] else Big(k - 1, v / 256) + [v % 256]
  }

  function Value(bs: seq<Byte>): nat {
    if bs == [] then 0 else Value(bs[..|bs| - 1]) * 256 + bs[|bs| - 1]
  }

  lemma {:induction false} ValueOfBig(k: nat, v: nat)
    requires v < Radix(k)
    ensures Value(Big(k, v)) == v
  {
    if k > 0 {
      ValueOfBig(k - 1, v / 256);
      assert Big(k, v)[..k - 1] == Big(k - 1, v / 256);
    }
  }

  /** Two's complement on eight bytes, as `!q` reads them. */
  function Signed(v: nat): int {
    if v < Radix(8) / 2 then v else v - Radix(8)
  }

  // ── tensors and frames ───────────────────────────────────────────────────────

  /** The nine element types with a code, and the others a tensor may have. */
  datatype DType =
    | FLOAT32 | FLOAT16 | BFLOAT16 | FLOAT64 | INT64 | INT32 | UINT8 | INT8 | BOOL
    | Unlisted(name: string, size: nat)
  {
    predicate Sound() {
      Unlisted? ==> size > 0
    }

    function ItemSize(): nat {
      match this
      case FLOAT32 | INT32 => 4
      case FLOAT16 | BFLOAT16 => 2
      case FLOAT64 | INT64 => 8
      case UINT8 | INT8 | BOOL => 1
      case Unlisted(_, size) => size
    }

    /** `_dtype_to_code`: a type without a code is announced as FLOAT32. */
    function Code(): Byte {
      match this
      case FLOAT32 => 0
      case FLOAT16 => 1
      case BFLOAT16 => 2
      case FLOAT64 => 3
      case INT64 => 4
      case INT32 => 5
      case UINT8 => 6
      case INT8 => 7
      case BOOL => 8
      case Unlisted(_, _) => 0
    }
  }

  /** `_code_to_dtype`. */
  function FromCode(code: Byte): DType {
    match code
    case 1 => FLOAT16
    case 2 => BFLOAT16
    case 3 => FLOAT64
    case 4 => INT64
    case 5 => INT32
    case 6 => UINT8
    case 7 => INT8
    case 8 => BOOL
    case _ => FLOAT32
  }

  function Product(shape: seq<int>): int {
    if shape == [] then 1 else Product(shape[..|shape| - 1]) * shape[|shape| - 1]
  }

  datatype Tensor = Tensor(dtype: DType, shape: seq<int>, data: seq<Byte>) {
    predicate Sound() {
      && dtype.Sound()
      && (forall i | 0 <= i < |shape| :: 0 <= shape[i] < Radix(8) / 2)
      && |data| == Product(shape) * dtype.ItemSize()
    }
  }

  /** A tensor sent by value, or the handle of one that stays in shared device memory. */
  datatype Frame =
    | ByValue(backward: bool, batch: int, ctx: seq<Byte>, tensor: Tensor)
    | ByHandle(backward: bool, batch: int, ctx: seq<Byte>, handle: seq<Byte>)
  {
    /** "F", "B", "f" or "b". */
    function Kind(): Byte {
      match this
      case ByValue(backward, _, _, _) => if backward then 66 else 70
      case ByHandle(backward, _, _, _) => if backward then 98 else 102
    }

    /** Every field fits the width the header gives it; otherwise packing raises. */
    predicate Packable() {
      && 0 <= batch < Radix(4) && |ctx| < Radix(2)
      && match this
         case ByValue(_, _, _, t) => t.Sound() && |t.shape| < Radix(2) && |t.data| < Radix(8)
         case ByHandle(_, _, _, h) => |h| < Radix(4)
    }
  }

  // ── printing ─────────────────────────────────────────────────────────────────

  function ShapeBytes(shape: seq<int>): (bs: seq<Byte>)
    requires forall i | 0 <= i < |shape| :: 0 <= shape[i] < Radix(8) / 2
    ensures |bs| == 8 * |shape|
  {
    if shape == [] then [] else ShapeBytes(shape[..|shape| - 1]) + Big(8, shape[|shape| - 1])
  }

  /** The nine or ten bytes after the kind. */
  function Header(f: Frame): (bs: seq<Byte>)
    requires f.Packable()
  {
    match f
    case ByValue(_, batch, ctx, t) => Big(4, batch) + [t.dtype.Code()] + Big(2, |t.shape|) + Big(2, |ctx|)
    case ByHandle(_, batch, ctx, h) => Big(4, batch) + Big(4, |h|) + Big(2, |ctx|)
  }

  function TensorBytes(t: Tensor): (bs: seq<Byte>)
    requires t.Sound() && |t.data| < Radix(8)
  {
    ShapeBytes(t.shape) + (Big(8, |t.data|) + t.data)
  }

  /** Everything after the context. */
  function Body(f: Frame): (bs: seq<Byte>)
    requires f.Packable()
  {
    match f
    case ByValue(_, _, _, t) => TensorBytes(t)
    case ByHandle(_, _, _, h) => h
  }

  function Encode(f: Frame): (bs: seq<Byte>)
    requires f.Packable()
    ensures |bs| > 0
  {
    [f.Kind()] + (Header(f) + (f.ctx + Body(f)))
  }

  predicate AllPackable(fs: seq<Frame>) {
    forall i | 0 <= i < |fs| :: fs[i].Packable()
  }

  function EncodeAll(fs: seq<Frame>): seq<Byte>
    requires AllPackable(fs)
  {
    if fs == [] then [] else Encode(fs[0]) + EncodeAll(fs[1..])
  }

  // ── parsing ──────────────────────────────────────────────────────────────────

  /** Why reading stopped: no byte of a field had come, some but not all had, or the bytes make no
      frame. */
  datatype Ending = Closed | Cut | Refused

  datatype Read<T> = Got(value: T, rest: seq<Byte>) | Stop(end: Ending) {
    predicate IsFailure() {
      Stop?
    }

    function PropagateFailure<U>(): Read<U>
      requires Stop?
    {
      Stop(end)
    }

    function Extract(): (T, seq<Byte>)
      requires Got?
    {
      (value, rest)
    }
  }

  /** `_recv_into` on a stream that holds `s` before the peer closes it. */
  function Field(s: seq<Byte>, n: nat): (r: Read<seq<Byte>>)
    ensures r.Got? ==> |r.value| == n && |r.rest| == |s| - n
    ensures r.Got? <==> n <= |s|
    ensures r == Stop(Closed) <==> |s| == 0 < n
    ensures r != Stop(Refused)
  {
    if n <= |s| then Got(s[..n], s[n..]) else if s == [] then Stop(Closed) else Stop(Cut)
  }

  /** `_SHAPE_ITEM.unpack_from` at each multiple of eight. */
  function Dims(bs: seq<Byte>, n: nat): (shape: seq<int>)
    requires |bs| == 8 * n
    ensures |shape| == n
  {
    seq(n, i requires 0 <= i < n => Signed(Value(bs[8 * i..8 * i + 8])))
  }

  /** `torch.frombuffer(data, dtype).reshape(shape)`: an empty buffer, a length that is no whole number
      of elements and a shape with another number of elements all raise. */
  function Rebuild(code: Byte, shape: seq<int>, data: seq<Byte>): Option<Tensor> {
    var dtype := FromCode(code);
    if data == [] || |data| % dtype.ItemSize() != 0 then None
    else if (exists i | 0 <= i < |shape| :: shape[i] < 0) || Product(shape) != |data| / dtype.ItemSize() then None
    else Some(Tensor(dtype, shape, data))
  }

  /** The shape, the length and the elements. */
  function TensorOf(code: Byte, ndim: nat, s: seq<Byte>): (r: Read<Tensor>)
    ensures r.Got? ==> |r.rest| < |s|
  {
    var (dims, s1) :- Field(s, 8 * ndim);
    var (size, s2) :- Field(s1, 8);
    var (data, s3) :- Field(s2, Value(size));
    match Rebuild(code, Dims(dims, ndim), data)
    case Some(t) => Got(t, s3)
    case None => Stop(Refused)
  }

  /** `_read_tensor_frame_rest`. */
  function ByValueRest(backward: bool, s: seq<Byte>): (r: Read<Frame>)
    ensures r.Got? ==> r.value.ByValue? && |r.rest| < |s|
  {
    var (h, s1) :- Field(s, 9);
    var (ctx, s2) :- Field(s1, Value(h[7..9]));
    var (t, s3) :- TensorOf(h[4], Value(h[5..7]), s2);
    Got(ByValue(backward, Value(h[..4]), ctx, t), s3)
  }

  /** `_read_ipc_frame_rest`; opening the handle is not modelled. */
  function ByHandleRest(backward: bool, s: seq<Byte>): (r: Read<Frame>)
    ensures r.Got? ==> r.value.ByHandle? && |r.rest| < |s|
  {
    var (h, s1) :- Field(s, 10);
    var (ctx, s2) :- Field(s1, Value(h[8..10]));
    var (handle, s3) :- Field(s2, Value(h[4..8]));
    Got(ByHandle(backward, Value(h[..4]), ctx, handle), s3)
  }

  function Rest(kind: Byte, s: seq<Byte>): (r: Read<Frame>)
    ensures r.Got? ==> |r.rest| < |s|
  {
    if kind == 70 || kind == 66 then ByValueRest(kind == 66, s)
    else if kind == 102 || kind == 98 then ByHandleRest(kind == 98, s)
    else Stop(Refused)
  }

  /** One turn of `_handle_tensor_conn`. */
  function Next(s: seq<Byte>): (r: Read<Frame>)
    ensures r.Got? ==> |r.rest| < |s|
  {
    var (kind, s1) :- Field(s, 1);
    Rest(kind[0], s1)
  }

  datatype Decoded = Decoded(frames: seq<Frame>, end: Ending)

  /** All turns, until the connection ends. */
  function Decode(s: seq<Byte>): Decoded
    decreases |s|
  {
    match Next(s)
    case Stop(end) => Decoded([], end)
    case Got(f, rest) => var d := Decode(rest); Decoded([f] + d.frames, d.end)
  }

  // ── round trip of one frame ──────────────────────────────────────────────────

  lemma FieldOf(a: seq<Byte>, r: seq<Byte>)
    ensures Field(a + r, |a|) == Got(a, r)
  {
    assert (a + r)[..|a|] == a && (a + r)[|a|..] == r;
  }

  lemma {:induction false} ShapeAt(shape: seq<int>, i: nat)
    requires i < |shape|
    requires forall k | 0 <= k < |shape| :: 0 <= shape[k] < Radix(8) / 2
    ensures ShapeBytes(shape)[8 * i..8 * i + 8] == Big(8, shape[i])
  {
    var n := |shape| - 1;
    var init, last := ShapeBytes(shape[..n]), Big(8, shape[n]);
    if i == n {
      assert (init + last)[8 * n..8 * n + 8] == last;
    } else {
      ShapeAt(shape[..n], i);
      assert (init + last)[8 * i..8 * i + 8] == init[8 * i..8 * i + 8];
    }
  }

  lemma DimsOf(shape: seq<int>)
    requires forall k | 0 <= k < |shape| :: 0 <= shape[k] < Radix(8) / 2
    ensures Dims(ShapeBytes(shape), |shape|) == shape
  {
    hide Radix;
    forall i | 0 <= i < |shape| ensures Signed(Value(ShapeBytes(shape)[8 * i..8 * i + 8])) == shape[i] {
      ShapeAt(shape, i);
      ValueOfBig(8, shape[i]);
    }
  }

  lemma {:induction false} ProductSign(shape: seq<int>)
    requires forall k | 0 <= k < |shape| :: shape[k] >= 0
    ensures Product(shape) >= 0
  {
    if shape != [] {
      ProductSign(shape[..|shape| - 1]);
    }
  }

  /** A tensor comes back as it was exactly when it holds at least one element and its element type has
      a code. */
  predicate Carried(t: Tensor) {
    t.data != [] && !t.dtype.Unlisted?
  }

  lemma FromCodeOf(d: DType)
    ensures FromCode(d.Code()) == if d.Unlisted? then FLOAT32 else d
  {
  }

  lemma RebuildIs(t: Tensor)
    requires t.Sound()
    ensures Rebuild(t.dtype.Code(), t.shape, t.data) == Some(t) <==> Carried(t)
  {
    FromCodeOf(t.dtype);
    ProductSign(t.shape);
    Arithmetic.DivMod(t.dtype.ItemSize(), Product(t.shape), 0);
  }

  lemma MulApart(p: nat, a: nat, q: nat)
    requires p * a == q * 4 && p > 0 && a > 0
    ensures q == p <==> a == 4
  {
    assert q == p ==> p * (a - 4) == 0;
    assert p * (a - 4) == 0 ==> a == 4;
  }

  /** What becomes of an element type without a code: four-byte elements silently arrive as FLOAT32,
      every other size ends the connection. */
  lemma UnlistedDtype(t: Tensor)
    requires t.Sound() && t.dtype.Unlisted? && t.data != []
    ensures Rebuild(t.dtype.Code(), t.shape, t.data)
      == if t.dtype.size == 4 then Some(t.(dtype := FLOAT32)) else None
  {
    FromCodeOf(t.dtype);
    ProductSign(t.shape);
    var p, a, n := Product(t.shape), t.dtype.size, |t.data|;
    assert p == 0 ==> p * a == 0;
    if n % 4 == 0 {
      assert n == n / 4 * 4;
      MulApart(p, a, n / 4);
    } else if a == 4 {
      Arithmetic.DivMod(4, p, 0);
    }
  }

  /** A frame the reader gives back as it was. */
  predicate Delivered(f: Frame) {
    f.ByValue? ==> Carried(f.tensor)
  }

  predicate AllDelivered(fs: seq<Frame>) {
    forall i | 0 <= i < |fs| :: Delivered(fs[i])
  }

  lemma HeaderOf(f: Frame)
    requires f.Packable() && f.ByValue?
    ensures var h := Header(f);
      && |h| == 9 && h[4] == f.tensor.dtype.Code()
      && Value(h[..4]) == f.batch && Value(h[5..7]) == |f.tensor.shape| && Value(h[7..9]) == |f.ctx|
  {
    hide Radix, Value, FromCode;
    var h := Header(f);
    assert h[..4] == Big(4, f.batch) && h[5..7] == Big(2, |f.tensor.shape|) && h[7..9] == Big(2, |f.ctx|);
    ValueOfBig(4, f.batch);
    ValueOfBig(2, |f.tensor.shape|);
    ValueOfBig(2, |f.ctx|);
  }

  lemma HandleHeaderOf(f: Frame)
    requires f.Packable() && f.ByHandle?
    ensures var h := Header(f);
      && |h| == 10 && Value(h[..4]) == f.batch && Value(h[4..8]) == |f.handle| && Value(h[8..10]) == |f.ctx|
  {
    hide Radix, Value;
    var h := Header(f);
    assert h[..4] == Big(4, f.batch) && h[4..8] == Big(4, |f.handle|) && h[8..10] == Big(2, |f.ctx|);
    ValueOfBig(4, f.batch);
    ValueOfBig(4, |f.handle|);
    ValueOfBig(2, |f.ctx|);
  }

  lemma TensorOfBytes(t: Tensor, r: seq<Byte>)
    requires t.Sound() && |t.data| < Radix(8)
    ensures TensorOf(t.dtype.Code(), |t.shape|, TensorBytes(t) + r)
      == match Rebuild(t.dtype.Code(), t.shape, t.data)
         case Some(t') => Got(t', r)
         case None => Stop(Refused)
  {
    var size := Big(8, |t.data|);
    ValueOfBig(8, |t.data|);
    DimsOf(t.shape);
    hide Radix, Value, Dims, Rebuild, ShapeBytes, Big;
    AppendAssoc(ShapeBytes(t.shape), size + t.data, r);
    FieldOf(ShapeBytes(t.shape), (size + t.data) + r);
    AppendAssoc(size, t.data, r);
    FieldOf(size, t.data + r);
    FieldOf(t.data, r);
  }

  lemma ByValueRestOf(f: Frame, r: seq<Byte>)
    requires f.Packable() && f.ByValue?
    ensures ByValueRest(f.backward, Header(f) + (f.ctx + (Body(f) + r)))
      == match Rebuild(f.tensor.dtype.Code(), f.tensor.shape, f.tensor.data)
         case Some(t) => Got(f.(tensor := t), r)
         case None => Stop(Refused)
  {
    HeaderOf(f);
    TensorOfBytes(f.tensor, r);
    hide Radix, Value, TensorOf, Rebuild, TensorBytes, Header;
    FieldOf(Header(f), f.ctx + (Body(f) + r));
    FieldOf(f.ctx, Body(f) + r);
  }

  lemma ByHandleRestOf(f: Frame, r: seq<Byte>)
    requires f.Packable() && f.ByHandle?
    ensures ByHandleRest(f.backward, Header(f) + (f.ctx + (Body(f) + r))) == Got(f, r)
  {
    HandleHeaderOf(f);
    hide Radix, Value, Big, Header;
    FieldOf(Header(f), f.ctx + (Body(f) + r));
    FieldOf(f.ctx, Body(f) + r);
    FieldOf(f.handle, r);
  }

  lemma NextOf(f: Frame, r: seq<Byte>)
    requires f.Packable()
    ensures Next(Encode(f) + r) == Rest(f.Kind(), Header(f) + (f.ctx + (Body(f) + r)))
  {
    hide Radix, Header, Body, Rest;
    AppendAssoc([f.Kind()], Header(f) + (f.ctx + Body(f)), r);
    AppendAssoc(Header(f), f.ctx + Body(f), r);
    AppendAssoc(f.ctx, Body(f), r);
    FieldOf([f.Kind()], Header(f) + (f.ctx + (Body(f) + r)));
  }

  /** Reading a printed frame, whatever follows it, gives the frame back exactly when its tensor is
      carried, and never touches what follows; nothing else of the frame can spoil it. */
  lemma FrameRoundTrip(f: Frame, r: seq<Byte>)
    requires f.Packable()
    ensures var n := Next(Encode(f) + r);
      && (n.Got? && n.value == f <==> Delivered(f))
      && (n.Got? ==> n.rest == r)
  {
    NextOf(f, r);
    hide Next, Encode;
    if f.ByValue? {
      ByValueRestOf(f, r);
      RebuildIs(f.tensor);
    } else {
      ByHandleRestOf(f, r);
    }
    hide Radix, ByValueRest, ByHandleRest, Header, Body, Rebuild;
  }

  // ── streams, whole and cut short ─────────────────────────────────────────────

  /** Every sequence of frames is read back as it was sent, and the end of the stream as a clean close,
      exactly when every frame is one that is carried. */
  lemma {:induction false} StreamRoundTrip(fs: seq<Frame>)
    requires AllPackable(fs)
    ensures Decode(EncodeAll(fs)) == Decoded(fs, Closed) <==> AllDelivered(fs)
  {
    if fs != [] {
      var r := EncodeAll(fs[1..]);
      FrameRoundTrip(fs[0], r);
      StreamRoundTrip(fs[1..]);
      hide Next, Encode, Delivered;
      DecodeStep(Encode(fs[0]) + r);
      hide Decode;
      if Next(Encode(fs[0]) + r).Got? {
        SameList(Next(Encode(fs[0]) + r).value, Decode(r).frames, fs);
      }
    }
  }

  lemma DecodeStep(s: seq<Byte>)
    ensures Decode(s) == match Next(s)
      case Stop(end) => Decoded([], end)
      case Got(f, rest) => Decoded([f] + Decode(rest).frames, Decode(rest).end)
  {
  }

  lemma SameList(f: Frame, rest: seq<Frame>, fs: seq<Frame>)
    requires fs != []
    ensures [f] + rest == fs <==> f == fs[0] && rest == fs[1..]
  {
    assert fs == [fs[0]] + fs[1..];
    assert ([f] + rest)[1..] == rest;
  }

  /** What a turn makes of `s` it makes of `s` with more bytes after it, unless it ran out of bytes. */
  ghost predicate Extends<T>(short: Read<T>, long: Read<T>, u: seq<Byte>) {
    match short
    case Got(f, rest) => long == Got(f, rest + u)
    case Stop(end) => end == Refused ==> long == Stop(Refused)
  }

  lemma FieldExtends(s: seq<Byte>, u: seq<Byte>, n: nat)
    requires n <= |s|
    ensures Field(s + u, n) == Got(s[..n], s[n..] + u)
  {
    assert (s + u)[..n] == s[..n] && (s + u)[n..] == s[n..] + u;
  }

  lemma NextExtends(s: seq<Byte>, u: seq<Byte>)
    ensures Extends(Next(s), Next(s + u), u)
  {
    if |s| >= 1 {
      FieldExtends(s, u, 1);
      ByValueExtends(s[0] == 66, s[1..], u);
      ByHandleExtends(s[0] == 98, s[1..], u);
      hide ByValueRest, ByHandleRest;
    }
  }

  lemma TensorExtends(code: Byte, ndim: nat, s: seq<Byte>, u: seq<Byte>)
    ensures Extends(TensorOf(code, ndim, s), TensorOf(code, ndim, s + u), u)
  {
    hide Value, Rebuild, Dims;
    var d := 8 * ndim;
    if d <= |s| {
      FieldExtends(s, u, d);
      var s1 := s[d..];
      if 8 <= |s1| {
        FieldExtends(s1, u, 8);
        var n := Value(s1[..8]);
        if n <= |s1[8..]| {
          FieldExtends(s1[8..], u, n);
        }
      }
    }
  }

  lemma ByValueExtends(backward: bool, s: seq<Byte>, u: seq<Byte>)
    ensures Extends(ByValueRest(backward, s), ByValueRest(backward, s + u), u)
  {
    hide Value;
    if |s| >= 9 {
      var h, s1 := s[..9], s[9..];
      FieldExtends(s, u, 9);
      var c := Value(h[7..9]);
      if c <= |s1| {
        FieldExtends(s1, u, c);
        TensorExtends(h[4], Value(h[5..7]), s1[c..], u);
        hide TensorOf;
      }
    }
  }

  lemma ByHandleExtends(backward: bool, s: seq<Byte>, u: seq<Byte>)
    ensures Extends(ByHandleRest(backward, s), ByHandleRest(backward, s + u), u)
  {
    hide Value, Radix;
    if |s| >= 10 {
      var h, s1 := s[..10], s[10..];
      FieldExtends(s, u, 10);
      var c, n := Value(h[8..10]), Value(h[4..8]);
      if c <= |s1| {
        FieldExtends(s1, u, c);
        if n <= |s1[c..]| {
          FieldExtends(s1[c..], u, n);
        }
      }
    }
  }

  /** A frame cut short anywhere gives no frame and no misread one. */
  lemma CutFrame(f: Frame, p: nat)
    requires f.Packable() && Delivered(f) && p < |Encode(f)|
    ensures Next(Encode(f)[..p]) == Stop(Closed) || Next(Encode(f)[..p]) == Stop(Cut)
  {
    var s, u := Encode(f)[..p], Encode(f)[p..];
    assert s + u == Encode(f) == Encode(f) + [];
    NextExtends(s, u);
    FrameRoundTrip(f, []);
    hide Next, Encode;
  }

  lemma Prefix(a: seq<Byte>, b: seq<Byte>, p: nat)
    requires p <= |a + b|
    ensures p < |a| ==> (a + b)[..p] == a[..p]
    ensures p >= |a| ==> (a + b)[..p] == a + b[..p - |a|]
  {
    if p >= |a| {
      assert (a + b)[..p] == a + b[..p - |a|];
    }
  }

  /** How many frames lie whole within the first `p` bytes. */
  function Whole(fs: seq<Frame>, p: nat): (k: nat)
    requires AllPackable(fs)
    ensures k <= |fs|
  {
    if fs == [] || p < |Encode(fs[0])| then 0 else 1 + Whole(fs[1..], p - |Encode(fs[0])|)
  }

  /** A connection that breaks after any number of bytes delivers exactly the frames that lie whole
      within them, in order, and is never taken for a malformed one. */
  lemma {:induction false} CutStream(fs: seq<Frame>, p: nat)
    requires AllPackable(fs) && AllDelivered(fs)
    requires p <= |EncodeAll(fs)|
    ensures var d := Decode(EncodeAll(fs)[..p]);
      d.frames == fs[..Whole(fs, p)] && d.end != Refused
  {
    if fs != [] {
      var a, r := Encode(fs[0]), EncodeAll(fs[1..]);
      assert AllDelivered(fs[1..]) && EncodeAll(fs) == a + r;
      CutFirst(fs[0], r, p);
      assert Whole(fs, p) == if p < |a| then 0 else 1 + Whole(fs[1..], p - |a|);
      hide Encode, Decode, AllPackable, AllDelivered, EncodeAll, Whole;
      if p >= |a| {
        CutStream(fs[1..], p - |a|);
        FirstOf(fs, Decode(r[..p - |a|]).frames, Whole(fs[1..], p - |a|));
      }
    }
  }

  lemma CutFirst(f: Frame, r: seq<Byte>, p: nat)
    requires f.Packable() && Delivered(f) && p <= |Encode(f) + r|
    ensures var a := Encode(f); var d := Decode((a + r)[..p]);
      if p < |a| then d.frames == [] && d.end != Refused
      else var later := Decode(r[..p - |a|]); d == Decoded([f] + later.frames, later.end)
  {
    var a := Encode(f);
    hide Next, Encode, Decode, Delivered;
    Prefix(a, r, p);
    DecodeStep((a + r)[..p]);
    if p < |a| {
      CutFrame(f, p);
    } else {
      FrameRoundTrip(f, r[..p - |a|]);
    }
  }

  lemma FirstOf(fs: seq<Frame>, later: seq<Frame>, k: nat)
    requires k < |fs| && later == fs[1..][..k]
    ensures [fs[0]] + later == fs[..1 + k]
  {
  }

  /** A field of a printed frame begins after `p` bytes of it. */
  predicate FieldBegins(f: Frame, p: nat)
    requires f.Packable()
  {
    || p == 0
    || p == 1
    || match f
       case ByValue(_, _, ctx, t) =>
         p == 10 || (p >= 10 + |ctx| && TensorFieldBegins(t, p - 10 - |ctx|))
       case ByHandle(_, _, ctx, _) =>
         p == 11 || p == 11 + |ctx|
  }

  predicate TensorFieldBegins(t: Tensor, p: nat) {
    p == 0 || p == 8 * |t.shape| || p == 8 * |t.shape| + 8
  }

  lemma FieldCut(a: seq<Byte>, b: seq<Byte>, p: nat)
    requires p <= |a + b|
    ensures p < |a| ==> Field((a + b)[..p], |a|) == Stop(if p == 0 then Closed else Cut)
    ensures p >= |a| ==> Field((a + b)[..p], |a|) == Got(a, b[..p - |a|])
  {
    Prefix(a, b, p);
    if p >= |a| {
      FieldOf(a, b[..p - |a|]);
    }
  }

  lemma TensorCut(t: Tensor, p: nat)
    requires t.Sound() && |t.data| < Radix(8) && p < |TensorBytes(t)|
    ensures TensorOf(t.dtype.Code(), |t.shape|, TensorBytes(t)[..p])
      == Stop(if TensorFieldBegins(t, p) then Closed else Cut)
  {
    var size, d := Big(8, |t.data|), 8 * |t.shape|;
    ValueOfBig(8, |t.data|);
    hide Radix, Value, Rebuild, ShapeBytes, Dims, Big, Field;
    FieldCut(ShapeBytes(t.shape), size + t.data, p);
    if p >= d {
      FieldCut(size, t.data, p - d);
      if p >= d + 8 {
        FieldCut(t.data, [], p - d - 8);
        assert t.data + [] == t.data;
      }
    }
  }

  lemma HeaderCut(backward: bool, h: seq<Byte>, ctx: seq<Byte>, body: seq<Byte>, p: nat)
    requires |h| == 9 && Value(h[7..9]) == |ctx| && p <= |h + (ctx + body)|
    ensures ByValueRest(backward, (h + (ctx + body))[..p])
      == if p < 9 then Stop(if p == 0 then Closed else Cut)
         else if p < 9 + |ctx| then Stop(if p == 9 then Closed else Cut)
         else match TensorOf(h[4], Value(h[5..7]), body[..p - 9 - |ctx|])
           case Got(t, rest) => Got(ByValue(backward, Value(h[..4]), ctx, t), rest)
           case Stop(end) => Stop(end)
  {
    hide Value, TensorOf, Field;
    FieldCut(h, ctx + body, p);
    if p >= 9 {
      FieldCut(ctx, body, p - 9);
    }
  }

  lemma ByValueCut(f: Frame, p: nat)
    requires f.Packable() && f.ByValue? && p < |Header(f) + (f.ctx + Body(f))|
    ensures ByValueRest(f.backward, (Header(f) + (f.ctx + Body(f)))[..p])
      == Stop(if FieldBegins(f, p + 1) then Closed else Cut)
  {
    HeaderOf(f);
    HeaderCut(f.backward, Header(f), f.ctx, Body(f), p);
    hide Radix, Value, TensorOf, TensorBytes, Header, TensorFieldBegins, ByValueRest;
    if p >= 9 + |f.ctx| {
      TensorCut(f.tensor, p - 9 - |f.ctx|);
    }
  }

  lemma ByHandleCut(f: Frame, p: nat)
    requires f.Packable() && f.ByHandle? && p < |Header(f) + (f.ctx + Body(f))|
    ensures ByHandleRest(f.backward, (Header(f) + (f.ctx + Body(f)))[..p])
      == Stop(if FieldBegins(f, p + 1) then Closed else Cut)
  {
    HandleHeaderOf(f);
    hide Radix, Value, Big, Header, Field;
    FieldCut(Header(f), f.ctx + Body(f), p);
    if p >= 10 {
      FieldCut(f.ctx, Body(f), p - 10);
      if p >= 10 + |f.ctx| {
        FieldCut(f.handle, [], p - 10 - |f.ctx|);
        assert f.handle + [] == f.handle;
      }
    }
  }

  /** A connection that breaks inside a frame is reported as an error exactly when it does not break
      where a field begins: there the reader takes it for a clean close between frames. */
  lemma BrokenLooksClosed(f: Frame, p: nat)
    requires f.Packable() && p < |Encode(f)|
    ensures Next(Encode(f)[..p]) == Stop(if FieldBegins(f, p) then Closed else Cut)
  {
    var s := Header(f) + (f.ctx + Body(f));
    FieldCut([f.Kind()], s, p);
    if p > 0 { RestCut(f, p - 1); }
    hide Radix, Rest, Header, Body, Field, FieldBegins;
  }

  lemma RestCut(f: Frame, p: nat)
    requires f.Packable() && p < |Encode(f)| - 1
    ensures Rest(f.Kind(), (Header(f) + (f.ctx + Body(f)))[..p]) == Stop(if FieldBegins(f, p + 1) then Closed else Cut)
  {
    hide Radix, ByValueRest, ByHandleRest, Header, Body, Field, FieldBegins;
    if f.ByValue? {
      ByValueCut(f, p);
    } else {
      ByHandleCut(f, p);
    }
  }
}
