/** Reading frames off a connection: short reads, timeouts and a reused receive buffer, proved to give
    exactly what the parser gives on the bytes alone. */
module TensorStream {
  import opened Wrappers
  import opened FrameCodec

  /** What the next `recv_into` meets: its second passes with nothing to read, or bytes are there, at
      most `limit` of them, and at least one unless the peer has closed. */
  datatype Arrival = Quiet | UpTo(limit: nat)

  datatype Received = Timeout | Bytes(n: nat)

  /** A connection: the bytes the peer will still send before it closes, how they will arrive (all
      together once `arrivals` is used up), and what was sent back. */
  class Socket {
    var incoming: seq<Byte>
    var arrivals: seq<Arrival>
    var sent: seq<Byte>

    constructor (incoming: seq<Byte>, arrivals: seq<Arrival>)
      ensures this.incoming == incoming && this.arrivals == arrivals && sent == []
    {
      this.incoming, this.arrivals, sent := incoming, arrivals, [];
    }

    predicate QuietNow()
      reads this`arrivals
    {
      arrivals != [] && arrivals[0].Quiet?
    }

    method RecvInto(buf: array<Byte>, lo: nat, hi: nat) returns (r: Received)
      requires lo < hi <= buf.Length
      modifies this`incoming, this`arrivals, buf
      ensures r.Timeout? <==> old(QuietNow())
      ensures r.Timeout? ==> incoming == old(incoming) && |arrivals| < |old(arrivals)| && buf[..] == old(buf[..])
      ensures r.Bytes? ==>
        && r.n <= hi - lo && r.n <= |old(incoming)| && (r.n == 0 <==> old(incoming) == [])
        && |arrivals| <= |old(arrivals)|
        && incoming == old(incoming)[r.n..]
        && buf[..lo + r.n] == old(buf[..lo]) + old(incoming)[..r.n]
    {
      var limit := |incoming|;
      if arrivals != [] {
        var next := arrivals[0];
        arrivals := arrivals[1..];
        if next.Quiet? {
          return Timeout;
        }
        limit := if next.limit == 0 then 1 else next.limit;
      }
      var n := hi - lo;
      n := if limit < n then limit else n;
      n := if |incoming| < n then |incoming| else n;
      forall i | 0 <= i < n {
        buf[lo + i] := incoming[i];
      }
      incoming := incoming[n..];
      r := Bytes(n);
    }
  }

  datatype Filled = Full | TimedOut | Ended(end: Ending)

  /** `_recv_into`: the first `n` bytes of `buf` are filled however the bytes arrive. A timeout shows
      only where the caller allows one and nothing was read yet, and then nothing is lost. */
  method Fill(sock: Socket, buf: array<Byte>, n: nat, idleTimeoutOk: bool := false) returns (r: Filled)
    requires n <= buf.Length
    modifies sock`incoming, sock`arrivals, buf
    ensures |sock.arrivals| <= |old(sock.arrivals)|
    ensures r.TimedOut? <==> idleTimeoutOk && n > 0 && old(sock.QuietNow())
    ensures r.TimedOut? ==> sock.incoming == old(sock.incoming) && |sock.arrivals| < |old(sock.arrivals)|
    ensures !r.TimedOut? ==>
      match Field(old(sock.incoming), n)
      case Got(bytes, rest) => r == Full && buf[..n] == bytes && sock.incoming == rest
      case Stop(end) => r == Ended(end)
  {
    var offset := 0;
    ghost var s := sock.incoming;
    while offset < n
      invariant offset <= n && offset <= |s|
      invariant sock.incoming == s[offset..] && buf[..offset] == s[..offset]
      invariant |sock.arrivals| <= |old(sock.arrivals)|
      invariant idleTimeoutOk && old(sock.QuietNow()) && n > 0 ==> offset == 0 && sock.arrivals == old(sock.arrivals)
      invariant idleTimeoutOk && offset == 0 ==> sock.arrivals == old(sock.arrivals)
      decreases |sock.incoming|, |sock.arrivals|
    {
      var got := sock.RecvInto(buf, offset, n);
      match got
      case Timeout =>
        if idleTimeoutOk && offset == 0 {
          return TimedOut;
        }
      case Bytes(k) =>
        if k == 0 {
          return Ended(if offset == 0 then Closed else Cut);
        }
        offset := offset + k;
        assert s[..offset - k] + s[offset - k..][..k] == s[..offset];
    }
    r := Full;
  }

  /** `_RecvBuf`: one receive buffer for all frames of a connection; it only grows. */
  class RecvBuf {
    var arr: array?<Byte>

    constructor ()
      ensures arr == null
    {
      arr := null;
    }

    method Get(n: nat) returns (view: array<Byte>)
      modifies this
      ensures arr == view && view.Length >= n
      ensures if old(arr) != null && old(arr).Length >= n then view == old(arr)
      else fresh(view) && (view.Length == n || view.Length == n * 5 / 4)
    {
      if arr == null || arr.Length < n {
        arr := new Byte[if n * 5 / 4 > n then n * 5 / 4 else n];
      }
      view := arr;
    }
  }

  /** A frame, or why there is none. */
  datatype Outcome = Frame(frame: Frame) | Failed(end: Ending)

  /** What a reader makes of the bytes alone. */
  ghost predicate Agrees(parsed: Read<Frame>, r: Outcome, left: seq<Byte>) {
    match parsed
    case Got(f, rest) => r == Frame(f) && left == rest
    case Stop(end) => r == Failed(end)
  }

  /** `_read_tensor_frame_rest`. */
  method ReadTensorFrameRest(sock: Socket, recvBuf: RecvBuf, backward: bool) returns (r: Outcome)
    modifies sock`incoming, sock`arrivals, recvBuf, recvBuf.arr
    ensures |sock.arrivals| <= |old(sock.arrivals)|
    ensures recvBuf.arr == old(recvBuf.arr) || fresh(recvBuf.arr)
    ensures Agrees(ByValueRest(backward, old(sock.incoming)), r, sock.incoming)
  {
    var rest := new Byte[9];
    var filled := Fill(sock, rest, 9);
    if filled.Ended? {
      return Failed(filled.end);
    }
    var h := rest[..9];
    hide Value, TensorOf, Field;
    var ndim, ctxLen := Value(h[5..7]), Value(h[7..9]);
    var ctx := new Byte[ctxLen];
    filled := Fill(sock, ctx, ctxLen);
    if filled.Ended? {
      return Failed(filled.end);
    }
    var tensor;
    tensor, filled := ReadTensor(sock, recvBuf, h[4], ndim);
    match filled
    case Ended(end) => return Failed(end);
    case _ => return Frame(ByValue(backward, Value(h[..4]), ctx[..ctxLen], tensor));
  }

  /** The shape, the length and the elements; the elements are copied out of the shared buffer. */
  method ReadTensor(sock: Socket, recvBuf: RecvBuf, code: Byte, ndim: nat) returns (t: Tensor, r: Filled)
    modifies sock`incoming, sock`arrivals, recvBuf, recvBuf.arr
    ensures |sock.arrivals| <= |old(sock.arrivals)|
    ensures recvBuf.arr == old(recvBuf.arr) || fresh(recvBuf.arr)
    ensures match TensorOf(code, ndim, old(sock.incoming))
      case Got(t', rest) => r == Full && t == t' && sock.incoming == rest
      case Stop(end) => r == Ended(end)
  {
    t := Tensor(FLOAT32, [], []);
    var shape := new Byte[8 * ndim];
    r := Fill(sock, shape, 8 * ndim);
    if r.Ended? {
      return;
    }
    var size := new Byte[8];
    r := Fill(sock, size, 8);
    if r.Ended? {
      return;
    }
    var n := Value(size[..8]);
    var buf := recvBuf.Get(n);
    r := Fill(sock, buf, n);
    if r.Ended? {
      return;
    }
    match Rebuild(code, Dims(shape[..8 * ndim], ndim), buf[..n])
    case Some(t') => t := t';
    case None => r := Ended(Refused);
  }

  /** `_read_ipc_frame_rest`: the sender hears back once the handle is no longer needed. */
  method ReadIpcFrameRest(sock: Socket, backward: bool) returns (r: Outcome)
    modifies sock
    ensures |sock.arrivals| <= |old(sock.arrivals)|
    ensures Agrees(ByHandleRest(backward, old(sock.incoming)), r, sock.incoming)
    ensures sock.sent == old(sock.sent) + if r.Frame? then [0] else []
  {
    var rest := new Byte[10];
    var filled := Fill(sock, rest, 10);
    if filled.Ended? {
      return Failed(filled.end);
    }
    var h := rest[..10];
    hide Value, Field;
    var handleLen, ctxLen := Value(h[4..8]), Value(h[8..10]);
    var ctx := new Byte[ctxLen];
    filled := Fill(sock, ctx, ctxLen);
    if filled.Ended? {
      return Failed(filled.end);
    }
    var handle := new Byte[handleLen];
    filled := Fill(sock, handle, handleLen);
    if filled.Ended? {
      return Failed(filled.end);
    }
    sock.sent := sock.sent + [0];
    r := Frame(ByHandle(backward, Value(h[..4]), ctx[..ctxLen], handle[..handleLen]));
  }

  /** The branch on the kind of frame. */
  method ReadFrameRest(sock: Socket, recvBuf: RecvBuf, kind: Byte) returns (r: Outcome)
    modifies sock, recvBuf, recvBuf.arr
    ensures |sock.arrivals| <= |old(sock.arrivals)|
    ensures recvBuf.arr == old(recvBuf.arr) || fresh(recvBuf.arr)
    ensures Agrees(Rest(kind, old(sock.incoming)), r, sock.incoming)
    ensures sock.sent == old(sock.sent) + if r.Frame? then Ack(r.frame) else []
  {
    hide ByValueRest, ByHandleRest;
    if kind == 70 || kind == 66 {
      r := ReadTensorFrameRest(sock, recvBuf, kind == 66);
    } else if kind == 102 || kind == 98 {
      r := ReadIpcFrameRest(sock, kind == 98);
    } else {
      r := Failed(Refused);
    }
  }

  /** One acknowledgement for a handle, none for a tensor sent by value. */
  function Ack(f: FrameCodec.Frame): seq<Byte> {
    if f.ByHandle? then [0] else []
  }

  function Acks(frames: seq<FrameCodec.Frame>): seq<Byte> {
    if frames == [] then [] else Acks(frames[..|frames| - 1]) + Ack(frames[|frames| - 1])
  }

  /** What is handed on after one more frame. */
  lemma OneMore(frames: seq<FrameCodec.Frame>, f: FrameCodec.Frame, later: seq<FrameCodec.Frame>)
    ensures frames + ([f] + later) == (frames + [f]) + later
    ensures Acks(frames + [f]) == Acks(frames) + Ack(f)
  {
    assert (frames + [f])[..|frames|] == frames;
  }

  /** `_handle_tensor_conn`: the frames handed on, in order, are those the parser finds in the bytes,
      whatever the arrivals were. */
  method HandleTensorConn(sock: Socket) returns (frames: seq<FrameCodec.Frame>, end: Ending)
    modifies sock
    ensures Decoded(frames, end) == Decode(old(sock.incoming))
    ensures sock.sent == old(sock.sent) + Acks(frames)
  {
    var recvBuf := new RecvBuf();
    var kind := new Byte[1];
    frames := [];
    while true
      invariant fresh(recvBuf) && fresh(kind) && kind.Length == 1
      invariant recvBuf.arr == null || (fresh(recvBuf.arr) && recvBuf.arr != kind)
      invariant var d := Decode(sock.incoming);
        Decode(old(sock.incoming)) == Decoded(frames + d.frames, d.end)
      invariant sock.sent == old(sock.sent) + Acks(frames)
      decreases |sock.incoming|, |sock.arrivals|
    {
      DecodeStep(sock.incoming);
      hide Decode, Acks, Ack, Rest, Field;
      var filled := Fill(sock, kind, 1, true);
      match filled
      case TimedOut =>
      case Ended(e) => return frames, e;
      case Full =>
        var r := ReadFrameRest(sock, recvBuf, kind[0]);
        match r
        case Failed(e) => return frames, e;
        case Frame(f) =>
          OneMore(frames, f, Decode(sock.incoming).frames);
          frames := frames + [f];
    }
  }
}
