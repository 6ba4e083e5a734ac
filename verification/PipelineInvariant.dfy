/** What every reachable state of the worker pipeline looks like, worker by worker and link by link.

    The state of a worker is a function of three counters: how many forwards and backwards of the
    current batch it has done (`f`, `b`), and how many labels it has taken (`l`). The messages on
    a link are the ones its sender has produced and its receiver has not used yet, in order. */
module PipelineInvariant {
  import opened Network
  import opened Wavefront
  import opened Protocol

  datatype Pos = Pos(f: nat, b: nat, l: nat)

  /** A run so far: where it started, the finished batches, the memory they led to, the batch in
      progress. */
  datatype Data = Data(net: Net, ids: Ids, start: Memory, past: seq<Batch>, mem: Memory, batch: Batch)

  /** The memory after a list of batches, each trained as slices that are processes of their own. */
  ghost function MemAfter(net: Net, start: Memory, past: seq<Batch>): (m: Memory)
    requires WellFormed(net, start)
    requires forall j | 0 <= j < |past| :: 0 < |past[j].xs| == |past[j].ys|
    ensures WellFormed(net, m) && m.params.Keys == start.params.Keys && m.rng == start.rng
    ensures start.grads == map[] ==> m.grads == map[]
  {
    if past == [] then start
    else
      var last := past[|past| - 1];
      Synced(net, MemAfter(net, start, past[..|past| - 1]), last.xs, last.ys)
  }

  ghost predicate Good(d: Data) {
    && Quiet(d.net) && Sound(d.ids) && d.ids.k == |d.batch.xs|
    && 0 < |d.batch.xs| == |d.batch.ys|
    && WellFormed(d.net, d.start) && d.start.rng == 0 && d.start.grads == map[]
    && (forall j | 0 <= j < |d.past| :: |d.past[j].xs| == |d.past[j].ys| == |d.batch.xs|)
    && d.mem == MemAfter(d.net, d.start, d.past)
  }

  function K(d: Data): nat {
    |d.batch.xs|
  }

  function Id(d: Data, m: nat): nat {
    d.ids.micro(d.batch.id, m)
  }

  lemma GoodFacts(d: Data)
    requires Good(d)
    ensures 0 < K(d) == |d.batch.xs| == |d.batch.ys| == d.ids.k && 0 < d.net.n == |d.mem.bufs|
    ensures d.mem.opt.Keys == d.mem.params.Keys && WellFormed(d.net, d.mem)
  {
    hide Sound, Quiet;
  }

  lemma IdsDiffer(d: Data, m: nat, m': nat)
    requires Good(d) && m < m' < K(d)
    ensures Id(d, m) != Id(d, m')
  {
  }

  // ── what is kept between tasks ───────────────────────────────────────────────

  /** The kept graphs of the micro-batches `lo .. hi`. */
  ghost function Outs(d: Data, i: nat, lo: nat, hi: nat): map<nat, (Tensor, Tape)>
    requires Good(d) && i < d.net.n && hi <= K(d)
  {
    if lo >= hi then map[]
    else Outs(d, i, lo, hi - 1)[Id(d, hi - 1) := (Output(d.net, d.mem, d.batch.xs, hi - 1, i),
                                                Cell(d.net, d.mem, d.batch.xs, hi - 1, i))]
  }

  ghost function Labs(d: Data, lo: nat, hi: nat): map<nat, Tensor>
    requires Good(d) && hi <= K(d)
  {
    if lo >= hi then map[] else Labs(d, lo, hi - 1)[Id(d, hi - 1) := d.batch.ys[hi - 1]]
  }

  lemma {:induction false} OutsFirst(d: Data, i: nat, lo: nat, hi: nat)
    requires Good(d) && i < d.net.n && lo < hi <= K(d)
    ensures Id(d, lo) in Outs(d, i, lo, hi)
    ensures Outs(d, i, lo, hi)[Id(d, lo)] ==
        (Output(d.net, d.mem, d.batch.xs, lo, i), Cell(d.net, d.mem, d.batch.xs, lo, i))
    ensures Outs(d, i, lo, hi) - {Id(d, lo)} == Outs(d, i, lo + 1, hi)
  {
    if lo + 1 < hi {
      OutsFirst(d, i, lo, hi - 1);
      IdsDiffer(d, lo, hi - 1);
    } else {
      assert Outs(d, i, lo, lo) == map[];
    }
  }

  lemma {:induction false} LabsFirst(d: Data, lo: nat, hi: nat)
    requires Good(d) && lo < hi <= K(d)
    ensures Id(d, lo) in Labs(d, lo, hi) && Labs(d, lo, hi)[Id(d, lo)] == d.batch.ys[lo]
    ensures Labs(d, lo, hi) - {Id(d, lo)} == Labs(d, lo + 1, hi)
  {
    if lo + 1 < hi {
      LabsFirst(d, lo, hi - 1);
      IdsDiffer(d, lo, hi - 1);
    } else {
      assert Labs(d, lo, lo) == map[];
    }
  }

  /** `.grad` of the parameters `ps` of slice `i` after `b` backwards. */
  ghost function GradMap(d: Data, i: nat, ps: set<Param>, b: nat): map<Param, Tensor>
    requires Good(d) && i < d.net.n && b <= K(d)
  {
    if b == 0 then map[] else map p | p in ps :: LocalGrad(d.net, d.mem, d.batch.xs, d.batch.ys, b, i, p)
  }

  /** The parameters of slice `i` whose `.grad` is set. */
  function Holding(d: Data, i: nat, w: Worker, p: Pos): set<Param> {
    if p.b < K(d) then d.net.uses(i)
    else if w.phase.Syncing? then Owned(d.net, i) + w.phase.left
    else {}
  }

  predicate Stepped(d: Data, w: Worker, p: Pos) {
    p.b == K(d) && !w.phase.Syncing?
  }

  ghost function OptOf(d: Data, i: nat, stepped: bool): map<Param, Tensor>
    requires Good(d) && i < d.net.n
  {
    map p | p in Owned(d.net, i) ::
      if stepped then SyncedStep(d.net, d.mem, d.batch.xs, d.batch.ys, p).1 else d.mem.opt[p]
  }

  ghost function LossOf(d: Data, b: nat): map<nat, Tensor>
    requires Good(d) && b <= K(d)
  {
    if 0 < b < K(d) then map[d.batch.id := LossAt(d.net, d.mem, d.batch.xs, d.batch.ys, b)] else map[]
  }

  ghost predicate CountsOk(d: Data, i: nat, p: Pos) {
    && p.b <= p.f <= K(d) && p.l <= K(d)
    && if i + 1 == d.net.n then p.b == (if p.f < p.l then p.f else p.l) else p.l == 0
  }

  ghost predicate PhaseOk(d: Data, i: nat, w: Worker, p: Pos)
    requires Good(d) && i < d.net.n && CountsOk(d, i, p)
  {
    match w.phase
    case Idle => true
    case Activating(id, y) =>
      i + 1 < d.net.n && p.f > 0 && id == Id(d, p.f - 1) && y == Output(d.net, d.mem, d.batch.xs, p.f - 1, i)
    case Syncing(id, g, left) =>
      && p.b == K(d) && id == Id(d, K(d) - 1) && left <= Replicas(d.net, i)
      && g == GradIn(d.net, d.mem, d.batch.xs, d.batch.ys, K(d) - 1, i)
    case Pushing(id, g, copies) =>
      && p.b > 0 && id == Id(d, p.b - 1) && copies <= Copies(d.net, i) && (copies != {} ==> p.b == K(d))
      && g == GradIn(d.net, d.mem, d.batch.xs, d.batch.ys, p.b - 1, i)
  }

  /** Everything about worker `i` that no other worker changes. */
  ghost predicate LocalOk(d: Data, i: nat, w: Worker, p: Pos)
    requires Good(d) && i < d.net.n
  {
    && CountsOk(d, i, p)
    && PhaseOk(d, i, w, p)
    && w.buf == BufAt(d.net, d.mem, d.batch.xs, p.f, i)
    && w.outputs == Outs(d, i, p.b, p.f)
    && w.labels == Labs(d, p.b, p.l)
    && w.losses == (if i + 1 == d.net.n then LossOf(d, p.b) else map[])
    && w.grads == GradMap(d, i, Holding(d, i, w, p), p.b)
    && w.opt == OptOf(d, i, Stepped(d, w, p))
    && w.params.Keys == d.net.uses(i)
  }

  // ── messages ─────────────────────────────────────────────────────────────────

  function Inputs(q: seq<Task>): seq<Task> {
    if q == [] then []
    else if q[0].Input? then [q[0]] + Inputs(q[1..]) else Inputs(q[1..])
  }

  function Targets(q: seq<Task>): seq<Task> {
    if q == [] then []
    else if q[0].Target? then [q[0]] + Targets(q[1..]) else Targets(q[1..])
  }

  function Gradients(q: seq<Task>): seq<Task> {
    if q == [] then []
    else if q[0].Gradient? then [q[0]] + Gradients(q[1..]) else Gradients(q[1..])
  }

  lemma {:induction false} InputsSnoc(q: seq<Task>, t: Task)
    ensures Inputs(q + [t]) == Inputs(q) + if t.Input? then [t] else []
  {
    if q != [] {
      InputsSnoc(q[1..], t);
      assert (q + [t])[1..] == q[1..] + [t];
    }
  }

  lemma {:induction false} TargetsSnoc(q: seq<Task>, t: Task)
    ensures Targets(q + [t]) == Targets(q) + if t.Target? then [t] else []
  {
    if q != [] {
      TargetsSnoc(q[1..], t);
      assert (q + [t])[1..] == q[1..] + [t];
    }
  }

  lemma {:induction false} GradientsSnoc(q: seq<Task>, t: Task)
    ensures Gradients(q + [t]) == Gradients(q) + if t.Gradient? then [t] else []
  {
    if q != [] {
      GradientsSnoc(q[1..], t);
      assert (q + [t])[1..] == q[1..] + [t];
    }
  }

  /** The activations of micro-batches `lo .. hi`, as slice `i` receives them. */
  ghost function InputSeq(d: Data, i: nat, lo: nat, hi: nat): (q: seq<Task>)
    requires Good(d) && i < d.net.n && hi <= K(d)
    ensures |q| == if lo >= hi then 0 else hi - lo
    decreases hi
  {
    if lo >= hi then []
    else InputSeq(d, i, lo, hi - 1) + [Input(Id(d, hi - 1), Cell(d.net, d.mem, d.batch.xs, hi - 1, i).x)]
  }

  /** The gradients of micro-batches `lo .. hi`, as slice `i` receives them. */
  ghost function GradSeq(d: Data, i: nat, lo: nat, hi: nat): (q: seq<Task>)
    requires Good(d) && i < d.net.n && hi <= K(d)
    ensures |q| == if lo >= hi then 0 else hi - lo
    decreases hi
  {
    if lo >= hi then []
    else GradSeq(d, i, lo, hi - 1) +
         [Gradient(Id(d, hi - 1), GradIn(d.net, d.mem, d.batch.xs, d.batch.ys, hi - 1, i + 1))]
  }

  ghost function LabelSeq(d: Data, lo: nat, hi: nat): (q: seq<Task>)
    requires Good(d) && hi <= K(d)
    ensures |q| == if lo >= hi then 0 else hi - lo
    decreases hi
  {
    if lo >= hi then [] else LabelSeq(d, lo, hi - 1) + [Target(Id(d, hi - 1), d.batch.ys[hi - 1])]
  }

  lemma {:induction false} InputSeqFirst(d: Data, i: nat, lo: nat, hi: nat)
    requires Good(d) && i < d.net.n && lo < hi <= K(d)
    ensures InputSeq(d, i, lo, hi)[0] == Input(Id(d, lo), Cell(d.net, d.mem, d.batch.xs, lo, i).x)
    ensures InputSeq(d, i, lo, hi)[1..] == InputSeq(d, i, lo + 1, hi)
    decreases hi
  {
    if lo + 1 < hi { InputSeqFirst(d, i, lo, hi - 1); }
  }

  lemma {:induction false} GradSeqFirst(d: Data, i: nat, lo: nat, hi: nat)
    requires Good(d) && i < d.net.n && lo < hi <= K(d)
    ensures GradSeq(d, i, lo, hi)[0] == Gradient(Id(d, lo), GradIn(d.net, d.mem, d.batch.xs, d.batch.ys, lo, i + 1))
    ensures GradSeq(d, i, lo, hi)[1..] == GradSeq(d, i, lo + 1, hi)
    decreases hi
  {
    if lo + 1 < hi { GradSeqFirst(d, i, lo, hi - 1); }
  }

  lemma {:induction false} LabelSeqFirst(d: Data, lo: nat, hi: nat)
    requires Good(d) && lo < hi <= K(d)
    ensures LabelSeq(d, lo, hi)[0] == Target(Id(d, lo), d.batch.ys[lo])
    ensures LabelSeq(d, lo, hi)[1..] == LabelSeq(d, lo + 1, hi)
    decreases hi
  {
    if lo + 1 < hi { LabelSeqFirst(d, lo, hi - 1); }
  }

  /** How many activations worker `w` has sent, and how many gradients. */
  function Shipped(w: Worker, p: Pos): int {
    if w.phase.Activating? then p.f - 1 else p.f
  }

  function Returned(w: Worker, p: Pos): int {
    if w.phase.Syncing? || w.phase.Pushing? then p.b - 1 else p.b
  }

  /** What was sent to worker `i`: activations, gradients, labels. */
  function SentF(s: System, pos: seq<Pos>, i: nat): int
    requires i < |s.ws| == |pos|
  {
    if i == 0 then s.driver.sent / 2 else Shipped(s.ws[i - 1], pos[i - 1])
  }

  function SentB(s: System, pos: seq<Pos>, i: nat): int
    requires i < |s.ws| == |pos|
  {
    if i + 1 == |s.ws| then pos[i].b else Returned(s.ws[i + 1], pos[i + 1])
  }

  function SentL(s: System, i: nat): int {
    if i + 1 == |s.ws| then (s.driver.sent + 1) / 2 else 0
  }

  /** The messages for `w` that it has not run yet, and no others. */
  ghost predicate LinkOk(d: Data, i: nat, w: Worker, p: Pos, f: int, b: int, l: int)
    requires Good(d) && i < d.net.n
  {
    && p.f <= f <= K(d) && Inputs(w.queue) + w.fromPrev == InputSeq(d, i, p.f, f)
    && p.b <= b <= K(d) && Gradients(w.queue) + w.fromNext == GradSeq(d, i, p.b, b)
    && p.l <= l <= K(d) && Targets(w.queue) + w.fromDriver == LabelSeq(d, p.l, l)
  }

  // ── shared parameters ────────────────────────────────────────────────────────

  /** Worker `i` holds the new value of `p`. */
  ghost predicate New(d: Data, s: System, pos: seq<Pos>, p: Param, i: nat)
    requires |s.ws| == |pos| == d.net.n && Owner(d.net, p) < d.net.n
  {
    var o := Owner(d.net, p);
    && Stepped(d, s.ws[o], pos[o])
    && (o == i || !(s.ws[o].phase.Pushing? && (p, i) in s.ws[o].phase.copies))
  }

  ghost predicate ParamsOk(d: Data, s: System, pos: seq<Pos>, i: nat)
    requires Good(d) && |s.ws| == |pos| == d.net.n && i < d.net.n
  {
    forall p | p in d.net.uses(i) ::
      && p in s.ws[i].params && Owner(d.net, p) <= i
      && s.ws[i].params[p] == if New(d, s, pos, p, i) then SyncedStep(d.net, d.mem, d.batch.xs, d.batch.ys, p).0
                              else d.mem.params[p]
  }

  /** Worker `w` has sent its gradient of the tied parameter `p` for this batch. */
  predicate Posted(d: Data, w: Worker, q: Pos, p: Param) {
    q.b == K(d) && !(w.phase.Syncing? && p in w.phase.left)
  }

  /** The gradients of `p` sent by the slices from `k` on, in the order they were sent. */
  ghost function PostedGrads(d: Data, s: System, pos: seq<Pos>, p: Param, k: nat): seq<Tensor>
    requires Good(d) && |s.ws| == |pos| == d.net.n && k <= d.net.n
    decreases d.net.n - k
  {
    if k == d.net.n then []
    else PostedGrads(d, s, pos, p, k + 1) +
         if p in d.net.uses(k) && Posted(d, s.ws[k], pos[k], p)
         then [LocalGrad(d.net, d.mem, d.batch.xs, d.batch.ys, K(d), k, p)] else []
  }

  function TiedList(w: Worker, q: (Param, nat)): seq<Tensor> {
    if q in w.tied then w.tied[q] else []
  }

  ghost predicate TiedOk(d: Data, s: System, pos: seq<Pos>, o: nat)
    requires Good(d) && |s.ws| == |pos| == d.net.n && o < d.net.n
  {
    && (forall q | q in s.ws[o].tied :: q.0 in Owned(d.net, o) && q.1 == d.batch.id && s.ws[o].tied[q] != [])
    && (forall p | p in Owned(d.net, o) ::
          TiedList(s.ws[o], (p, d.batch.id)) ==
          if Stepped(d, s.ws[o], pos[o]) then [] else PostedGrads(d, s, pos, p, o + 1))
  }

  // ── history ──────────────────────────────────────────────────────────────────

  /** The ids of the first `m` micro-batches of batch `b`, in order. */
  function IdsOf(ids: Ids, b: nat, m: nat): seq<nat> {
    if m == 0 then [] else IdsOf(ids, b, m - 1) + [ids.micro(b, m - 1)]
  }

  /** Every micro-batch of every batch of `past`, once, in order. */
  function AllIds(ids: Ids, past: seq<Batch>): seq<nat> {
    if past == [] then []
    else AllIds(ids, past[..|past| - 1]) + IdsOf(ids, past[|past| - 1].id, ids.k)
  }

  function BatchIds(past: seq<Batch>): seq<nat> {
    if past == [] then [] else BatchIds(past[..|past| - 1]) + [past[|past| - 1].id]
  }

  /** The id of the last micro-batch of every batch of `past`. */
  function LastIds(ids: Ids, past: seq<Batch>): seq<nat>
    requires 0 < ids.k
  {
    if past == [] then []
    else LastIds(ids, past[..|past| - 1]) + [ids.micro(past[|past| - 1].id, ids.k - 1)]
  }

  /** The mean loss of every batch of `past`, with the id it is reported under. */
  ghost function Reports(net: Net, ids: Ids, start: Memory, past: seq<Batch>): seq<(nat, real)>
    requires WellFormed(net, start) && 0 < ids.k
    requires forall j | 0 <= j < |past| :: |past[j].xs| == |past[j].ys| == ids.k
  {
    if past == [] then []
    else
      var last := past[|past| - 1];
      Reports(net, ids, start, past[..|past| - 1]) +
      [(ids.micro(last.id, ids.k - 1),
        Mean(LossAt(net, MemAfter(net, start, past[..|past| - 1]), last.xs, last.ys, ids.k), ids.k))]
  }

  ghost predicate HistoryOk(d: Data, i: nat, w: Worker, p: Pos)
    requires Good(d) && i < d.net.n
  {
    && w.ran == AllIds(d.ids, d.past) + IdsOf(d.ids, d.batch.id, p.f)
    && w.backed == AllIds(d.ids, d.past) + IdsOf(d.ids, d.batch.id, p.b)
    && w.stepped == BatchIds(d.past) + (if Stepped(d, w, p) then [d.batch.id] else [])
    && w.reported == (if i + 1 == d.net.n
         then Reports(d.net, d.ids, d.start, if p.b == K(d) then d.past + [d.batch] else d.past) else [])
  }

  ghost predicate DriverOk(d: Data, s: System, pos: seq<Pos>)
    requires Good(d) && |s.ws| == |pos| == d.net.n
  {
    && s.driver.batch == d.batch && s.driver.finished == d.past && s.driver.sent <= 2 * K(d)
    && (s.driver.done <==> Returned(s.ws[0], pos[0]) == K(d))
    && s.driver.events == LastIds(d.ids, if s.driver.done then d.past + [d.batch] else d.past)
  }

  // ── the invariant ────────────────────────────────────────────────────────────

  ghost predicate LocalAt(d: Data, s: System, pos: seq<Pos>, i: nat)
    requires Good(d) && |s.ws| == |pos| == d.net.n && i < d.net.n
  {
    LocalOk(d, i, s.ws[i], pos[i])
  }

  ghost predicate HistoryAt(d: Data, s: System, pos: seq<Pos>, i: nat)
    requires Good(d) && |s.ws| == |pos| == d.net.n && i < d.net.n
  {
    HistoryOk(d, i, s.ws[i], pos[i])
  }

  ghost predicate LinkAt(d: Data, s: System, pos: seq<Pos>, i: nat)
    requires Good(d) && |s.ws| == |pos| == d.net.n && i < d.net.n
  {
    LinkOk(d, i, s.ws[i], pos[i], SentF(s, pos, i), SentB(s, pos, i), SentL(s, i))
  }

  ghost predicate Inv(d: Data, s: System, pos: seq<Pos>) {
    && Good(d) && |s.ws| == |pos| == d.net.n
    && (forall i: nat | i < d.net.n :: LocalAt(d, s, pos, i))
    && (forall i: nat | i < d.net.n :: HistoryAt(d, s, pos, i))
    && (forall i: nat | i < d.net.n :: LinkAt(d, s, pos, i))
    && (forall i: nat | i < d.net.n :: ParamsOk(d, s, pos, i))
    && (forall i: nat | i < d.net.n :: TiedOk(d, s, pos, i))
    && DriverOk(d, s, pos)
  }

  /** The counters of worker `i` against those of its neighbours. */
  ghost predicate CountsAt(d: Data, s: System, pos: seq<Pos>, i: nat)
    requires |s.ws| == |pos| == d.net.n && i < d.net.n
  {
    && CountsOk(d, i, pos[i])
    && pos[i].f <= SentF(s, pos, i) <= K(d) && pos[i].b <= SentB(s, pos, i) <= K(d) && pos[i].l <= SentL(s, i) <= K(d)
    && (s.ws[i].phase.Activating? ==> pos[i].f > 0)
    && (s.ws[i].phase.Syncing? || s.ws[i].phase.Pushing? ==> pos[i].b > 0)
  }

  lemma CountsFor(d: Data, s: System, pos: seq<Pos>, i: nat)
    requires Inv(d, s, pos) && i < d.net.n
    ensures CountsAt(d, s, pos, i)
  {
    assert LocalAt(d, s, pos, i) && LinkAt(d, s, pos, i);
  }

  lemma AllCounts(d: Data, s: System, pos: seq<Pos>)
    requires Inv(d, s, pos)
    ensures forall i: nat | i < d.net.n :: CountsAt(d, s, pos, i)
  {
    forall i: nat | i < d.net.n ensures CountsAt(d, s, pos, i) { CountsFor(d, s, pos, i); }
  }

  /** Slices finish a batch from the last to the first: a slice that has done `b` backwards got
      every one of those gradients from the slice above, which had done them before. */
  lemma {:induction false} Chain(d: Data, s: System, pos: seq<Pos>, i: nat, j: nat)
    requires |s.ws| == |pos| == d.net.n && i <= j < d.net.n
    requires forall i: nat | i < d.net.n :: CountsAt(d, s, pos, i)
    ensures pos[i].b <= pos[j].b && pos[i].b <= pos[j].f
    ensures i < j ==> pos[i].b <= Returned(s.ws[j], pos[j])
    ensures pos[j].f <= pos[i].f && (i < j ==> pos[j].f <= Shipped(s.ws[i], pos[i]))
    decreases j - i
  {
    assert CountsAt(d, s, pos, i) && CountsAt(d, s, pos, j);
    if i < j {
      Chain(d, s, pos, i, j - 1);
      assert CountsAt(d, s, pos, j - 1);
    }
  }

  /** Before worker `i` has done its last backward it still holds the old value of everything it
      uses. */
  lemma OldParams(d: Data, s: System, pos: seq<Pos>, i: nat)
    requires Inv(d, s, pos) && i < d.net.n && pos[i].b < K(d)
    ensures Restrict(s.ws[i].params, d.net.uses(i)) == Restrict(d.mem.params, d.net.uses(i))
  {
    AllCounts(d, s, pos);
    assert ParamsOk(d, s, pos, i);
    forall p | p in d.net.uses(i) ensures !New(d, s, pos, p, i) {
      NotNew(d, s, pos, i, p);
    }
    SameValues(d, i, s.ws[i]);
  }

  lemma SameValues(d: Data, i: nat, w: Worker)
    requires Good(d) && i < d.net.n
    requires forall p | p in d.net.uses(i) :: p in w.params && p in d.mem.params && w.params[p] == d.mem.params[p]
    ensures Restrict(w.params, d.net.uses(i)) == Restrict(d.mem.params, d.net.uses(i))
  {
  }

  lemma NotNew(d: Data, s: System, pos: seq<Pos>, i: nat, p: Param)
    requires |s.ws| == |pos| == d.net.n && i < d.net.n && p in d.net.uses(i) && pos[i].b < K(d)
    requires forall i: nat | i < d.net.n :: CountsAt(d, s, pos, i)
    ensures Owner(d.net, p) <= i && !New(d, s, pos, p, i)
  {
    Chain(d, s, pos, Owner(d.net, p), i);
  }
}
