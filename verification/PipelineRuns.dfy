/** Runs of the worker pipeline: the invariant holds of every reachable state, so whenever
    `batch_done` has arrived the workers hold what the same batches would have left in one
    process, everything was done once and in order, and nothing is left anywhere. */
module PipelineRuns {
  import opened Network
  import opened Wavefront
  import opened Protocol
  import opened PipelineInvariant
  import opened PipelineFrames
  import PipelineSteps
  import PipelineHandovers
  import PipelineSync
  import PipelineOptimize

  // ── when batch_done has arrived ──────────────────────────────────────────────

  /** Worker `w` has nothing left to do for the batch and keeps nothing of it. */
  predicate Clear(w: Worker) {
    && w.phase.Idle? && w.queue == [] && w.fromPrev == [] && w.fromNext == [] && w.fromDriver == []
    && w.outputs == map[] && w.labels == map[] && w.losses == map[] && w.grads == map[] && w.tied == map[]
  }

  /** Every slice has done every forward and every backward and is between tasks. */
  lemma AllDone(d: Data, s: System, pos: seq<Pos>, i: nat)
    requires Inv(d, s, pos) && s.driver.done && i < d.net.n
    ensures pos[i].f == pos[i].b == K(d) && (i + 1 == d.net.n ==> pos[i].l == K(d)) && s.ws[i].phase.Idle?
  {
    hide Good, LocalAt, HistoryAt, LinkAt, ParamsOk, TiedOk;
    AllCounts(d, s, pos);
    Chain(d, s, pos, 0, i);
    assert CountsAt(d, s, pos, i);
    NotActivating(d, s, pos, i);
  }

  /** `batch_done` never arrives before the driver has sent the whole batch. */
  lemma AllSent(d: Data, s: System, pos: seq<Pos>)
    requires Inv(d, s, pos) && s.driver.done
    ensures s.driver.sent == 2 * K(d)
  {
    GoodFacts(d);
    hide Good, LocalAt, HistoryAt, LinkAt, ParamsOk, TiedOk;
    AllCounts(d, s, pos);
    AllDone(d, s, pos, 0);
    AllDone(d, s, pos, d.net.n - 1);
    assert CountsAt(d, s, pos, 0) && CountsAt(d, s, pos, d.net.n - 1);
  }

  lemma NotActivating(d: Data, s: System, pos: seq<Pos>, i: nat)
    requires Inv(d, s, pos) && s.driver.done && i < d.net.n
    ensures !s.ws[i].phase.Activating?
  {
    hide Good, HistoryAt, LinkAt, ParamsOk, TiedOk, LocalOk, FirstUser;
    AllCounts(d, s, pos);
    if i + 1 < d.net.n {
      Chain(d, s, pos, 0, i + 1);
      Chain(d, s, pos, i, i + 1);
      assert CountsAt(d, s, pos, 0) && CountsAt(d, s, pos, i);
    } else {
      assert LocalAt(d, s, pos, i);
      LastNeverSends(d, i, s.ws[i], pos[i]);
    }
  }

  lemma LastNeverSends(d: Data, i: nat, w: Worker, p: Pos)
    requires Good(d) && i + 1 == d.net.n && LocalOk(d, i, w, p)
    ensures !w.phase.Activating?
  {
    hide Good, Output, GradIn;
  }

  lemma {:induction false} EmptyQueue(q: seq<Task>)
    requires Inputs(q) == [] && Targets(q) == [] && Gradients(q) == []
    ensures q == []
  {
  }

  lemma AllIdle(d: Data, s: System, pos: seq<Pos>, i: nat)
    requires Inv(d, s, pos) && s.driver.done && i < d.net.n
    ensures Clear(s.ws[i])
  {
    hide Good, HistoryAt, LocalAt, LinkAt, ParamsOk, TiedOk, FirstUser;
    AllDone(d, s, pos, i);
    IdleLocal(d, s, pos, i);
    IdleLinks(d, s, pos, i);
    IdleTied(d, s, pos, i);
  }

  lemma IdleLocal(d: Data, s: System, pos: seq<Pos>, i: nat)
    requires Inv(d, s, pos) && i < d.net.n && pos[i].f == pos[i].b == K(d) && s.ws[i].phase.Idle?
    requires i + 1 == d.net.n ==> pos[i].l == K(d)
    ensures s.ws[i].outputs == map[] && s.ws[i].labels == map[] && s.ws[i].losses == map[] && s.ws[i].grads == map[]
  {
    hide Sound, Quiet, MemAfter, HistoryAt, LinkAt, ParamsOk, TiedOk, FirstUser, LocalGrad, Cell;
    assert LocalAt(d, s, pos, i);
  }

  lemma IdleLinks(d: Data, s: System, pos: seq<Pos>, i: nat)
    requires Inv(d, s, pos) && i < d.net.n && pos[i].f == pos[i].b == K(d)
    requires i + 1 == d.net.n ==> pos[i].l == K(d)
    ensures s.ws[i].queue == [] && s.ws[i].fromPrev == [] && s.ws[i].fromNext == [] && s.ws[i].fromDriver == []
  {
    hide Good, MemAfter, HistoryAt, LocalAt, ParamsOk, TiedOk, FirstUser, Cell, GradIn;
    assert LinkAt(d, s, pos, i);
    EmptyQueue(s.ws[i].queue);
  }

  lemma IdleTied(d: Data, s: System, pos: seq<Pos>, i: nat)
    requires Inv(d, s, pos) && i < d.net.n && pos[i].b == K(d) && s.ws[i].phase.Idle?
    ensures s.ws[i].tied == map[]
  {
    hide Good, HistoryAt, LocalAt, LinkAt, ParamsOk, FirstUser, PostedGrads;
    assert TiedOk(d, s, pos, i);
    forall p: Param ensures p in Owned(d.net, i) ==> (p, d.batch.id) !in s.ws[i].tied {
      if p in Owned(d.net, i) { assert TiedList(s.ws[i], (p, d.batch.id)) == []; }
    }
  }

  /** Every copy of every parameter has the value its owner stepped to. */
  lemma AllNew(d: Data, s: System, pos: seq<Pos>, i: nat, p: Param)
    requires Inv(d, s, pos) && s.driver.done && i < d.net.n && p in d.net.uses(i)
    ensures p in s.ws[i].params && p in d.mem.params && WellFormed(d.net, d.mem) && 0 < |d.batch.xs| == |d.batch.ys|
    ensures s.ws[i].params[p] == SyncedStep(d.net, d.mem, d.batch.xs, d.batch.ys, p).0
  {
    hide Good, HistoryAt, LocalAt, LinkAt, TiedOk, SyncedStep, FirstUser;
    GoodFacts(d);
    assert ParamsOk(d, s, pos, i);
    AllDone(d, s, pos, Owner(d.net, p));
    assert New(d, s, pos, p, i);
  }

  // ── the next batch ───────────────────────────────────────────────────────────

  /** What the run has led to once `batch` is trained. */
  ghost function Advance(d: Data, batch: Batch): Data
    requires Good(d)
  {
    GoodFacts(d);
    Data(d.net, d.ids, d.start, d.past + [d.batch], Synced(d.net, d.mem, d.batch.xs, d.batch.ys), batch)
  }

  lemma AdvanceGood(d: Data, batch: Batch)
    requires Good(d) && |batch.xs| == |batch.ys| == d.ids.k
    ensures Good(Advance(d, batch))
  {
    hide Sound, Quiet, Synced;
    var past := d.past + [d.batch];
    assert past[..|past| - 1] == d.past;
  }

  lemma AdvanceLocal(d: Data, batch: Batch, i: nat, w: Worker, p: Pos)
    requires Good(d) && Good(Advance(d, batch)) && i < d.net.n && LocalOk(d, i, w, p) && Clear(w)
    requires p.f == p.b == K(d)
    ensures LocalOk(Advance(d, batch), i, w, Pos(0, 0, 0))
  {
    AdvanceOpt(d, batch, i);
    AdvanceBuf(d, batch, i);
    hide Good, Sound, Quiet, MemAfter, Cell, SyncedStep, LocalGrad, FirstUser, OptOf, BufAt, Synced;
  }

  lemma AdvanceBuf(d: Data, batch: Batch, i: nat)
    requires Good(d) && Good(Advance(d, batch)) && i < d.net.n
    ensures var d' := Advance(d, batch);
      && K(d') == K(d) && d'.net == d.net && |d'.mem.bufs| == |d.mem.bufs|
      && BufAt(d'.net, d'.mem, d'.batch.xs, 0, i) == BufAt(d.net, d.mem, d.batch.xs, K(d), i)
  {
    hide Sound, Quiet, MemAfter, Cell, SyncedStep, LocalGrad, FirstUser, OptOf;
  }

  lemma AdvanceOpt(d: Data, batch: Batch, i: nat)
    requires Good(d) && Good(Advance(d, batch)) && i < d.net.n
    ensures OptOf(Advance(d, batch), i, false) == OptOf(d, i, true)
  {
    hide Sound, Quiet, MemAfter, SyncedStep;
  }

  lemma AdvanceHistory(d: Data, batch: Batch, i: nat, w: Worker, p: Pos)
    requires Good(d) && Good(Advance(d, batch)) && i < d.net.n && HistoryOk(d, i, w, p) && w.phase.Idle?
    requires p.f == p.b == K(d)
    ensures HistoryOk(Advance(d, batch), i, w, Pos(0, 0, 0))
  {
    hide Sound, Quiet, MemAfter, LossAt, Mean, Synced;
    var past := d.past + [d.batch];
    assert past[..|past| - 1] == d.past;
    assert AllIds(d.ids, past) + [] == AllIds(d.ids, past);
    assert BatchIds(past) + [] == BatchIds(past);
  }

  lemma AdvanceParams(d: Data, s: System, pos: seq<Pos>, batch: Batch, s': System, pos': seq<Pos>, i: nat)
    requires Inv(d, s, pos) && s.driver.done && i < d.net.n
    requires Good(Advance(d, batch)) && s'.ws == s.ws && |pos'| == d.net.n
    requires forall j: nat | j < d.net.n :: pos'[j] == Pos(0, 0, 0)
    ensures ParamsOk(Advance(d, batch), s', pos', i)
  {
    hide Good, HistoryAt, LocalAt, LinkAt, TiedOk, DriverOk, SyncedStep, FirstUser, New, Advance;
    GoodFacts(Advance(d, batch));
    AdvanceKeepsNet(d, batch);
    forall p | p in d.net.uses(i)
      ensures p in s.ws[i].params && Owner(d.net, p) <= i && p in Advance(d, batch).mem.params
      ensures s.ws[i].params[p] == Advance(d, batch).mem.params[p] && !New(Advance(d, batch), s', pos', p, i)
    {
      AdvanceParam(d, s, pos, batch, s', pos', i, p);
    }
  }

  lemma AdvanceKeepsNet(d: Data, batch: Batch)
    requires Good(d)
    ensures var d' := Advance(d, batch);
      d'.net == d.net && d'.ids == d.ids && d'.start == d.start && d'.batch == batch && d'.past == d.past + [d.batch]
  {
  }

  lemma AdvanceParam(d: Data, s: System, pos: seq<Pos>, batch: Batch, s': System, pos': seq<Pos>, i: nat, p: Param)
    requires Inv(d, s, pos) && s.driver.done && i < d.net.n && p in d.net.uses(i)
    requires Good(Advance(d, batch)) && s'.ws == s.ws && |pos'| == d.net.n
    requires forall j: nat | j < d.net.n :: pos'[j] == Pos(0, 0, 0)
    ensures p in s.ws[i].params && Owner(d.net, p) <= i && p in Advance(d, batch).mem.params
    ensures s.ws[i].params[p] == Advance(d, batch).mem.params[p] && !New(Advance(d, batch), s', pos', p, i)
  {
    GoodFacts(Advance(d, batch));
    hide Good, HistoryAt, LocalAt, LinkAt, TiedOk, SyncedStep, FirstUser;
    AllNew(d, s, pos, i, p);
    PipelineSync.OwnerAtMost(d.net, p, i);
  }

  lemma {:induction false} NobodySent(d: Data, s: System, pos: seq<Pos>, p: Param, k: nat)
    requires Good(d) && |s.ws| == |pos| == d.net.n && k <= d.net.n && K(d) > 0
    requires forall j: nat | j < d.net.n :: pos[j].b == 0
    ensures PostedGrads(d, s, pos, p, k) == []
    decreases d.net.n - k
  {
    hide Good;
    if k < d.net.n { NobodySent(d, s, pos, p, k + 1); }
  }

  /** A batch about to start, at workers with nothing left of the one before. */
  lemma FreshTied(d: Data, s: System, pos: seq<Pos>, i: nat)
    requires Good(d) && |s.ws| == |pos| == d.net.n && i < d.net.n && Clear(s.ws[i])
    requires forall j: nat | j < d.net.n :: pos[j] == Pos(0, 0, 0)
    ensures TiedOk(d, s, pos, i)
  {
    GoodFacts(d);
    hide Good, PostedGrads, FirstUser;
    forall p | p in Owned(d.net, i) ensures PostedGrads(d, s, pos, p, i + 1) == [] {
      NobodySent(d, s, pos, p, i + 1);
    }
  }

  lemma FreshLink(d: Data, s: System, pos: seq<Pos>, i: nat)
    requires Good(d) && |s.ws| == |pos| == d.net.n && i < d.net.n && s.driver.sent == 0
    requires Clear(s.ws[i]) && (i > 0 ==> Clear(s.ws[i - 1])) && (i + 1 < d.net.n ==> Clear(s.ws[i + 1]))
    requires forall j: nat | j < d.net.n :: pos[j] == Pos(0, 0, 0)
    ensures LinkAt(d, s, pos, i)
  {
    hide Good, FirstUser, Cell, GradIn;
  }

  lemma AdvanceDriver(d: Data, s: System, pos: seq<Pos>, batch: Batch, s': System, pos': seq<Pos>)
    requires Inv(d, s, pos) && s.driver.done && Good(Advance(d, batch))
    requires s' == s.(driver := s.driver.(batch := batch, sent := 0, done := false,
                                        finished := s.driver.finished + [s.driver.batch]))
    requires |pos'| == d.net.n && forall j: nat | j < d.net.n :: pos'[j] == Pos(0, 0, 0)
    ensures DriverOk(Advance(d, batch), s', pos')
  {
    GoodFacts(Advance(d, batch));
    AllDone(d, s, pos, 0);
    hide Sound, Quiet, HistoryAt, LocalAt, LinkAt, TiedOk, ParamsOk, Synced;
  }

  lemma NextBatchOk(d: Data, s: System, pos: seq<Pos>, batch: Batch) returns (d': Data, pos': seq<Pos>)
    requires Inv(d, s, pos) && Enabled(d.net, d.ids, s, NextBatch(batch))
    ensures d' == Advance(d, batch) && Inv(d', Apply(d.net, d.ids, s, NextBatch(batch)), pos')
  {
    d', pos' := Advance(d, batch), seq(d.net.n, i => Pos(0, 0, 0));
    var s' := Apply(d.net, d.ids, s, NextBatch(batch));
    AdvanceGood(d, batch);
    AdvanceKeepsNet(d, batch);
    AdvanceDriver(d, s, pos, batch, s', pos');
    hide Good, LocalOk, HistoryOk, LinkAt, TiedOk, ParamsOk, DriverOk, Clear, Advance;
    forall i: nat | i < d.net.n ensures Clear(s'.ws[i]) {
      AllIdle(d, s, pos, i);
    }
    forall i: nat | i < d.net.n
      ensures LocalAt(d', s', pos', i) && HistoryAt(d', s', pos', i) && LinkAt(d', s', pos', i)
      ensures ParamsOk(d', s', pos', i) && TiedOk(d', s', pos', i)
    {
      assert LocalAt(d, s, pos, i) && HistoryAt(d, s, pos, i);
      AllDone(d, s, pos, i);
      AllIdle(d, s, pos, i);
      AdvanceLocal(d, batch, i, s.ws[i], pos[i]);
      AdvanceHistory(d, batch, i, s.ws[i], pos[i]);
      AdvanceParams(d, s, pos, batch, s', pos', i);
      FreshTied(d', s', pos', i);
      FreshLink(d', s', pos', i);
    }
  }

  // ── every run ────────────────────────────────────────────────────────────────

  /** A memory training can start from: no gradient is set, and the RNG state, which no slice
      uses, is written 0. */
  ghost predicate Fresh(net: Net, k: nat, mem: Memory, first: Batch) {
    && Quiet(net) && WellFormed(net, mem) && mem.rng == 0 && mem.grads == map[]
    && 0 < k == |first.xs| == |first.ys|
  }

  lemma StartLocal(d: Data, i: nat)
    requires Good(d) && d.past == [] && d.mem == d.start && i < d.net.n
    ensures LocalOk(d, i, FreshWorker(d.net, d.start, i), Pos(0, 0, 0))
    ensures HistoryOk(d, i, FreshWorker(d.net, d.start, i), Pos(0, 0, 0))
  {
    hide Sound, Quiet, MemAfter, Cell, SyncedStep, LocalGrad;
    assert FreshWorker(d.net, d.start, i).opt == OptOf(d, i, false);
  }

  lemma StartParams(d: Data, s: System, pos: seq<Pos>, i: nat)
    requires Good(d) && d.past == [] && d.mem == d.start && i < d.net.n == |s.ws| == |pos|
    requires s.ws[i] == FreshWorker(d.net, d.start, i)
    requires forall j: nat | j < d.net.n :: pos[j] == Pos(0, 0, 0)
    ensures ParamsOk(d, s, pos, i)
  {
    hide Sound, Quiet, MemAfter, SyncedStep;
    forall p | p in d.net.uses(i) ensures Owner(d.net, p) <= i && !New(d, s, pos, p, i) {
      PipelineSync.OwnerAtMost(d.net, p, i);
    }
  }

  lemma StartOk(net: Net, k: nat, mem: Memory, first: Batch) returns (d: Data, pos: seq<Pos>)
    requires Fresh(net, k, mem, first)
    ensures d == Data(net, Numbered(k), mem, [], mem, first) && Inv(d, Start(net, mem, first), pos)
  {
    d, pos := Data(net, Numbered(k), mem, [], mem, first), seq(net.n, i => Pos(0, 0, 0));
    var s := Start(net, mem, first);
    NumberedIsSound(k);
    assert Good(d);
    hide Good, LocalOk, HistoryOk, LinkAt, TiedOk, ParamsOk, FreshWorker, FirstUser;
    forall i: nat | i < net.n
      ensures LocalAt(d, s, pos, i) && HistoryAt(d, s, pos, i) && LinkAt(d, s, pos, i)
      ensures ParamsOk(d, s, pos, i) && TiedOk(d, s, pos, i)
    {
      StartLocal(d, i);
      StartParams(d, s, pos, i);
      StartClear(net, mem, first);
      FreshTied(d, s, pos, i);
      FreshLink(d, s, pos, i);
    }
  }

  lemma StartClear(net: Net, mem: Memory, first: Batch)
    requires net.n == |mem.bufs|
    ensures forall i: nat | i < net.n :: Clear(Start(net, mem, first).ws[i])
  {
  }

  /** Every action keeps the invariant. */
  lemma StepOk(d: Data, s: System, pos: seq<Pos>, a: Action) returns (d': Data, pos': seq<Pos>)
    requires Inv(d, s, pos) && Enabled(d.net, d.ids, s, a)
    ensures Inv(d', Apply(d.net, d.ids, s, a), pos') && d'.net == d.net && d'.ids == d.ids && d'.start == d.start
  {
    hide Inv, Enabled, Apply;
    d', pos' := d, pos;
    match a
    case Send => PipelineHandovers.SendOk(d, s, pos);
    case DeliverPrev(i) => PipelineSteps.DeliverPrevOk(d, s, pos, i);
    case DeliverNext(i) => PipelineSteps.DeliverNextOk(d, s, pos, i);
    case DeliverLabel(i) => PipelineSteps.DeliverLabelOk(d, s, pos, i);
    case Run(i) => pos' := PipelineSteps.RunOk(d, s, pos, i);
    case Activate(i) => PipelineHandovers.ActivateOk(d, s, pos, i);
    case Post(i, p) => PipelineSync.PostOk(d, s, pos, i, p);
    case Optimize(i) => PipelineOptimize.OptimizeOk(d, s, pos, i);
    case Push(i, p, j) => PipelineOptimize.PushOk(d, s, pos, i, p, j);
    case Return(i) => PipelineHandovers.ReturnOk(d, s, pos, i);
    case NextBatch(batch) => d', pos' := NextBatchOk(d, s, pos, batch);
  }

  lemma {:induction false} RunsKeep(d: Data, s: System, pos: seq<Pos>, acts: seq<Action>)
    returns (d': Data, pos': seq<Pos>)
    requires Inv(d, s, pos) && IsRun(d.net, d.ids, s, acts)
    ensures Inv(d', EndOf(d.net, d.ids, s, acts), pos') && d'.net == d.net && d'.ids == d.ids && d'.start == d.start
    decreases |acts|
  {
    hide Inv, Enabled, Apply;
    if acts == [] {
      d', pos' := d, pos;
    } else {
      var d1, pos1 := StepOk(d, s, pos, acts[0]);
      d', pos' := RunsKeep(d1, Apply(d.net, d.ids, s, acts[0]), pos1, acts[1..]);
    }
  }

  /** The invariant holds at the end of every run from a fresh start, whatever the interleaving. */
  lemma Reachable(net: Net, k: nat, mem: Memory, first: Batch, acts: seq<Action>) returns (d: Data, pos: seq<Pos>)
    requires Fresh(net, k, mem, first) && IsRun(net, Numbered(k), Start(net, mem, first), acts)
    ensures Inv(d, EndOf(net, Numbered(k), Start(net, mem, first), acts), pos)
    ensures d.net == net && d.ids == Numbered(k) && d.start == mem
  {
    hide Inv, Numbered, Start, IsRun, EndOf;
    var d0, pos0 := StartOk(net, k, mem, first);
    d, pos := RunsKeep(d0, Start(net, mem, first), pos0, acts);
  }
}
