/** Training with the offload strategy from `setup` on: batch after batch in one process, with the
    slices in the slow tier, is training the uncut network. */
module OffloadTraining {
  import opened Wrappers
  import opened Network
  import opened Wavefront
  import opened LayerMajor
  import opened Protocol
  import opened PipelineResults
  import opened Pager
  import opened PagerCoherence
  import opened PagerVisits
  import opened OffloadExecutor
  import LayerOrder
  import SlicePager
  import TiedOrder

  /** What the results ask of a batch: one micro-batch, or slices that draw nothing and shared
      gradients whose order does not matter. */
  ghost predicate Plain(net: Net, keys: set<Param>, batch: Batch) {
    (|batch.xs| == 1 || Quiet(net)) && forall p | p in keys :: LayerFree(net, |batch.xs|, p)
  }

  /** The loss a batch is logged with when one process trains it: the mean over its micro-batches. */
  ghost predicate CentralLoss(net: Net, mem: Memory, batch: Batch, loss: real)
    requires WellFormed(net, mem) && 0 < |batch.xs| == |batch.ys|
  {
    loss * |batch.ys| as real ==
      Losses(net, Forwards(net, mem, batch.xs, |batch.xs|).outs, batch.ys, |batch.ys|) as real
  }

  /** The memory after a list of batches of the layer-major schedule. */
  ghost function LayerRun(net: Net, start: Memory, batches: seq<Batch>): (m: Memory)
    requires WellFormed(net, start)
    requires forall j | 0 <= j < |batches| :: 0 < |batches[j].xs| == |batches[j].ys|
    ensures WellFormed(net, m) && m.params.Keys == start.params.Keys
  {
    if batches == [] then start
    else
      var last := batches[|batches| - 1];
      var before := LayerRun(net, start, batches[..|batches| - 1]);
      LayerWellFormed(net, before, last.xs, last.ys);
      LayerBatch(net, before, last.xs, last.ys)
  }

  lemma RunSnoc(net: Net, mem: Memory, batches: seq<Batch>, k: nat)
    requires WellFormed(net, mem) && k <= |batches|
    requires forall j | 0 <= j < |batches| :: 0 < |batches[j].xs| == |batches[j].ys|
    ensures LayerRun(net, mem, batches[..0]) == CentralRun(net, mem, batches[..0]) == mem
    ensures k < |batches| ==>
      && LayerRun(net, mem, batches[..k + 1]) ==
          LayerBatch(net, LayerRun(net, mem, batches[..k]), batches[k].xs, batches[k].ys)
      && CentralRun(net, mem, batches[..k + 1]) ==
          Central(net, CentralRun(net, mem, batches[..k]), batches[k].xs, batches[k].ys)
  {
    if k < |batches| { assert batches[..k + 1][..k] == batches[..k]; }
  }

  /** Between batches. */
  ghost predicate Ready(e: OffloadExecutor)
    requires e.Valid()
    reads e, e.pager
  {
    NoneBusy(e.pager.State()) && Rooms(e.pager.c, e.pager.State(), e.net.n) && e.resident.grads == map[]
  }

  /** One batch, by the method its number of micro-batches selects. */
  method TrainBatch(e: OffloadExecutor, batch: Batch) returns (loss: real)
    requires e.Valid() && Ready(e) && 0 < |batch.xs| == |batch.ys|
    requires ZeroUnit(e.net) && forall i: nat | i < e.net.n - 1 :: Replayable(e.net, i, |batch.xs|)
    modifies e, e.pager
    ensures e.Valid() && Ready(e)
    ensures WellFormed(e.net, old(e.Mem())) && e.Mem() == LayerBatch(e.net, old(e.Mem()), batch.xs, batch.ys)
    ensures |batch.xs| == 1 || Quiet(e.net) ==>
      && Follows(e.net, old(e.Mem()), e.Mem(), batch.xs, batch.ys)
      && CentralLoss(e.net, old(e.Mem()), batch, loss)
  {
    hide Split, Central, Losses, Forwards, Mean, Replayable, ZeroUnit, WellFormed, BatchRan, Quiet, Follows, LayerBatch,
      SlicePager.SlicePager.Logged;
    ghost var ops;
    ghost var start := e.Mem();
    if |batch.xs| > 1 {
      loss, ops := e.GpipeBatch(batch.xs, batch.ys);
    } else {
      assert batch.xs == [batch.xs[0]] && batch.ys == [batch.ys[0]];
      loss, ops := e.StandardBatch(batch.xs[0], batch.ys[0]);
      CentralFollows(e.net, start, batch.xs, batch.ys);
    }
  }

  lemma CentralFollows(net: Net, start: Memory, xs: seq<Tensor>, ys: seq<Tensor>)
    requires WellFormed(net, start) && |xs| == |ys| > 0
    ensures Follows(net, start, Central(net, start, xs, ys), xs, ys)
  {
    CentralHolds(net, start, xs, ys);
    hide Central, LayerFree;
  }

  /** From the model's memory, any number of batches: the memory is that of the layer-major schedule,
      and if every batch is plain, the memory and every loss are those of one process. */
  method Train(net: Net, mem: Memory, c: Config, nSlots: nat, blank: Slot, batches: seq<Batch>)
    returns (e: OffloadExecutor, losses: seq<real>)
    requires WellFormed(net, mem) && mem.grads == map[] && 2 <= nSlots && blank.page == None && !blank.busy
    requires BuffersFit(net, c) && StepsPages(net, c) && (c.cpuOpt ==> Shared(net, mem.params.Keys) == {})
    requires forall j | 0 <= j < |batches| :: 0 < |batches[j].xs| == |batches[j].ys|
    requires ZeroUnit(net)
    requires forall i: nat, j | i < net.n - 1 && 0 <= j < |batches| :: Replayable(net, i, |batches[j].xs|)
    ensures e.Valid() && e.net == net && e.Mem() == LayerRun(net, mem, batches)
    ensures |losses| == |batches|
    ensures (forall j | 0 <= j < |batches| :: Plain(net, mem.params.Keys, batches[j])) ==>
      && e.Mem() == CentralRun(net, mem, batches)
      && forall j | 0 <= j < |batches| :: CentralLoss(net, CentralRun(net, mem, batches[..j]), batches[j], losses[j])
  {
    hide Split, Central, CentralLoss, Replayable, ZeroUnit, WellFormed, BuffersFit, StepsPages, Quiet, Shared, Plain,
      CentralRun, LayerRun, LayerBatch, Follows, OffloadExecutor.Valid, OffloadExecutor.Mem,
      SlicePager.SlicePager.Logged;
    e := new OffloadExecutor(net, mem, c, nSlots, blank);
    assert Ready(e);
    hide Ready;
    losses := [];
    ghost var plain := forall j | 0 <= j < |batches| :: Plain(net, mem.params.Keys, batches[j]);
    RunSnoc(net, mem, batches, 0);
    for k := 0 to |batches|
      invariant fresh(e) && fresh(e.pager) && e.net == net
      invariant e.Valid() && Ready(e)
      invariant e.Mem() == LayerRun(net, mem, batches[..k])
      invariant plain ==> e.Mem() == CentralRun(net, mem, batches[..k])
      invariant |losses| == k
      invariant plain ==>
        forall j | 0 <= j < k :: CentralLoss(net, CentralRun(net, mem, batches[..j]), batches[j], losses[j])
    {
      RunSnoc(net, mem, batches, k);
      ghost var before := e.Mem();
      var loss := TrainBatch(e, batches[k]);
      if plain { PlainIsCentral(net, mem.params.Keys, before, e.Mem(), batches[k]); }
      losses := losses + [loss];
    }
    assert batches[..|batches|] == batches;
  }

  lemma PlainIsCentral(net: Net, keys: set<Param>, start: Memory, mem: Memory, batch: Batch)
    requires WellFormed(net, start) && start.params.Keys == keys && 0 < |batch.xs| == |batch.ys|
    requires Plain(net, keys, batch)
    requires |batch.xs| == 1 || Quiet(net) ==> Follows(net, start, mem, batch.xs, batch.ys)
    ensures (|batch.xs| == 1 || Quiet(net)) && mem == Central(net, start, batch.xs, batch.ys)
  {
    hide LayerFree, Quiet, Follows, Central, WellFormed;
    AllFollow(net, start, mem, batch.xs, batch.ys);
  }

  /** The executor itself on a pair of slices with a shared parameter and a commutative sum: it leaves
      28 where the uncut network leaves 32. */
  method SharedDiffers(blank: Slot) returns (e: OffloadExecutor)
    requires blank.page == None && !blank.busy
    ensures e.Valid() && e.net == LayerOrder.STEPS && e.Mem().params == map[0 := 28]
    ensures WellFormed(e.net, TiedOrder.START)
    ensures Central(e.net, TiedOrder.START, [0, 0], [0, 0]).params == map[0 := 32]
  {
    LayerOrder.LayersDiffer();
    var net := LayerOrder.STEPS;
    var c := Config([Sizes(4, 4, 4, 4), Sizes(4, 4, 4, 4)], false,
                    (i: nat, p: Values, s: Values, g: Values) => StepPage(net, p, s, g));
    var batch := Batch(0, [0, 0], [0, 0]);
    StepsFit(net, c);
    hide *;
    var losses;
    e, losses := Train(net, TiedOrder.START, c, 2, blank, [batch]);
    OneBatch(net, TiedOrder.START, batch);
  }

  lemma OneBatch(net: Net, start: Memory, batch: Batch)
    requires WellFormed(net, start) && 0 < |batch.xs| == |batch.ys|
    ensures LayerRun(net, start, [batch]) == LayerBatch(net, start, batch.xs, batch.ys)
  {
    RunSnoc(net, start, [batch], 0);
    assert [batch][..0] == [] && [batch][..1] == [batch];
  }

  lemma StepsFit(net: Net, c: Config)
    requires net == LayerOrder.STEPS && c.sizes == [Sizes(4, 4, 4, 4), Sizes(4, 4, 4, 4)] && !c.cpuOpt
    requires c.step == ((i: nat, p: Values, s: Values, g: Values) => StepPage(net, p, s, g))
    ensures BuffersFit(net, c) && StepsPages(net, c) && forall i: nat, k: nat :: Replayable(net, i, k)
  {
    forall i: nat, k: nat ensures Replayable(net, i, k) {
      assert OwnBlind(net, i);
      OwnBlindReplays(net, i, k);
    }
  }
}
