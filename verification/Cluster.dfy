/** All workers of a pipeline and the driver: one `WorkerServicer` object per slice, calling each
    other. In whatever order their calls come, the objects go through exactly the states of the
    transition system, so everything proved of its runs is true of them. */
module Cluster {
  import opened Network
  import opened Wavefront
  import opened Protocol
  import opened WorkerServicer
  import PipelineInvariant
  import PipelineRuns
  import opened PipelineResults

  /** Only worker `i` changed. */
  lemma OneChanged(before: seq<Worker>, after: seq<Worker>, i: nat)
    requires i < |before| == |after| && forall j | 0 <= j < |before| && j != i :: after[j] == before[j]
    ensures after == before[i := after[i]]
  {
  }

  /** Only workers `i` and `j` changed, `i` to `w` first. */
  lemma TwoChanged(before: seq<Worker>, after: seq<Worker>, i: nat, w: Worker, j: nat)
    requires i < |before| == |after| && j < |before| && (i != j ==> after[i] == w)
    requires forall k | 0 <= k < |before| && k != i && k != j :: after[k] == before[k]
    ensures after == before[i := w][j := after[j]]
  {
  }

  class Cluster {
    const net: Net
    const ids: Ids
    const workers: seq<WorkerServicer>
    var driver: Driver

    /** One object per slice, no two the same. */
    ghost predicate Valid() {
      && |workers| == net.n
      && (forall i, j | 0 <= i < j < |workers| :: workers[i] != workers[j])
      && forall i | 0 <= i < |workers| :: workers[i].net == net && workers[i].index == i && workers[i].ids == ids
    }

    ghost function State(): System
      reads this, workers
    {
      System(seq(|workers|, i requires 0 <= i < |workers| reads workers => workers[i].State()), driver)
    }

    /** `init` of every worker. */
    constructor (net: Net, k: nat, mem: Memory, first: Batch)
      requires net.n == |mem.bufs|
      ensures Valid() && fresh(workers) && this.net == net && ids == Numbered(k) && State() == Start(net, mem, first)
    {
      var made: seq<WorkerServicer> := [];
      for i := 0 to net.n
        invariant |made| == i && fresh(made)
        invariant forall a, b | 0 <= a < b < i :: made[a] != made[b]
        invariant forall a | 0 <= a < i :: made[a].net == net && made[a].index == a && made[a].ids == Numbered(k)
        invariant forall a: nat | a < i :: made[a].State() == FreshWorker(net, mem, a)
      {
        var w := new WorkerServicer(net, i, Numbered(k), mem);
        made := made + [w];
      }
      this.net, ids, workers := net, Numbered(k), made;
      driver := Driver(first, 0, false, [], []);
    }

    /** `_send_batch`: the label of a micro-batch to the last worker, then its input to the first. */
    method Send()
      requires Valid() && Enabled(net, ids, State(), Action.Send)
      modifies this, workers
      ensures State() == SendOne(ids, old(State()))
    {
      var m := driver.sent / 2;
      var id := ids.micro(driver.batch.id, m);
      var last := |workers| - 1;
      if driver.sent % 2 == 0 {
        workers[last].Arrive(FromDriver, Target(id, driver.batch.ys[m]));
        OneChanged(old(State()).ws, State().ws, last);
      } else {
        workers[0].Arrive(FromPrev, Input(id, driver.batch.xs[m]));
        OneChanged(old(State()).ws, State().ws, 0);
      }
      driver := driver.(sent := driver.sent + 1);
    }

    /** A message reaches its worker's queue. */
    method Deliver(i: nat, link: Link)
      requires Valid() && i < |workers|
      requires match link
        case FromPrev => workers[i].fromPrev != []
        case FromNext => workers[i].fromNext != []
        case FromDriver => workers[i].fromDriver != []
      modifies workers
      ensures State() == Apply(net, ids, old(State()),
        match link case FromPrev => DeliverPrev(i) case FromNext => DeliverNext(i) case FromDriver => DeliverLabel(i))
    {
      workers[i].Submit(link);
      OneChanged(old(State()).ws, State().ws, i);
    }

    /** The pool thread of worker `i` runs its next task. */
    method RunTask(i: nat)
      requires Valid() && Enabled(net, ids, State(), Run(i))
      modifies workers
      ensures State() == Apply(net, ids, old(State()), Run(i))
    {
      hide Protocol.RunTask;
      workers[i].RunNext();
      OneChanged(old(State()).ws, State().ws, i);
    }

    /** The activation travels from worker `i` to the next. */
    method Forward(i: nat)
      requires Valid() && Enabled(net, ids, State(), Activate(i))
      modifies workers
      ensures State() == Apply(net, ids, old(State()), Activate(i))
    {
      var t := workers[i].SendForward();
      ghost var sent := workers[i].State();
      workers[i + 1].Arrive(FromPrev, t);
      TwoChanged(old(State()).ws, State().ws, i, sent, i + 1);
    }

    /** A replica calls its owner's `tied_grad`. */
    method Contribute(i: nat, p: Param)
      requires Valid() && Enabled(net, ids, State(), Post(i, p))
      modifies workers
      ensures State() == Apply(net, ids, old(State()), Post(i, p))
    {
      hide Owner, FirstUser;
      var batch := ids.full(workers[i].phase.id);
      var o := Owner(net, p);
      var g := workers[i].HandOver(p);
      ghost var handed := workers[i].State();
      workers[o].TiedGrad(p, batch, g);
      TwoChanged(old(State()).ws, State().ws, i, handed, o);
    }

    /** The owner's step; the wait before it is over. */
    method Step(i: nat)
      requires Valid() && Enabled(net, ids, State(), Action.Optimize(i))
      modifies workers
      ensures State() == Apply(net, ids, old(State()), Action.Optimize(i))
    {
      hide OptimizeStep, TiedReady;
      var ok := workers[i].Optimize();
      OneChanged(old(State()).ws, State().ws, i);
    }

    /** The owner calls a replica's `tied_update`. */
    method Update(i: nat, p: Param, j: nat)
      requires Valid() && Enabled(net, ids, State(), Push(i, p, j))
      modifies workers
      ensures State() == Apply(net, ids, old(State()), Push(i, p, j))
    {
      var value := workers[i].PushCopy(p, j);
      ghost var pushed := workers[i].State();
      workers[j].TiedUpdate(p, value);
      TwoChanged(old(State()).ws, State().ws, i, pushed, j);
    }

    /** The gradient travels back, or the first worker reports `batch_done`. */
    method Backward(i: nat)
      requires Valid() && Enabled(net, ids, State(), Return(i))
      modifies this, workers
      ensures State() == Apply(net, ids, old(State()), Return(i))
    {
      var t := workers[i].SendBackward();
      ghost var sent := workers[i].State();
      if i > 0 {
        workers[i - 1].Arrive(FromNext, t);
        TwoChanged(old(State()).ws, State().ws, i, sent, i - 1);
      } else {
        OneChanged(old(State()).ws, State().ws, i);
        if ids.last(t.id) {
          driver := driver.(done := true, events := driver.events + [t.id]);
        }
      }
    }

    /** Any enabled move of the system is a call between its objects, with the same effect. */
    method Take(a: Action)
      requires Valid() && Enabled(net, ids, State(), a)
      modifies this, workers
      ensures State() == Apply(net, ids, old(State()), a)
    {
      match a
      case Send => Send();
      case DeliverPrev(i) => Deliver(i, FromPrev);
      case DeliverNext(i) => Deliver(i, FromNext);
      case DeliverLabel(i) => Deliver(i, FromDriver);
      case Run(i) => RunTask(i);
      case Activate(i) => Forward(i);
      case Post(i, p) => Contribute(i, p);
      case Optimize(i) => Step(i);
      case Push(i, p, j) => Update(i, p, j);
      case Return(i) => Backward(i);
      case NextBatch(batch) =>
        driver := driver.(batch := batch, sent := 0, done := false, finished := driver.finished + [driver.batch]);
    }

    /** Any interleaving of calls is a run of the transition system. */
    method TakeAll(acts: seq<Action>)
      requires Valid() && IsRun(net, ids, State(), acts)
      modifies this, workers
      ensures State() == EndOf(net, ids, old(State()), acts)
    {
      hide Apply, Enabled;
      for j := 0 to |acts|
        invariant IsRun(net, ids, State(), acts[j..])
        invariant EndOf(net, ids, State(), acts[j..]) == EndOf(net, ids, old(State()), acts)
      {
        assert acts[j..][1..] == acts[j + 1..];
        Take(acts[j]);
      }
    }
  }

  lemma AllHold(net: Net, k: nat, mem: Memory, first: Batch, acts: seq<Action>, s: System)
    requires LeadsTo(net, k, mem, first, acts, s)
    ensures WellFormed(net, mem) && AllFit(Trained(s), k) && |s.ws| == net.n
    ensures s.driver.done && (forall p | p in mem.params :: OrderFree(net, k, p)) ==>
      forall i: nat | i < net.n :: Holds(net, i, s.ws[i], CentralRun(net, mem, Trained(s)))
  {
    hide OrderFree, Holds, CentralRun, LeadsTo, Owner, PipelineInvariant.Inv;
    var d, pos := BatchesFit(net, k, mem, first, acts, s);
    SameSize(d, s, pos);
    if s.driver.done && forall p | p in mem.params :: OrderFree(net, k, p) {
      forall i: nat | i < net.n ensures Holds(net, i, s.ws[i], CentralRun(net, mem, Trained(s))) {
        SplittingChangesNothing(net, k, mem, first, acts, s, i);
      }
    }
  }

  lemma SameSize(d: PipelineInvariant.Data, s: System, pos: seq<PipelineInvariant.Pos>)
    requires PipelineInvariant.Inv(d, s, pos)
    ensures |s.ws| == d.net.n && WellFormed(d.net, d.start)
  {
  }

  lemma Led(net: Net, k: nat, mem: Memory, first: Batch, acts: seq<Action>, s: System)
    requires PipelineRuns.Fresh(net, k, mem, first)
    requires IsRun(net, Numbered(k), Start(net, mem, first), acts)
    requires s == EndOf(net, Numbered(k), Start(net, mem, first), acts)
    ensures LeadsTo(net, k, mem, first, acts, s)
  {
  }

  /** The claim, of the objects: workers made for the slices of `mem` and called in any order at all,
      for any number of batches, hold what the uncut network holds when `batch_done` has arrived. */
  method Train(net: Net, k: nat, mem: Memory, first: Batch, acts: seq<Action>) returns (c: Cluster)
    requires PipelineRuns.Fresh(net, k, mem, first) && IsRun(net, Numbered(k), Start(net, mem, first), acts)
    ensures c.Valid() && c.net == net && |c.workers| == net.n
    ensures WellFormed(net, mem) && AllFit(Trained(c.State()), k)
    ensures c.driver.done && (forall p | p in mem.params :: OrderFree(net, k, p)) ==>
      forall i: nat | i < net.n :: Holds(net, i, c.State().ws[i], CentralRun(net, mem, Trained(c.State())))
  {
    assert net.n == |mem.bufs|;
    hide OrderFree, Holds, CentralRun, IsRun, EndOf, Start, LeadsTo, WellFormed, AllFit, Quiet;
    c := new Cluster(net, k, mem, first);
    c.TakeAll(acts);
    Led(net, k, mem, first, acts, c.State());
    AllHold(net, k, mem, first, acts, c.State());
  }
}
