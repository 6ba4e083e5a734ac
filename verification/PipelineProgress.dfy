/** Every batch finishes: a cost that each step of the system lowers, whatever the interleaving, so
    that a run which goes on while it can reaches `batch_done`. */
module PipelineProgress {
  import opened Network
  import opened Protocol
  import PipelineInvariant
  import PipelineRuns
  import PipelineResults
  import opened TiedOrder
  import opened Wavefront

  // ── what is still to be done ─────────────────────────────────────────────────

  /** For the gradient slice `i` sends on: delivery, and its task at the slice before. */
  function ReturnCost(net: Net, i: nat): nat
    decreases i, 0
  {
    if i == 0 then 0 else 2 + BackCost(net, i - 1)
  }

  /** From the backward of a micro-batch at slice `i` on: replica gradients, step, copies, hand-over. */
  function BackCost(net: Net, i: nat): nat
    decreases i, 1
  {
    |Replicas(net, i)| + |Copies(net, i)| + 2 + ReturnCost(net, i)
  }

  function InputCost(net: Net, i: nat): nat
    decreases net.n - i
  {
    1 + if i + 1 < net.n then 2 + InputCost(net, i + 1) else BackCost(net, i)
  }

  function TaskCost(net: Net, i: nat, t: Task): nat {
    match t
    case Input(_, _) => InputCost(net, i)
    case Target(_, _) | Gradient(_, _) => 1 + BackCost(net, i)
  }

  /** A list of tasks, `hops` deliveries away from the queue. */
  function ListCost(net: Net, i: nat, q: seq<Task>, hops: nat): nat {
    if q == [] then 0 else TaskCost(net, i, q[0]) + hops + ListCost(net, i, q[1..], hops)
  }

  function PhaseCost(net: Net, i: nat, phase: Phase): nat {
    match phase
    case Idle => 0
    case Activating(_, _) => 2 + InputCost(net, i + 1)
    case Syncing(_, _, left) => |left| + |Copies(net, i)| + 2 + ReturnCost(net, i)
    case Pushing(_, _, copies) => |copies| + 1 + ReturnCost(net, i)
  }

  function WorkerCost(net: Net, i: nat, w: Worker): nat {
    PhaseCost(net, i, w.phase) + ListCost(net, i, w.queue, 0)
    + ListCost(net, i, w.fromPrev, 1) + ListCost(net, i, w.fromNext, 1) + ListCost(net, i, w.fromDriver, 1)
  }

  function Sum(net: Net, ws: seq<Worker>, k: nat): nat
    requires k <= |ws|
  {
    if k == 0 then 0 else Sum(net, ws, k - 1) + WorkerCost(net, k - 1, ws[k - 1])
  }

  /** Each message the driver has still to send costs as much as an input and a label. */
  function MessageCost(net: Net): nat {
    if net.n == 0 then 1 else InputCost(net, 0) + BackCost(net, net.n - 1) + 3
  }

  function SendCost(net: Net, ids: Ids, sent: nat): int {
    (2 * ids.k - sent) * MessageCost(net)
  }

  function Cost(net: Net, ids: Ids, s: System): int {
    Sum(net, s.ws, |s.ws|) + SendCost(net, ids, s.driver.sent)
  }

  // ── every step lowers it ─────────────────────────────────────────────────────

  lemma {:induction false} Appended(net: Net, i: nat, q: seq<Task>, t: Task, hops: nat)
    ensures ListCost(net, i, q + [t], hops) == ListCost(net, i, q, hops) + TaskCost(net, i, t) + hops
  {
    if q == [] {
      assert q + [t] == [t];
    } else {
      Appended(net, i, q[1..], t, hops);
      assert (q + [t])[1..] == q[1..] + [t];
    }
  }

  lemma {:induction false} SumReplaced(net: Net, ws: seq<Worker>, i: nat, w: Worker, k: nat)
    requires i < |ws| && k <= |ws|
    ensures Sum(net, ws[i := w], k)
      == Sum(net, ws, k) + if i < k then WorkerCost(net, i, w) - WorkerCost(net, i, ws[i]) else 0
  {
    hide WorkerCost;
    if k > 0 {
      SumReplaced(net, ws, i, w, k - 1);
    }
  }

  /** Same queue and links, and a phase that costs no more than `c`. */
  predicate Within(net: Net, i: nat, w: Worker, w': Worker, c: nat) {
    && w'.queue == w.queue && w'.fromPrev == w.fromPrev && w'.fromNext == w.fromNext && w'.fromDriver == w.fromDriver
    && PhaseCost(net, i, w'.phase) <= c
  }

  lemma BackWithin(net: Net, i: nat, ids: Ids, w: Worker, id: nat, tape: Tape, g: Tensor)
    ensures Within(net, i, w, BackThrough(net, i, w, id, tape, g, ids), BackCost(net, i))
  {
    hide Copies, Replicas, ReturnCost, Restrict, Accumulate;
  }

  lemma LastWithin(net: Net, i: nat, ids: Ids, w: Worker, id: nat, out: Tensor, tape: Tape, y: Tensor)
    ensures Within(net, i, w, BackwardLast(net, i, ids, w, id, out, tape, y), BackCost(net, i))
  {
    hide BackCost, PhaseCost, BackThrough;
    var b := ids.full(id);
    var sum := net.plus(if b in w.losses then w.losses[b] else 0, net.loss(out, y));
    BackWithin(net, i, ids, w.(losses := w.losses - {b}, reported := w.reported + [(id, Mean(sum, ids.k))]), id, tape,
               net.lossGrad(out, y, ids.k));
    BackWithin(net, i, ids, w.(losses := w.losses[b := sum]), id, tape, net.lossGrad(out, y, ids.k));
  }

  lemma ForwardWithin(net: Net, i: nat, ids: Ids, w: Worker, id: nat, x: Tensor)
    requires w.phase.Idle? && i < net.n
    ensures Within(net, i, w, ForwardStage(net, i, ids, w, id, x), InputCost(net, i) - 1)
  {
    hide BackCost, BackwardLast;
    var tape := TapeOf(net, i, w, x);
    var out := net.run(i, tape);
    if i + 1 == net.n && id in w.labels {
      LastWithin(net, i, ids, w.(buf := out.buf, ran := w.ran + [id], labels := w.labels - {id}), id, out.y, tape,
                 w.labels[id]);
    }
  }

  lemma LabelWithin(net: Net, i: nat, ids: Ids, w: Worker, id: nat, y: Tensor)
    requires w.phase.Idle?
    ensures Within(net, i, w, TakeLabel(net, i, ids, w, id, y), BackCost(net, i))
  {
    hide BackCost, BackwardLast;
    if id in w.outputs {
      LastWithin(net, i, ids, w.(outputs := w.outputs - {id}), id, w.outputs[id].0, w.outputs[id].1, y);
    }
  }

  lemma GradientWithin(net: Net, i: nat, ids: Ids, w: Worker, id: nat, g: Tensor)
    requires w.phase.Idle?
    ensures Within(net, i, w, BackwardStage(net, i, ids, w, id, g), BackCost(net, i))
  {
    hide BackCost, BackThrough;
    if id in w.outputs {
      BackWithin(net, i, ids, w.(outputs := w.outputs - {id}), id, w.outputs[id].1, g);
    }
  }

  lemma TaskLowers(net: Net, i: nat, ids: Ids, w: Worker)
    requires w.phase.Idle? && w.queue != [] && i < net.n
    ensures WorkerCost(net, i, RunTask(net, i, ids, w)) < WorkerCost(net, i, w)
  {
    hide ForwardStage, TakeLabel, BackwardStage, BackCost, InputCost;
    HeadCost(net, i, w.queue);
    hide ListCost;
    var w' := w.(queue := w.queue[1..]);
    match w.queue[0]
    case Input(id, x) => ForwardWithin(net, i, ids, w', id, x);
    case Target(id, y) => LabelWithin(net, i, ids, w', id, y);
    case Gradient(id, g) => GradientWithin(net, i, ids, w', id, g);
  }

  lemma HeadCost(net: Net, i: nat, q: seq<Task>)
    requires q != []
    ensures ListCost(net, i, q, 0) == TaskCost(net, i, q[0]) + ListCost(net, i, q[1..], 0)
  {
  }

  lemma OneWorkerLowers(net: Net, ids: Ids, s: System, i: nat, w: Worker)
    requires i < |s.ws| && WorkerCost(net, i, w) < WorkerCost(net, i, s.ws[i])
    ensures Cost(net, ids, s.(ws := s.ws[i := w])) < Cost(net, ids, s)
  {
    hide WorkerCost, SendCost, Sum;
    SumReplaced(net, s.ws, i, w, |s.ws|);
  }

  lemma TwoWorkersLower(net: Net, ids: Ids, s: System, i: nat, w: Worker, j: nat, v: Worker)
    requires i < |s.ws| && j < |s.ws|
    requires WorkerCost(net, i, w) + WorkerCost(net, j, v)
      < WorkerCost(net, i, s.ws[i]) + WorkerCost(net, j, s.ws[i := w][j])
    ensures Cost(net, ids, s.(ws := s.ws[i := w][j := v])) < Cost(net, ids, s)
  {
    hide WorkerCost, SendCost, Sum;
    SumReplaced(net, s.ws, i, w, |s.ws|);
    SumReplaced(net, s.ws[i := w], j, v, |s.ws|);
  }

  lemma SentLowers(net: Net, ids: Ids, s: System, i: nat, w: Worker)
    requires i < |s.ws| && WorkerCost(net, i, w) < WorkerCost(net, i, s.ws[i]) + MessageCost(net)
    ensures Cost(net, ids, System(s.ws[i := w], s.driver.(sent := s.driver.sent + 1))) < Cost(net, ids, s)
  {
    hide WorkerCost, MessageCost, Sum;
    SumReplaced(net, s.ws, i, w, |s.ws|);
    SendOneLess(net, ids, s.driver.sent);
    hide SendCost;
  }

  lemma SendOneLess(net: Net, ids: Ids, sent: nat)
    ensures SendCost(net, ids, sent + 1) == SendCost(net, ids, sent) - MessageCost(net)
  {
    hide MessageCost;
    var c, left := MessageCost(net), 2 * ids.k - sent;
    assert left * c == (left - 1) * c + c;
  }

  lemma SendLowers(net: Net, ids: Ids, s: System)
    requires |s.ws| == net.n && Enabled(net, ids, s, Send)
    ensures Cost(net, ids, SendOne(ids, s)) < Cost(net, ids, s)
  {
    hide ListCost, InputCost, BackCost, Cost;
    var m := s.driver.sent / 2;
    var id := ids.micro(s.driver.batch.id, m);
    var last := |s.ws| - 1;
    if s.driver.sent % 2 == 0 {
      var t := Target(id, s.driver.batch.ys[m]);
      Appended(net, last, s.ws[last].fromDriver, t, 1);
      SentLowers(net, ids, s, last, s.ws[last].(fromDriver := s.ws[last].fromDriver + [t]));
    } else {
      var t := Input(id, s.driver.batch.xs[m]);
      Appended(net, 0, s.ws[0].fromPrev, t, 1);
      SentLowers(net, ids, s, 0, s.ws[0].(fromPrev := s.ws[0].fromPrev + [t]));
    }
  }

  lemma DeliverLowers(net: Net, ids: Ids, s: System, a: Action)
    requires |s.ws| == net.n && Enabled(net, ids, s, a) && (a.DeliverPrev? || a.DeliverNext? || a.DeliverLabel?)
    ensures Cost(net, ids, Apply(net, ids, s, a)) < Cost(net, ids, s)
  {
    hide InputCost, BackCost, PhaseCost;
    var w := s.ws[a.i];
    match a
    case DeliverPrev(i) =>
      Appended(net, i, w.queue, w.fromPrev[0], 0);
      OneWorkerLowers(net, ids, s, i, w.(queue := w.queue + [w.fromPrev[0]], fromPrev := w.fromPrev[1..]));
    case DeliverNext(i) =>
      Appended(net, i, w.queue, w.fromNext[0], 0);
      OneWorkerLowers(net, ids, s, i, w.(queue := w.queue + [w.fromNext[0]], fromNext := w.fromNext[1..]));
    case DeliverLabel(i) =>
      Appended(net, i, w.queue, w.fromDriver[0], 0);
      OneWorkerLowers(net, ids, s, i, w.(queue := w.queue + [w.fromDriver[0]], fromDriver := w.fromDriver[1..]));
  }

  lemma ActivateLowers(net: Net, ids: Ids, s: System, i: nat)
    requires |s.ws| == net.n && Enabled(net, ids, s, Activate(i))
    ensures Cost(net, ids, Apply(net, ids, s, Activate(i))) < Cost(net, ids, s)
  {
    var w, next := s.ws[i], s.ws[i + 1];
    var t := Input(w.phase.id, w.phase.y);
    Appended(net, i + 1, next.fromPrev, t, 1);
    hide ListCost, InputCost;
    TwoWorkersLower(net, ids, s, i, w.(phase := Idle), i + 1, next.(fromPrev := next.fromPrev + [t]));
  }

  lemma PostLowers(net: Net, ids: Ids, s: System, i: nat, p: Param)
    requires |s.ws| == net.n && Enabled(net, ids, s, Post(i, p))
    ensures Cost(net, ids, Apply(net, ids, s, Post(i, p))) < Cost(net, ids, s)
  {
    hide ListCost, ReturnCost, Copies;
    var w := s.ws[i];
    var o := Owner(net, p);
    var q := (p, ids.full(w.phase.id));
    var g := if p in w.grads then w.grads[p] else 0;
    var w' := w.(grads := w.grads - {p}, phase := w.phase.(left := w.phase.left - {p}));
    var owner := s.ws[i := w'][o];
    TwoWorkersLower(net, ids, s, i, w', o,
      owner.(tied := owner.tied[q := (if q in owner.tied then owner.tied[q] else []) + [g]]));
  }

  lemma PushLowers(net: Net, ids: Ids, s: System, i: nat, p: Param, j: nat)
    requires |s.ws| == net.n && Enabled(net, ids, s, Push(i, p, j))
    ensures Cost(net, ids, Apply(net, ids, s, Push(i, p, j))) < Cost(net, ids, s)
  {
    hide ListCost, ReturnCost, Copies;
    var w := s.ws[i];
    var w' := w.(phase := w.phase.(copies := w.phase.copies - {(p, j)}));
    var other := s.ws[i := w'][j];
    TwoWorkersLower(net, ids, s, i, w', j, other.(params := other.params[p := w.params[p]]));
  }

  lemma ReturnLowers(net: Net, ids: Ids, s: System, i: nat)
    requires |s.ws| == net.n && Enabled(net, ids, s, Return(i))
    ensures Cost(net, ids, Apply(net, ids, s, Return(i))) < Cost(net, ids, s)
  {
    hide Cost, ListCost, BackCost;
    var w := s.ws[i];
    var w' := w.(phase := Idle);
    var t := Gradient(w.phase.id, w.phase.g);
    if i > 0 {
      var prev := s.ws[i - 1];
      Appended(net, i - 1, prev.fromNext, t, 1);
      TwoWorkersLower(net, ids, s, i, w', i - 1, prev.(fromNext := prev.fromNext + [t]));
    } else {
      OneWorkerLowers(net, ids, s, i, w');
      DoneIsFree(net, ids, s.(ws := s.ws[i := w']), w.phase.id);
    }
  }

  lemma DoneIsFree(net: Net, ids: Ids, s: System, id: nat)
    ensures Cost(net, ids, s.(driver := s.driver.(done := true, events := s.driver.events + [id]))) == Cost(net, ids, s)
  {
    hide Sum, MessageCost;
  }

  lemma OptimizeLowers(net: Net, ids: Ids, s: System, i: nat)
    requires |s.ws| == net.n && Enabled(net, ids, s, Optimize(i))
    ensures Cost(net, ids, Apply(net, ids, s, Optimize(i))) < Cost(net, ids, s)
  {
    hide ListCost, ReturnCost, Copies, SteppedParams, SteppedOpt, WithReplicas, TiedReady;
    OneWorkerLowers(net, ids, s, i, OptimizeStep(net, i, ids, s.ws[i]));
  }

  lemma StepLowers(net: Net, ids: Ids, s: System, a: Action)
    requires |s.ws| == net.n && Enabled(net, ids, s, a) && !a.NextBatch?
    ensures Cost(net, ids, Apply(net, ids, s, a)) < Cost(net, ids, s)
  {
    hide Cost, RunTask, OptimizeStep, SendOne;
    match a
    case Send => SendLowers(net, ids, s);
    case DeliverPrev(_) | DeliverNext(_) | DeliverLabel(_) => DeliverLowers(net, ids, s, a);
    case Run(i) =>
      TaskLowers(net, i, ids, s.ws[i]);
      OneWorkerLowers(net, ids, s, i, RunTask(net, i, ids, s.ws[i]));
    case Activate(i) => ActivateLowers(net, ids, s, i);
    case Post(i, p) => PostLowers(net, ids, s, i, p);
    case Optimize(i) => OptimizeLowers(net, ids, s, i);
    case Push(i, p, j) => PushLowers(net, ids, s, i, p, j);
    case Return(i) => ReturnLowers(net, ids, s, i);
  }

  // ── runs within a batch ──────────────────────────────────────────────────────

  ghost predicate OneBatch(acts: seq<Action>) {
    forall j | 0 <= j < |acts| :: !acts[j].NextBatch?
  }

  lemma StepShape(net: Net, ids: Ids, s: System, a: Action)
    requires Enabled(net, ids, s, a) && !a.NextBatch? && s.driver.sent <= 2 * ids.k
    ensures var s' := Apply(net, ids, s, a); |s'.ws| == |s.ws| && s'.driver.sent <= 2 * ids.k
  {
    hide RunTask, OptimizeStep;
  }

  /** However the workers interleave, the steps of one batch are no more than its cost at the start. */
  lemma {:induction false} Bounded(net: Net, ids: Ids, s: System, acts: seq<Action>)
    requires |s.ws| == net.n && s.driver.sent <= 2 * ids.k && IsRun(net, ids, s, acts) && OneBatch(acts)
    ensures |acts| <= Cost(net, ids, s)
    decreases |acts|
  {
    hide Apply, Enabled;
    if acts == [] {
      CostSign(net, ids, s);
    } else {
      var s' := Apply(net, ids, s, acts[0]);
      StepShape(net, ids, s, acts[0]);
      StepLowers(net, ids, s, acts[0]);
      Bounded(net, ids, s', acts[1..]);
    }
  }

  lemma CostSign(net: Net, ids: Ids, s: System)
    requires s.driver.sent <= 2 * ids.k
    ensures Cost(net, ids, s) >= 0
  {
    hide Sum, MessageCost;
    var left: nat := 2 * ids.k - s.driver.sent;
    assert left * MessageCost(net) >= 0;
  }

  /** A run that has gone on within its batch until nothing but the next batch could follow has seen
      `batch_done`. */
  lemma Completes(net: Net, k: nat, mem: Memory, first: Batch, acts: seq<Action>, s: System)
    requires PipelineResults.LeadsTo(net, k, mem, first, acts, s)
    requires forall a | Enabled(net, Numbered(k), s, a) :: a.NextBatch?
    ensures s.driver.done
  {
    if !s.driver.done {
      var a := PipelineResults.NeverStuck(net, k, mem, first, acts, s);
    }
  }

  lemma {:induction false} RunMore(net: Net, ids: Ids, s: System, acts: seq<Action>, a: Action)
    requires IsRun(net, ids, s, acts) && Enabled(net, ids, EndOf(net, ids, s, acts), a)
    ensures IsRun(net, ids, s, acts + [a])
    ensures EndOf(net, ids, s, acts + [a]) == Apply(net, ids, EndOf(net, ids, s, acts), a)
    decreases |acts|
  {
    hide Apply, Enabled;
    if acts == [] {
      assert acts + [a] == [a] && [a][1..] == [];
    } else {
      RunMore(net, ids, Apply(net, ids, s, acts[0]), acts[1..], a);
      assert (acts + [a])[1..] == acts[1..] + [a];
    }
  }

  /** Wherever a run has got to, it can be continued, within its batch, until `batch_done`. */
  lemma {:induction false} CanFinish(net: Net, k: nat, mem: Memory, first: Batch, acts: seq<Action>, s: System)
    returns (more: seq<Action>, end: System)
    requires PipelineResults.LeadsTo(net, k, mem, first, acts, s)
    ensures OneBatch(more) && PipelineResults.LeadsTo(net, k, mem, first, acts + more, end)
    ensures end.driver.done && end.driver.batch == s.driver.batch && end.driver.finished == s.driver.finished
    decreases Cost(net, Numbered(k), s)
  {
    hide IsRun, EndOf, Start, Cost, Enabled, Apply, PipelineResults.LeadsTo;
    var ids := Numbered(k);
    if s.driver.done {
      more, end := [], s;
      assert acts + [] == acts;
    } else {
      var a := PipelineResults.NeverStuck(net, k, mem, first, acts, s);
      Shape(net, k, mem, first, acts, s);
      var s' := Apply(net, ids, s, a);
      StepLowers(net, ids, s, a);
      Goes(net, k, mem, first, acts, s, a);
      CostSign(net, ids, s');
      var rest;
      rest, end := CanFinish(net, k, mem, first, acts + [a], s');
      more := [a] + rest;
      assert (acts + [a]) + rest == acts + more;
    }
  }

  lemma Shape(net: Net, k: nat, mem: Memory, first: Batch, acts: seq<Action>, s: System)
    requires PipelineResults.LeadsTo(net, k, mem, first, acts, s)
    ensures |s.ws| == net.n && s.driver.sent <= 2 * k
  {
    hide IsRun, EndOf, Start;
    var d, pos := PipelineResults.BatchesFit(net, k, mem, first, acts, s);
    hide PipelineInvariant.Good;
  }

  lemma Goes(net: Net, k: nat, mem: Memory, first: Batch, acts: seq<Action>, s: System, a: Action)
    requires PipelineResults.LeadsTo(net, k, mem, first, acts, s) && Enabled(net, Numbered(k), s, a) && !a.NextBatch?
    ensures var s' := Apply(net, Numbered(k), s, a);
      && PipelineResults.LeadsTo(net, k, mem, first, acts + [a], s')
      && s'.driver.batch == s.driver.batch && s'.driver.sent <= 2 * k && s'.driver.finished == s.driver.finished
  {
    Shape(net, k, mem, first, acts, s);
    RunMore(net, Numbered(k), Start(net, mem, first), acts, a);
    hide IsRun, EndOf, Start, RunTask, OptimizeStep;
  }

  lemma NothingYet(net: Net, k: nat, mem: Memory, first: Batch)
    requires PipelineRuns.Fresh(net, k, mem, first)
    ensures PipelineResults.LeadsTo(net, k, mem, first, [], Start(net, mem, first))
  {
    hide PipelineRuns.Fresh, Start;
  }

  /** After one batch each worker holds its slice of what `Synced` says. */
  lemma AfterOneBatch(net: Net, k: nat, mem: Memory, first: Batch, acts: seq<Action>, s: System, i: nat)
    requires PipelineResults.LeadsTo(net, k, mem, first, acts, s) && s.driver.done && i < net.n
    requires PipelineResults.Trained(s) == [first]
    ensures |s.ws| == net.n && WellFormed(net, mem) && 0 < |first.xs| == |first.ys|
    ensures s.ws[i].params == Restrict(Synced(net, mem, first.xs, first.ys).params, net.uses(i))
  {
    hide PipelineResults.LeadsTo, Synced, Restrict, WellFormed;
    PipelineResults.WorkersHoldSynced(net, k, mem, first, acts, s, i);
    assert [first][0] == first;
    OneBatchMemory(net, mem, first);
  }

  lemma PairReady(first: Batch)
    requires first == Batch(0, [0, 0], [0, 0])
    ensures PipelineRuns.Fresh(ONES, 2, START, first) && ONES.n == 2 == |START.bufs|
    ensures Restrict(map[0 := 16], ONES.uses(0)) == map[0 := 16]
  {
    TwoMicrosDiffer();
    hide Central, Synced, Quiet, WellFormed;
  }

  lemma FreshDriver(net: Net, first: Batch)
    requires net.n == 2
    ensures Start(net, START, first).driver == Driver(first, 0, false, [], [])
  {
    hide FreshWorker;
  }

  /** The workers themselves, not only the sums: a run of two workers that share a parameter, with a
      commutative `add` and one batch of two micro-batches, in which the copy of the first worker ends
      up with another value than in the uncut network. */
  lemma TiedWorkersDiffer() returns (acts: seq<Action>, s: System)
    ensures Swaps(ONES) && WellFormed(ONES, START) && ONES.n == 2
    ensures PipelineResults.LeadsTo(ONES, 2, START, Batch(0, [0, 0], [0, 0]), acts, s) && s.driver.done && |s.ws| == 2
    ensures s.ws[0].params == map[0 := 16] && Central(ONES, START, [0, 0], [0, 0]).params == map[0 := 22]
  {
    hide *;
    var first := Batch(0, [0, 0], [0, 0]);
    TwoMicrosDiffer();
    PairReady(first);
    FreshDriver(ONES, first);
    NothingYet(ONES, 2, START, first);
    acts, s := CanFinish(ONES, 2, START, first, [], Start(ONES, START, first));
    assert [] + acts == acts;
    OneTrained(s, first);
    AfterOneBatch(ONES, 2, START, first, acts, s, 0);
  }

  lemma OneTrained(s: System, first: Batch)
    requires s.driver.finished == [] && s.driver.batch == first
    ensures PipelineResults.Trained(s) == [first]
  {
  }

  lemma OneBatchMemory(net: Net, mem: Memory, first: Batch)
    requires WellFormed(net, mem) && 0 < |first.xs| == |first.ys|
    ensures PipelineInvariant.MemAfter(net, mem, [first]) == Synced(net, mem, first.xs, first.ys)
  {
    hide Synced, WellFormed;
    assert [first][..0] == [];
    assert PipelineInvariant.MemAfter(net, mem, []) == mem;
  }
}
