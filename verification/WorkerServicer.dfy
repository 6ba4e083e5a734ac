/** `WorkerServicer`: one worker of the pipeline, whose fields its queued tasks and its peers'
    calls change in place. `Cluster` puts the workers together and proves that their calls make the
    moves of `Protocol`. */
module WorkerServicer {
  import opened Network
  import opened Protocol

  /** Who a message comes from. */
  datatype Link = FromPrev | FromNext | FromDriver

  class WorkerServicer {
    const net: Net
    const index: nat
    const ids: Ids
    var params: map<Param, Tensor>
    var opt: map<Param, Tensor>
    var grads: map<Param, Tensor>
    var buf: Tensor
    var outputs: map<nat, (Tensor, Tape)>
    var labels: map<nat, Tensor>
    var microLosses: map<nat, Tensor>
    var tiedGrads: map<(Param, nat), seq<Tensor>>
    var queue: seq<Task>
    var fromPrev: seq<Task>
    var fromNext: seq<Task>
    var fromDriver: seq<Task>
    var phase: Phase
    ghost var ran: seq<nat>
    ghost var backed: seq<nat>
    ghost var stepped: seq<nat>
    var metrics: seq<(nat, real)>

    ghost function State(): Worker
      reads this
    {
      Worker(params, opt, grads, buf, outputs, labels, microLosses, tiedGrads, queue, fromPrev, fromNext, fromDriver,
             phase, ran, backed, stepped, metrics)
    }

    /** `init`: the slice's parameters, and empty tables. */
    constructor (net: Net, index: nat, ids: Ids, mem: Memory)
      requires index < |mem.bufs|
      ensures this.net == net && this.index == index && this.ids == ids
      ensures State() == FreshWorker(net, mem, index)
    {
      this.net, this.index, this.ids := net, index, ids;
      params, opt, grads := Restrict(mem.params, net.uses(index)), Restrict(mem.opt, Owned(net, index)), map[];
      buf := mem.bufs[index];
      outputs, labels, microLosses, tiedGrads := map[], map[], map[], map[];
      queue, fromPrev, fromNext, fromDriver, phase := [], [], [], [], Idle;
      ran, backed, stepped, metrics := [], [], [], [];
    }

    /** A peer or the driver sends a message here. */
    method Arrive(link: Link, t: Task)
      modifies this`fromPrev, this`fromNext, this`fromDriver
      ensures State() == match link
        case FromPrev => old(State()).(fromPrev := old(fromPrev) + [t])
        case FromNext => old(State()).(fromNext := old(fromNext) + [t])
        case FromDriver => old(State()).(fromDriver := old(fromDriver) + [t])
    {
      match link
      case FromPrev => fromPrev := fromPrev + [t];
      case FromNext => fromNext := fromNext + [t];
      case FromDriver => fromDriver := fromDriver + [t];
    }

    /** The oldest message of a link reaches the queue. */
    method Submit(link: Link)
      requires match link
        case FromPrev => fromPrev != []
        case FromNext => fromNext != []
        case FromDriver => fromDriver != []
      modifies this`queue, this`fromPrev, this`fromNext, this`fromDriver
      ensures State() == match link
        case FromPrev => old(State()).(queue := old(queue) + [old(fromPrev)[0]], fromPrev := old(fromPrev)[1..])
        case FromNext => old(State()).(queue := old(queue) + [old(fromNext)[0]], fromNext := old(fromNext)[1..])
        case FromDriver => old(State()).(queue := old(queue) + [old(fromDriver)[0]], fromDriver := old(fromDriver)[1..])
    {
      match link
      case FromPrev => queue, fromPrev := queue + [fromPrev[0]], fromPrev[1..];
      case FromNext => queue, fromNext := queue + [fromNext[0]], fromNext[1..];
      case FromDriver => queue, fromDriver := queue + [fromDriver[0]], fromDriver[1..];
    }

    /** `_send_forward_peer`: the activation goes on, and the task ends. */
    method SendForward() returns (t: Task)
      requires phase.Activating?
      modifies this`phase
      ensures t == Input(old(phase).id, old(phase).y) && State() == old(State()).(phase := Idle)
    {
      t := Input(phase.id, phase.y);
      phase := Idle;
    }

    /** `_send_backward`: the gradient goes back, and the task ends. */
    method SendBackward() returns (t: Task)
      requires phase.Pushing? && phase.copies == {}
      modifies this`phase
      ensures t == Gradient(old(phase).id, old(phase).g) && State() == old(State()).(phase := Idle)
    {
      t := Gradient(phase.id, phase.g);
      phase := Idle;
    }

    /** The owner's last loop in `_optimize`: one replica gets the stepped value. */
    method PushCopy(p: Param, j: nat) returns (value: Tensor)
      requires phase.Pushing? && (p, j) in phase.copies && p in params
      modifies this`phase
      ensures value == old(params)[p]
      ensures State() == old(State()).(phase := old(phase).(copies := old(phase).copies - {(p, j)}))
    {
      value := params[p];
      phase := phase.(copies := phase.copies - {(p, j)});
    }

    /** The pool's thread takes the next task off the queue and runs it. */
    method RunNext()
      requires queue != []
      modifies this
      ensures State() == RunTask(net, index, ids, old(State()))
    {
      var task := queue[0];
      queue := queue[1..];
      match task
      case Input(id, x) => RunForwardStage(id, x);
      case Target(id, y) => TakeLabel(id, y);
      case Gradient(id, g) => RunBackwardStage(id, g);
    }

    /** `_take_label`. */
    method TakeLabel(id: nat, label': Tensor)
      modifies this
      ensures State() == Protocol.TakeLabel(net, index, ids, old(State()), id, label')
    {
      if id in outputs {
        var (out, tape) := outputs[id];
        outputs := outputs - {id};
        RunBackwardLast(id, out, tape, label');
      } else {
        labels := labels[id := label'];
      }
    }

    /** `_run_forward_stage`. */
    method RunForwardStage(id: nat, x: Tensor)
      modifies this
      ensures State() == ForwardStage(net, index, ids, old(State()), id, x)
    {
      hide BackwardLast, Restrict, BackThrough, Accumulate;
      var tape := Tape(Restrict(params, net.uses(index)), buf, 0, x);
      var out := net.run(index, tape);
      buf := out.buf;
      ran := ran + [id];
      if index + 1 == net.n {
        if id in labels {
          var y := labels[id];
          labels := labels - {id};
          RunBackwardLast(id, out.y, tape, y);
        } else {
          outputs := outputs[id := (out.y, tape)];
        }
      } else {
        outputs := outputs[id := (out.y, tape)];
        phase := Activating(id, out.y);
      }
    }

    /** `_run_backward_stage`: a gradient whose graph is missing is skipped. */
    method RunBackwardStage(id: nat, gradIn: Tensor)
      modifies this
      ensures State() == BackwardStage(net, index, ids, old(State()), id, gradIn)
    {
      if id in outputs {
        var (_, tape) := outputs[id];
        outputs := outputs - {id};
        Back(id, tape, gradIn);
      }
    }

    /** `_run_backward_last`: the loss of the micro-batch joins the sum of its batch, whose mean
        is reported and which is dropped with the last one. */
    method RunBackwardLast(id: nat, out: Tensor, tape: Tape, y: Tensor)
      modifies this
      ensures State() == BackwardLast(net, index, ids, old(State()), id, out, tape, y)
      ensures ids.k > 0 && ids.last(id) ==>
        var before := if ids.full(id) in old(microLosses) then old(microLosses)[ids.full(id)] else 0;
        var sum := net.plus(before, net.loss(out, y));
        |metrics| == |old(metrics)| + 1 && metrics[|old(metrics)|].1 * ids.k as real == sum as real
    {
      if ids.k > 0 {
        var before := if ids.full(id) in microLosses then microLosses[ids.full(id)] else 0;
        MeanTimes(net.plus(before, net.loss(out, y)), ids.k);
      }
      hide Mean;
      var batch := ids.full(id);
      var sum := net.plus(if batch in microLosses then microLosses[batch] else 0, net.loss(out, y));
      if ids.last(id) {
        microLosses := microLosses - {batch};
        metrics := metrics + [(id, Mean(sum, ids.k))];
      } else {
        microLosses := microLosses[batch := sum];
      }
      Back(id, tape, net.lossGrad(out, y, ids.k));
    }

    /** `out.backward(grad)`: every parameter's `.grad` grows; after the last micro-batch the
        optimizer step comes next, else the gradient goes on. */
    method Back(id: nat, tape: Tape, g: Tensor)
      modifies this`grads, this`phase, this`backed
      ensures State() == BackThrough(net, index, old(State()), id, tape, g, ids)
    {
      var live := tape.(params := Restrict(params, net.uses(index)));
      var gx := net.vjpX(index, live, g);
      grads := Accumulate(net, index, live, g, grads);
      backed := backed + [id];
      if ids.last(id) {
        phase := Syncing(id, gx, Replicas(net, index));
      } else {
        phase := Pushing(id, gx, {});
      }
    }

    /** `tied_grad` at the owner: one more gradient from a replica. */
    method TiedGrad(p: Param, batch: nat, g: Tensor)
      modifies this`tiedGrads
      ensures State() == old(State()).(tied := old(tiedGrads)[(p, batch) := TiedSoFar(old(State()), p, batch) + [g]])
    {
      var before := if (p, batch) in tiedGrads then tiedGrads[(p, batch)] else [];
      tiedGrads := tiedGrads[(p, batch) := before + [g]];
    }

    /** The replica's half of `_optimize`: hand the gradient over and drop it. */
    method HandOver(p: Param) returns (g: Tensor)
      requires phase.Syncing? && p in phase.left
      modifies this`grads, this`phase
      ensures g == if p in old(grads) then old(grads)[p] else 0
      ensures State() == old(State()).(grads := old(grads) - {p}, phase := old(phase).(left := old(phase).left - {p}))
    {
      g := if p in grads then grads[p] else 0;
      grads := grads - {p};
      phase := phase.(left := phase.left - {p});
    }

    /** The owner's half of `_optimize`: wait for the replicas' gradients, add them and step. The wait
        that times out raises, and changes nothing. */
    method Optimize() returns (ok: bool)
      requires index < net.n && phase.Syncing?
      modifies this
      ensures ok <==> TiedReady(net, index, old(State()), ids.full(old(phase).id))
      ensures State() == if ok then OptimizeStep(net, index, ids, old(State())) else old(State())
    {
      hide WithReplicas, Owned, Copies, TiedReady;
      var batch := ids.full(phase.id);
      ok := Await(batch);
      if !ok { return; }
      AddReplicas(batch);
      StepLayer(batch);
      phase := Pushing(phase.id, phase.g, Copies(net, index));
    }

    /** The condition of `wait_for`, group by group. */
    method Await(batch: nat) returns (ready: bool)
      requires index < net.n
      ensures ready <==> TiedReady(net, index, State(), batch)
    {
      hide Owned, CountUsers, ReplicaCount;
      var left := Owned(net, index);
      while left != {}
        invariant left <= Owned(net, index)
        invariant forall p | p in Owned(net, index) - left && ReplicaCount(net, p, index) > 0 ::
          (p, batch) in tiedGrads && |tiedGrads[(p, batch)]| >= ReplicaCount(net, p, index)
        decreases |left|
      {
        var p :| p in left;
        if ReplicaCount(net, p, index) > 0 {
          if (p, batch) !in tiedGrads || |tiedGrads[(p, batch)]| < ReplicaCount(net, p, index) { return false; }
        }
        left := left - {p};
      }
      ready := true;
    }

    /** Take the replicas' gradients of every owned tied parameter. */
    method AddReplicas(batch: nat)
      requires index < net.n
      modifies this`grads, this`tiedGrads
      ensures State() == old(State()).(grads := WithReplicas(net, index, old(State()), batch),
                                       tied := Kept(old(State()), Owned(net, index), batch))
    {
      hide Owned, CountUsers, Acc, ReplicaCount, Taken, Gone;
      var owned := Owned(net, index);
      var left := owned;
      ghost var taken: set<Param> := {};
      NothingTaken(net, index, State(), batch);
      while left != {}
        invariant taken !! left && taken + left == owned
        invariant State() == old(State()).(grads := grads, tied := tiedGrads)
        invariant forall p :: Taken(net, index, old(State()), batch, grads, p, taken)
        invariant forall q :: Gone(old(State()), taken, batch, tiedGrads, q)
        decreases |left|
      {
        var p :| p in left;
        AddReplica(p, batch, old(State()), taken);
        taken := taken + {p};
        left := left - {p};
      }
      assert taken == owned;
      TakenAll(net, index, old(State()), batch, grads);
      SameMap(grads, WithReplicas(net, index, old(State()), batch));
      GoneAll(old(State()), owned, batch, tiedGrads);
    }

    /** `p.grad` plus the sum of its replicas' gradients, which are taken out of the table. */
    method AddReplica(p: Param, batch: nat, ghost w: Worker, ghost taken: set<Param>)
      requires index < net.n && p !in taken
      requires forall r :: Taken(net, index, w, batch, grads, r, taken)
      requires forall q :: Gone(w, taken, batch, tiedGrads, q)
      modifies this`grads, this`tiedGrads
      ensures forall r :: Taken(net, index, w, batch, grads, r, taken + {p})
      ensures forall q :: Gone(w, taken + {p}, batch, tiedGrads, q)
    {
      hide CountUsers, Acc;
      ghost var grads0, tied0 := grads, tiedGrads;
      assert Gone(w, taken, batch, tiedGrads, (p, batch)) && Taken(net, index, w, batch, grads, p, taken);
      if ReplicaCount(net, p, index) > 0 && (p, batch) in tiedGrads && tiedGrads[(p, batch)] != [] {
        var total := Acc(net, tiedGrads[(p, batch)]);
        grads := grads[p := if p in grads then net.add(grads[p], total) else total];
      }
      tiedGrads := tiedGrads - {(p, batch)};
      forall r ensures Taken(net, index, w, batch, grads, r, taken + {p}) {
        assert Taken(net, index, w, batch, grads0, r, taken);
      }
      forall q ensures Gone(w, taken + {p}, batch, tiedGrads, q) {
        assert Gone(w, taken, batch, tied0, q);
      }
    }

    /** `layer.optimize()` on the owned parameters that have a gradient. */
    method StepLayer(ghost batch: nat)
      modifies this`params, this`opt, this`grads, this`stepped
      ensures State() == old(State()).(
        params := SteppedParams(net, Owned(net, index), old(params), old(opt), old(grads)),
        opt := SteppedOpt(net, Owned(net, index), old(params), old(opt), old(grads)),
        grads := old(grads) - Owned(net, index), stepped := old(stepped) + [batch])
    {
      hide Owned, SteppedParams, SteppedOpt;
      var owned := Owned(net, index);
      params, opt := OptimizerStep(net, owned, params, opt, grads);
      grads := grads - owned;
      stepped := stepped + [batch];
    }

    /** `tied_update` at a replica: the owner's value replaces the copy. */
    method TiedUpdate(p: Param, value: Tensor)
      modifies this`params
      ensures State() == old(State()).(params := old(params)[p := value])
    {
      params := params[p := value];
    }
  }

  /** `optimizer.step()`: one parameter after the other. */
  method OptimizerStep(net: Net, owned: set<Param>, params: map<Param, Tensor>, opt: map<Param, Tensor>,
                       grads: map<Param, Tensor>)
    returns (values: map<Param, Tensor>, states: map<Param, Tensor>)
    ensures values == SteppedParams(net, owned, params, opt, grads)
    ensures states == SteppedOpt(net, owned, params, opt, grads)
  {
    values, states := params, opt;
    var left := owned;
    while left != {}
      invariant left <= owned && values.Keys == params.Keys && states.Keys == opt.Keys
      invariant forall p | p in params ::
        values[p] == if p in left then params[p] else SteppedParams(net, owned, params, opt, grads)[p]
      invariant forall p | p in opt ::
        states[p] == if p in left then opt[p] else SteppedOpt(net, owned, params, opt, grads)[p]
      decreases |left|
    {
      var p :| p in left;
      if p in params && p in opt && p in grads {
        var stepped := net.step(p, values[p], states[p], grads[p]);
        values, states := values[p := stepped.0], states[p := stepped.1];
      }
      left := left - {p};
    }
    SameMap(values, SteppedParams(net, owned, params, opt, grads));
    SameMap(states, SteppedOpt(net, owned, params, opt, grads));
  }

  function TiedSoFar(w: Worker, p: Param, batch: nat): seq<Tensor> {
    if (p, batch) in w.tied then w.tied[(p, batch)] else []
  }

  /** The replica gradients left when those of the parameters `ps` for `batch` are taken. */
  function Kept(w: Worker, ps: set<Param>, batch: nat): map<(Param, nat), seq<Tensor>> {
    map q | q in w.tied && !(q.0 in ps && q.1 == batch) :: w.tied[q]
  }

  /** `q` is gone from the table just if it is one of those. */
  ghost predicate Gone(w: Worker, ps: set<Param>, batch: nat, tied: map<(Param, nat), seq<Tensor>>, q: (Param, nat)) {
    && (q in tied <==> q in w.tied && !(q.0 in ps && q.1 == batch))
    && (q in tied ==> tied[q] == w.tied[q])
  }

  lemma GoneAll(w: Worker, ps: set<Param>, batch: nat, tied: map<(Param, nat), seq<Tensor>>)
    requires forall q :: Gone(w, ps, batch, tied, q)
    ensures tied == Kept(w, ps, batch)
  {
    forall q ensures q in tied <==> q in Kept(w, ps, batch) { assert Gone(w, ps, batch, tied, q); }
    forall q | q in tied ensures tied[q] == Kept(w, ps, batch)[q] { assert Gone(w, ps, batch, tied, q); }
    SameMap(tied, Kept(w, ps, batch));
  }

  /** `.grad` of `p` when the replicas' gradients of the parameters `taken` have been added. */
  ghost predicate Taken(net: Net, i: nat, w: Worker, batch: nat, grads: map<Param, Tensor>, p: Param, taken: set<Param>)
    requires i < net.n
  {
    if p in taken && ReplicaCount(net, p, i) > 0 && (p, batch) in w.tied && w.tied[(p, batch)] != [] then
      && p in grads
      && grads[p] == if p in w.grads then net.add(w.grads[p], Acc(net, w.tied[(p, batch)]))
                     else Acc(net, w.tied[(p, batch)])
    else (p in grads <==> p in w.grads) && (p in grads ==> grads[p] == w.grads[p])
  }

  lemma NothingTaken(net: Net, i: nat, w: Worker, batch: nat)
    requires i < net.n
    ensures forall p :: Taken(net, i, w, batch, w.grads, p, {})
    ensures forall q :: Gone(w, {}, batch, w.tied, q)
  {
  }

  lemma TakenAll(net: Net, i: nat, w: Worker, batch: nat, grads: map<Param, Tensor>)
    requires i < net.n
    requires forall p :: Taken(net, i, w, batch, grads, p, Owned(net, i))
    ensures grads.Keys == WithReplicas(net, i, w, batch).Keys
    ensures forall p | p in grads :: grads[p] == WithReplicas(net, i, w, batch)[p]
  {
    hide Owned, CountUsers, Acc;
    forall p ensures p in grads <==> p in WithReplicas(net, i, w, batch) {
      assert Taken(net, i, w, batch, grads, p, Owned(net, i));
    }
    forall p | p in grads ensures grads[p] == WithReplicas(net, i, w, batch)[p] {
      assert Taken(net, i, w, batch, grads, p, Owned(net, i));
    }
  }
}
