/** `LocalExecutor`: every slice in one process, over one shared memory.

    A tied parameter is one tensor, so a backward through any slice adds to the same `.grad`; only
    the optimizer of its lowest user holds it. Backward reads the parameters where they live: a
    step that ran too early would change its result. The two batch methods are proved to leave the
    memory exactly as one uncut network would. */
module LocalExecutor {
  import opened Network

  class LocalExecutor {
    const net: Net
    var params: map<Param, Tensor>
    var opt: map<Param, Tensor>
    var grads: map<Param, Tensor>
    var bufs: seq<Tensor>
    var rng: Tensor

    constructor (net: Net, mem: Memory)
      requires WellFormed(net, mem)
      ensures this.net == net && Mem() == mem
    {
      this.net := net;
      params, opt, grads, bufs, rng := mem.params, mem.opt, mem.grads, mem.bufs, mem.rng;
    }

    ghost function Mem(): Memory
      reads this
    {
      Memory(params, opt, grads, bufs, rng)
    }

    ghost predicate Valid()
      reads this
    {
      WellFormed(net, Mem())
    }

    /** `SplitLayer.forward`: run slice `i`, keep the cut-point input, update its buffers. */
    method Forward(i: nat, x: Tensor) returns (tape: Tape, y: Tensor)
      requires Valid() && i < net.n
      modifies this`bufs, this`rng
      ensures Valid()
      ensures tape == Tape(Restrict(params, net.uses(i)), old(bufs[i]), old(rng), x)
      ensures y == net.run(i, tape).y
      ensures bufs == old(bufs)[i := net.run(i, tape).buf] && rng == net.run(i, tape).rng
    {
      tape := Tape(Restrict(params, net.uses(i)), bufs[i], rng, x);
      var out := net.run(i, tape);
      y, rng := out.y, out.rng;
      bufs := bufs[i := out.buf];
    }

    /** `SplitLayer.backward`: back-propagate `g`, adding to every used parameter's `.grad`. The
        parameters are read where they live now, not where they were at the forward. */
    method Backward(i: nat, tape: Tape, g: Tensor) returns (gx: Tensor)
      requires Valid() && i < net.n
      modifies this`grads
      ensures Valid()
      ensures var live := tape.(params := Restrict(params, net.uses(i)));
              gx == net.vjpX(i, live, g) && grads == Accumulate(net, i, live, g, old(grads))
    {
      hide FirstUser, Restrict;
      var live := tape.(params := Restrict(params, net.uses(i)));
      gx := net.vjpX(i, live, g);
      grads := Accumulate(net, i, live, g, grads);
    }

    /** `SplitLayer.optimize`: step what slice `i`'s optimizer holds and clear its gradients. A
        slice that owns nothing has no optimizer. */
    method Optimize(i: nat)
      requires Valid() && i < net.n
      modifies this`params, this`opt, this`grads
      ensures Valid() && Mem() == Step(net, old(Mem()), Owned(net, i))
    {
      var owned := Owned(net, i);
      hide Owned;
      if owned != {} {
        var mem := Step(net, Memory(params, opt, grads, bufs, rng), owned);
        params, opt, grads := mem.params, mem.opt, mem.grads;
      } else {
        StepNothing(net, Mem());
      }
    }

    /** Forward one micro-batch through every slice. */
    method ForwardAll(x: Tensor) returns (tapes: seq<Tape>, y: Tensor)
      requires Valid()
      modifies this`bufs, this`rng
      ensures Valid()
      ensures Pass(tapes, y, bufs, rng) == ForwardTo(net, params, old(bufs), old(rng), x, net.n)
    {
      tapes, y := [], x;
      for i := 0 to net.n
        invariant Valid()
        invariant Pass(tapes, y, bufs, rng) == ForwardTo(net, params, old(bufs), old(rng), x, i)
      {
        var tape, out := Forward(i, y);
        tapes, y := tapes + [tape], out;
      }
    }

    /** `_standard_batch`: forward, then from the last slice to the first a backward and at once a
        step. */
    method StandardBatch(x: Tensor, target: Tensor) returns (loss: Tensor)
      requires Valid() && grads == map[]
      modifies this`params, this`opt, this`grads, this`bufs, this`rng
      ensures Valid()
      ensures Mem() == Central(net, old(Mem()), [x], [target])
      ensures loss == net.loss(ForwardTo(net, old(params), old(bufs), old(rng), x, net.n).x, target)
    {
      ghost var start := Mem();
      var tapes, y := ForwardAll(x);
      loss := net.loss(y, target);
      var g := net.lossGrad(y, target, 1);
      ghost var g0, f := g, Pass(tapes, y, bufs, rng);
      NothingStepped(net, start, Mem(), tapes, g0);
      var i := net.n;
      while i > 0
        invariant 0 <= i <= net.n && Valid() && g == GradAt(net, tapes, g0, i)
        invariant bufs == f.bufs && rng == f.rng && AllStepping(net, start, Mem(), tapes, g0, i)
      {
        i := i - 1;
        g := BackwardAndStep(i, tapes[i], g, start, tapes, g0, x);
      }
      SteppedIsCentral(net, start, Mem(), x, target);
    }

    /** One turn of the backward loop of `_standard_batch`: the slices above `i` have stepped. */
    method BackwardAndStep(i: nat, tape: Tape, g: Tensor, ghost start: Memory, ghost tapes: seq<Tape>, ghost g0: Tensor,
                           ghost x: Tensor)
      returns (gx: Tensor)
      requires Valid() && WellFormed(net, start) && i < net.n == |tapes| && tape == tapes[i]
      requires tapes == ForwardTo(net, start.params, start.bufs, start.rng, x, net.n).tapes
      requires g == GradAt(net, tapes, g0, i + 1) && AllStepping(net, start, Mem(), tapes, g0, i + 1)
      modifies this`params, this`opt, this`grads
      ensures Valid() && gx == GradAt(net, tapes, g0, i) && AllStepping(net, start, Mem(), tapes, g0, i)
    {
      SavedParamsLive(net, start, Mem(), tapes, g0, x, i);
      AllSteppingOnce(net, start, Mem(), tapes, g0, i);
      hide AllStepping, Step, Accumulate, ForwardTo, Owned, Restrict;
      gx := Backward(i, tape, g);
      Optimize(i);
    }

    /** The forwards of `_gpipe_batch`. */
    method ForwardMicros(xs: seq<Tensor>) returns (tapes: seq<seq<Tape>>, outs: seq<Tensor>)
      requires Valid()
      modifies this`bufs, this`rng
      ensures Valid()
      ensures Passes(tapes, outs, bufs, rng) == Forwards(net, old(Mem()), xs, |xs|)
    {
      tapes, outs := [], [];
      for m := 0 to |xs|
        invariant Valid()
        invariant Passes(tapes, outs, bufs, rng) == Forwards(net, old(Mem()), xs, m)
      {
        var t, y := ForwardAll(xs[m]);
        tapes, outs := tapes + [t], outs + [y];
      }
    }

    /** The backward of one micro-batch through every slice, no step in between. */
    method BackwardAll(tapes: seq<Tape>, g0: Tensor)
      requires Valid() && |tapes| == net.n
      requires forall i | 0 <= i < net.n :: tapes[i].params == Restrict(params, net.uses(i))
      modifies this`grads
      ensures Valid()
      ensures Extended(net, old(grads), grads, tapes, g0, 0)
    {
      var g, i := g0, net.n;
      NothingExtended(net, grads, tapes, g0);
      while i > 0
        invariant 0 <= i <= net.n && Valid() && g == GradAt(net, tapes, g0, i)
        invariant Extended(net, old(grads), grads, tapes, g0, i)
      {
        i := i - 1;
        ghost var before := grads;
        g := Backward(i, tapes[i], g);
        ExtendedOnce(net, old(grads), before, tapes, g0, i);
      }
    }

    /** `_gpipe_batch`: forward every micro-batch, back-propagate every micro-batch, then step
        every slice. */
    method GpipeBatch(xs: seq<Tensor>, labels: seq<Tensor>) returns (loss: real)
      requires Valid() && grads == map[] && |xs| == |labels| > 0
      modifies this`params, this`opt, this`grads, this`bufs, this`rng
      ensures Valid()
      ensures Mem() == Central(net, old(Mem()), xs, labels)
      ensures loss * |labels| as real ==
              Losses(net, Forwards(net, old(Mem()), xs, |xs|).outs, labels, |labels|) as real
    {
      hide Mean;
      ghost var start := Mem();
      var tapes, outs := ForwardMicros(xs);
      ghost var f := Passes(tapes, outs, bufs, rng);
      var total := 0;
      for m := 0 to |xs|
        invariant Valid() && Mem() == start.(grads := grads, bufs := f.bufs, rng := f.rng)
        invariant total == Losses(net, outs, labels, m)
        invariant forall p :: Gathered(net, grads, AllContribs(net, f, labels, p, m), p)
      {
        total := net.plus(total, net.loss(outs[m], labels[m]));
        forall i: nat | i < net.n ensures tapes[m][i].params == Restrict(params, net.uses(i)) {
          ForwardsTapes(net, start, xs, |xs|, m, i);
        }
        BackwardAll(tapes[m], net.lossGrad(outs[m], labels[m], |labels|));
      }
      StepAll(start, f, xs, labels);
      loss := Mean(total, |labels|);
      MeanTimes(total, |labels|);
    }

    /** The last loop of `_gpipe_batch`: every slice's optimizer steps on the gathered gradients. */
    method StepAll(ghost start: Memory, ghost f: Passes, ghost xs: seq<Tensor>, ghost labels: seq<Tensor>)
      requires Valid() && WellFormed(net, start) && |xs| == |labels| > 0
      requires f == Forwards(net, start, xs, |xs|)
      requires Mem() == start.(grads := grads, bufs := f.bufs, rng := f.rng)
      requires forall p :: Gathered(net, grads, AllContribs(net, f, labels, p, |labels|), p)
      modifies this`params, this`opt, this`grads
      ensures Valid() && Mem() == Central(net, start, xs, labels)
    {
      ghost var full := grads;
      for i := 0 to net.n
        invariant Valid() && params.Keys == start.params.Keys && bufs == f.bufs && rng == f.rng
        invariant AllStepsUpTo(net, start, full, Mem(), i)
      {
        AllStepsOnce(net, start, full, Mem(), i);
        Optimize(i);
      }
      AllSteppedIsCentral(net, start, full, Mem(), xs, labels);
    }
  }

  lemma StepNothing(net: Net, mem: Memory)
    requires mem.opt.Keys == mem.params.Keys
    ensures Step(net, mem, {}) == mem
  {
    var s := Step(net, mem, {});
    assert s.params == mem.params;
    assert s.opt == mem.opt;
  }

  lemma RestrictSame(a: map<Param, Tensor>, b: map<Param, Tensor>, s: set<Param>)
    requires forall p | p in s :: p in a && p in b && a[p] == b[p]
    ensures Restrict(a, s) == Restrict(b, s)
  {
  }

  // ── lemmas for the standard batch ────────────────────────────────────────────

  lemma GatheredOnce(net: Net, tape: Tape, g: Tensor, grads: map<Param, Tensor>, cs: seq<Tensor>, p: Param, i: nat)
    requires Gathered(net, grads, cs, p)
    ensures Gathered(net, Accumulate(net, i, tape, g, grads),
                     cs + if p in net.uses(i) then [net.vjpP(i, tape, g, p)] else [], p)
  {
    if p in net.uses(i) {
      AccSnoc(net, cs, net.vjpP(i, tape, g, p));
    } else {
      assert cs + [] == cs;
    }
  }

  /** The backward through the slices from `i` on turned the gradients `a` into `b`. */
  ghost predicate Extended(net: Net, a: map<Param, Tensor>, b: map<Param, Tensor>, tapes: seq<Tape>, g0: Tensor, i: nat)
    requires i <= net.n == |tapes|
  {
    forall p, cs | Gathered(net, a, cs, p) :: Gathered(net, b, cs + Contribs(net, tapes, g0, p, i), p)
  }

  lemma NothingExtended(net: Net, a: map<Param, Tensor>, tapes: seq<Tape>, g0: Tensor)
    requires net.n == |tapes|
    ensures Extended(net, a, a, tapes, g0, net.n)
  {
    forall p, cs | Gathered(net, a, cs, p) ensures Gathered(net, a, cs + Contribs(net, tapes, g0, p, net.n), p) {
      assert cs + Contribs(net, tapes, g0, p, net.n) == cs;
    }
  }

  lemma ExtendedOnce(net: Net, a: map<Param, Tensor>, b: map<Param, Tensor>, tapes: seq<Tape>, g0: Tensor, i: nat)
    requires i < net.n == |tapes| && Extended(net, a, b, tapes, g0, i + 1)
    ensures Extended(net, a, Accumulate(net, i, tapes[i], GradAt(net, tapes, g0, i + 1), b), tapes, g0, i)
  {
    var g := GradAt(net, tapes, g0, i + 1);
    var c := Accumulate(net, i, tapes[i], g, b);
    forall p, cs | Gathered(net, a, cs, p) ensures Gathered(net, c, cs + Contribs(net, tapes, g0, p, i), p) {
      var cs' := cs + Contribs(net, tapes, g0, p, i + 1);
      GatheredOnce(net, tapes[i], g, b, cs', p, i);
      assert cs + Contribs(net, tapes, g0, p, i) ==
             cs' + if p in net.uses(i) then [net.vjpP(i, tapes[i], g, p)] else [];
    }
  }

  /** Every tape of a pass holds the parameters its slice uses. */
  lemma {:induction false} ForwardTapes(net: Net, params: map<Param, Tensor>, bufs: seq<Tensor>, rng: Tensor, x: Tensor,
                                        k: nat, i: nat)
    requires i < k <= net.n == |bufs|
    ensures ForwardTo(net, params, bufs, rng, x, k).tapes[i].params == Restrict(params, net.uses(i))
  {
    if i < k - 1 { ForwardTapes(net, params, bufs, rng, x, k - 1, i); }
  }

  /** Where parameter `p` stands when the slices from `i` on have run backward and stepped: the
      ones they own have been stepped on every contribution there is, the others (in particular
      all those a slice below `i` uses) still hold the old weights and what was gathered so far. */
  ghost predicate Stepping(net: Net, start: Memory, mem: Memory, tapes: seq<Tape>, g0: Tensor, p: Param, i: nat)
    requires i <= net.n == |tapes| && p in start.params && p in start.opt
  {
    && p in mem.params && p in mem.opt
    && if Owner(net, p) >= i then
         && p !in mem.grads
         && (mem.params[p], mem.opt[p]) == After(net, start, p, Contribs(net, tapes, g0, p, 0))
       else
         && mem.params[p] == start.params[p] && mem.opt[p] == start.opt[p]
         && Gathered(net, mem.grads, Contribs(net, tapes, g0, p, i), p)
  }

  lemma NothingStepped(net: Net, start: Memory, mem: Memory, tapes: seq<Tape>, g0: Tensor)
    requires WellFormed(net, start) && start.grads == map[] && net.n == |tapes|
    requires mem == start.(bufs := mem.bufs, rng := mem.rng)
    ensures AllStepping(net, start, mem, tapes, g0, net.n)
  {
  }

  lemma SteppingOnce(net: Net, start: Memory, before: Memory, backed: Memory, tapes: seq<Tape>, g0: Tensor, p: Param,
                     i: nat)
    requires i < net.n == |tapes| && p in start.params && p in start.opt
    requires before.opt.Keys == before.params.Keys
    requires Stepping(net, start, before, tapes, g0, p, i + 1)
    requires backed == before.(grads := Accumulate(net, i, tapes[i], GradAt(net, tapes, g0, i + 1), before.grads))
    requires Owner(net, p) < net.n
    ensures Stepping(net, start, Step(net, backed, Owned(net, i)), tapes, g0, p, i)
  {
    if Owner(net, p) <= i {
      GatheredOnce(net, tapes[i], GradAt(net, tapes, g0, i + 1), before.grads, Contribs(net, tapes, g0, p, i + 1), p,
                   i);
      assert Gathered(net, backed.grads, Contribs(net, tapes, g0, p, i), p);
      if Owner(net, p) == i {
        ContribsBelowOwner(net, tapes, g0, p, i);
      }
    }
  }

  ghost predicate AllStepping(net: Net, start: Memory, mem: Memory, tapes: seq<Tape>, g0: Tensor, i: nat)
    requires i <= net.n == |tapes| && start.opt.Keys == start.params.Keys
  {
    && mem.params.Keys == start.params.Keys
    && forall p | p in start.params :: Stepping(net, start, mem, tapes, g0, p, i)
  }

  /** No slice above `i` owns what slice `i` uses, so its backward reads the weights its forward
      used. */
  lemma SavedParamsLive(net: Net, start: Memory, mem: Memory, tapes: seq<Tape>, g0: Tensor, x: Tensor, i: nat)
    requires WellFormed(net, start) && i < net.n == |tapes|
    requires tapes == ForwardTo(net, start.params, start.bufs, start.rng, x, net.n).tapes
    requires AllStepping(net, start, mem, tapes, g0, i + 1)
    ensures tapes[i].(params := Restrict(mem.params, net.uses(i))) == tapes[i]
  {
    ForwardTapes(net, start.params, start.bufs, start.rng, x, net.n, i);
    forall p | p in net.uses(i) ensures p in start.params && mem.params[p] == start.params[p] {
      assert Stepping(net, start, mem, tapes, g0, p, i + 1);
    }
    RestrictSame(mem.params, start.params, net.uses(i));
  }

  lemma AllSteppingOnce(net: Net, start: Memory, before: Memory, tapes: seq<Tape>, g0: Tensor, i: nat)
    requires WellFormed(net, start) && before.opt.Keys == before.params.Keys && i < net.n == |tapes|
    requires AllStepping(net, start, before, tapes, g0, i + 1)
    ensures var backed := before.(grads := Accumulate(net, i, tapes[i], GradAt(net, tapes, g0, i + 1), before.grads));
            AllStepping(net, start, Step(net, backed, Owned(net, i)), tapes, g0, i)
  {
    var backed := before.(grads := Accumulate(net, i, tapes[i], GradAt(net, tapes, g0, i + 1), before.grads));
    forall p | p in start.params
      ensures Stepping(net, start, Step(net, backed, Owned(net, i)), tapes, g0, p, i)
    {
      SteppingOnce(net, start, before, backed, tapes, g0, p, i);
    }
  }

  lemma SteppedIsCentral(net: Net, start: Memory, mem: Memory, x: Tensor, target: Tensor)
    requires WellFormed(net, start) && WellFormed(net, mem)
    requires var f := ForwardTo(net, start.params, start.bufs, start.rng, x, net.n);
      && mem.bufs == f.bufs && mem.rng == f.rng
      && AllStepping(net, start, mem, f.tapes, net.lossGrad(f.x, target, 1), 0)
    ensures mem == Central(net, start, [x], [target])
  {
    var one := ForwardTo(net, start.params, start.bufs, start.rng, x, net.n);
    var f := Forwards(net, start, [x], 1);
    OnePass(net, start, x);
    forall p | p in start.params
      ensures p !in mem.grads
      ensures (mem.params[p], mem.opt[p]) == After(net, start, p, AllContribs(net, f, [target], p, 1))
    {
      OneContribs(net, f, target, p);
      assert Stepping(net, start, mem, one.tapes, net.lossGrad(one.x, target, 1), p, 0);
    }
    assert mem.grads == map[];
    IsCentral(net, start, mem, [x], [target]);
  }

  lemma OnePass(net: Net, mem: Memory, x: Tensor)
    requires |mem.bufs| == net.n
    ensures var one := ForwardTo(net, mem.params, mem.bufs, mem.rng, x, net.n);
            Forwards(net, mem, [x], 1) == Passes([one.tapes], [one.x], one.bufs, one.rng)
  {
    assert Forwards(net, mem, [x], 0) == Passes([], [], mem.bufs, mem.rng);
  }

  lemma OneContribs(net: Net, f: Passes, target: Tensor, p: Param)
    requires |f.tapes| == |f.outs| == 1 && |f.tapes[0]| == net.n
    ensures AllContribs(net, f, [target], p, 1) == Contribs(net, f.tapes[0], net.lossGrad(f.outs[0], target, 1), p, 0)
  {
    assert AllContribs(net, f, [target], p, 0) == [];
  }

  // ── lemmas for the GPipe batch ───────────────────────────────────────────────

  lemma {:induction false} ForwardsTapes(net: Net, mem: Memory, xs: seq<Tensor>, k: nat, m: nat, i: nat)
    requires m < k <= |xs| && |mem.bufs| == net.n && i < net.n
    ensures Forwards(net, mem, xs, k).tapes[m][i].params == Restrict(mem.params, net.uses(i))
  {
    if m == k - 1 {
      var f := Forwards(net, mem, xs, k - 1);
      ForwardTapes(net, mem.params, f.bufs, f.rng, xs[m], net.n, i);
    } else {
      ForwardsTapes(net, mem, xs, k - 1, m, i);
    }
  }

  /** Where `p` stands when the slices below `i` have stepped on the gradients `full`. */
  ghost predicate StepsUpTo(net: Net, start: Memory, full: map<Param, Tensor>, mem: Memory, p: Param, i: nat)
    requires p in start.params && p in start.opt
  {
    && p in mem.params && p in mem.opt
    && if Owner(net, p) < i && p in full then
         && p !in mem.grads
         && (mem.params[p], mem.opt[p]) == net.step(p, start.params[p], start.opt[p], full[p])
       else
         && mem.params[p] == start.params[p] && mem.opt[p] == start.opt[p]
         && (p in mem.grads <==> p in full) && (p in full ==> mem.grads[p] == full[p])
  }

  lemma StepsOnce(net: Net, start: Memory, full: map<Param, Tensor>, before: Memory, p: Param, i: nat)
    requires p in start.params && p in start.opt && before.opt.Keys == before.params.Keys
    requires StepsUpTo(net, start, full, before, p, i) && Owner(net, p) < net.n
    ensures StepsUpTo(net, start, full, Step(net, before, Owned(net, i)), p, i + 1)
  {
  }

  ghost predicate AllStepsUpTo(net: Net, start: Memory, full: map<Param, Tensor>, mem: Memory, i: nat)
    requires start.opt.Keys == start.params.Keys
  {
    mem.params.Keys == start.params.Keys && forall p | p in start.params :: StepsUpTo(net, start, full, mem, p, i)
  }

  lemma AllStepsOnce(net: Net, start: Memory, full: map<Param, Tensor>, before: Memory, i: nat)
    requires WellFormed(net, start) && before.opt.Keys == before.params.Keys
    requires AllStepsUpTo(net, start, full, before, i)
    ensures AllStepsUpTo(net, start, full, Step(net, before, Owned(net, i)), i + 1)
  {
    forall p | p in start.params ensures StepsUpTo(net, start, full, Step(net, before, Owned(net, i)), p, i + 1) {
      StepsOnce(net, start, full, before, p, i);
    }
  }

  lemma AllSteppedIsCentral(net: Net, start: Memory, full: map<Param, Tensor>, mem: Memory, xs: seq<Tensor>,
                            ys: seq<Tensor>)
    requires WellFormed(net, start) && WellFormed(net, mem) && |xs| == |ys| > 0
    requires var f := Forwards(net, start, xs, |xs|);
      && mem.bufs == f.bufs && mem.rng == f.rng
      && (forall p | p in start.params :: Gathered(net, full, AllContribs(net, f, ys, p, |ys|), p))
      && AllStepsUpTo(net, start, full, mem, net.n)
    ensures mem == Central(net, start, xs, ys)
  {
    var f := Forwards(net, start, xs, |xs|);
    forall p | p in start.params
      ensures p !in mem.grads
      ensures (mem.params[p], mem.opt[p]) == After(net, start, p, AllContribs(net, f, ys, p, |ys|))
    {
      AllContribsNonEmpty(net, f, ys, p, Owner(net, p), |ys|);
    }
    assert mem.grads == map[];
    IsCentral(net, start, mem, xs, ys);
  }
}
