/** The layer-major schedule of the offload executor as a calculation: all micro-batches through one
    slice, then through the next; backwards slice by slice, each replayed. It is proved to add the
    same contributions as the uncut network, in the same order for one micro-batch and for a
    parameter of a single slice, in another order for a shared one. */
module LayerMajor {
  import opened Network
  import opened Wavefront

  // ── forward, a layer at a time ───────────────────────────────────────────────

  datatype Layer = Layer(tapes: seq<Tape>, ys: seq<Tensor>, buf: Tensor, rng: Tensor)

  /** The first `m` micro-batches through slice `i`. */
  function RunLayer(net: Net, i: nat, params: map<Param, Tensor>, buf: Tensor, rng: Tensor, xs: seq<Tensor>,
                    m: nat): (l: Layer)
    requires m <= |xs|
    ensures |l.tapes| == |l.ys| == m
  {
    if m == 0 then Layer([], [], buf, rng)
    else
      var l := RunLayer(net, i, params, buf, rng, xs, m - 1);
      var tape := Tape(params, l.buf, l.rng, xs[m - 1]);
      var out := net.run(i, tape);
      Layer(l.tapes + [tape], l.ys + [out.y], out.buf, out.rng)
  }

  /** All micro-batches through the first `k` slices: the tapes, the activations, buffers, RNG. */
  datatype Sweep = Sweep(tapes: seq<seq<Tape>>, xs: seq<Tensor>, bufs: seq<Tensor>, rng: Tensor)

  function SweepTo(net: Net, mem: Memory, xs: seq<Tensor>, k: nat): (s: Sweep)
    requires k <= net.n == |mem.bufs|
    ensures |s.tapes| == k && |s.xs| == |xs| && |s.bufs| == net.n
    ensures forall i | 0 <= i < k :: |s.tapes[i]| == |xs|
  {
    if k == 0 then Sweep([], xs, mem.bufs, mem.rng)
    else
      var s := SweepTo(net, mem, xs, k - 1);
      var l := RunLayer(net, k - 1, Restrict(mem.params, net.uses(k - 1)), s.bufs[k - 1], s.rng, s.xs, |xs|);
      Sweep(s.tapes + [l.tapes], l.ys, s.bufs[k - 1 := l.buf], l.rng)
  }

  // ── backward, a layer at a time ──────────────────────────────────────────────

  /** The gradients slice `i` sends down. */
  function LayerBack(net: Net, i: nat, tapes: seq<Tape>, gs: seq<Tensor>): (r: seq<Tensor>)
    requires |tapes| == |gs|
    ensures |r| == |gs| && forall m | 0 <= m < |gs| :: r[m] == net.vjpX(i, tapes[m], gs[m])
  {
    seq(|gs|, m requires 0 <= m < |gs| => net.vjpX(i, tapes[m], gs[m]))
  }

  /** The tapes of a whole sweep of `m` micro-batches. */
  predicate Swept(net: Net, tapes: seq<seq<Tape>>, gs: seq<Tensor>) {
    |tapes| == net.n && forall i | 0 <= i < net.n :: |tapes[i]| == |gs|
  }

  /** The gradients that reach the output of slice `k - 1`. */
  function BackTo(net: Net, tapes: seq<seq<Tape>>, gs: seq<Tensor>, k: nat): (r: seq<Tensor>)
    requires Swept(net, tapes, gs) && k <= net.n
    ensures |r| == |gs|
    decreases net.n - k
  {
    if k == net.n then gs else LayerBack(net, k, tapes[k], BackTo(net, tapes, gs, k + 1))
  }

  /** What the first `m` backwards through slice `i` add to `p`, in order. */
  function LayerAdds(net: Net, i: nat, tapes: seq<Tape>, gs: seq<Tensor>, p: Param, m: nat): (cs: seq<Tensor>)
    requires m <= |tapes| == |gs|
    ensures |cs| == m
  {
    if m == 0 then [] else LayerAdds(net, i, tapes, gs, p, m - 1) + [net.vjpP(i, tapes[m - 1], gs[m - 1], p)]
  }

  /** What the slices from `k` on add to `p`, in the order they do. */
  function Adds(net: Net, tapes: seq<seq<Tape>>, gs: seq<Tensor>, p: Param, k: nat): seq<Tensor>
    requires Swept(net, tapes, gs) && k <= net.n
    decreases net.n - k
  {
    if k == net.n then []
    else Adds(net, tapes, gs, p, k + 1) +
         if p in net.uses(k) then LayerAdds(net, k, tapes[k], BackTo(net, tapes, gs, k + 1), p, |gs|) else []
  }

  /** Gradients of the losses, each scaled by the number of micro-batches. */
  function LossGrads(net: Net, outs: seq<Tensor>, ys: seq<Tensor>): (gs: seq<Tensor>)
    requires |outs| == |ys|
    ensures |gs| == |ys| && forall m | 0 <= m < |ys| :: gs[m] == net.lossGrad(outs[m], ys[m], |ys|)
  {
    seq(|ys|, m requires 0 <= m < |ys| => net.lossGrad(outs[m], ys[m], |ys|))
  }

  /** One batch, a layer at a time: every parameter stepped once on everything the schedule adds to it,
      no gradient left. */
  ghost function LayerBatch(net: Net, start: Memory, xs: seq<Tensor>, ys: seq<Tensor>): Memory
    requires WellFormed(net, start) && |xs| == |ys| > 0
  {
    var s := SweepTo(net, start, xs, net.n);
    var gs := LossGrads(net, s.xs, ys);
    Memory(map p | p in start.params :: After(net, start, p, Adds(net, s.tapes, gs, p, 0)).0,
           map p | p in start.params :: After(net, start, p, Adds(net, s.tapes, gs, p, 0)).1,
           map[], s.bufs, s.rng)
  }

  lemma LayerWellFormed(net: Net, start: Memory, xs: seq<Tensor>, ys: seq<Tensor>)
    requires WellFormed(net, start) && |xs| == |ys| > 0
    ensures WellFormed(net, LayerBatch(net, start, xs, ys))
    ensures LayerBatch(net, start, xs, ys).params.Keys == start.params.Keys
  {
    hide SweepTo, Adds, After, FirstUser;
  }

  lemma {:induction false} AddsBelowOwner(net: Net, tapes: seq<seq<Tape>>, gs: seq<Tensor>, p: Param, k: nat)
    requires Swept(net, tapes, gs) && k <= net.n && forall j: nat | j < k :: p !in net.uses(j)
    ensures Adds(net, tapes, gs, p, 0) == Adds(net, tapes, gs, p, k)
  {
    if k > 0 {
      AddsBelowOwner(net, tapes, gs, p, k - 1);
      assert Adds(net, tapes, gs, p, k - 1) == Adds(net, tapes, gs, p, k) + [];
    }
  }

  lemma {:induction false} AddsAboveLast(net: Net, tapes: seq<seq<Tape>>, gs: seq<Tensor>, p: Param, k: nat)
    requires Swept(net, tapes, gs) && k <= net.n && Users(net, p, k) == []
    ensures Adds(net, tapes, gs, p, k) == []
    decreases net.n - k
  {
    if k < net.n { AddsAboveLast(net, tapes, gs, p, k + 1); }
  }

  // ── one micro-batch: the reference, whatever the slices draw ─────────────────

  lemma {:induction false} OneSweep(net: Net, mem: Memory, x: Tensor, k: nat)
    requires k <= net.n == |mem.bufs|
    ensures var s := SweepTo(net, mem, [x], k);
      var f := ForwardTo(net, mem.params, mem.bufs, mem.rng, x, k);
      && s.xs == [f.x] && s.bufs == f.bufs && s.rng == f.rng
      && forall i | 0 <= i < k :: s.tapes[i] == [f.tapes[i]]
  {
    if k > 0 {
      OneSweep(net, mem, x, k - 1);
      var s := SweepTo(net, mem, [x], k - 1);
      var params := Restrict(mem.params, net.uses(k - 1));
      assert RunLayer(net, k - 1, params, s.bufs[k - 1], s.rng, s.xs, 0) == Layer([], [], s.bufs[k - 1], s.rng);
    }
  }

  lemma {:induction false} OneBack(net: Net, tapes: seq<seq<Tape>>, row: seq<Tape>, g: Tensor, k: nat)
    requires Swept(net, tapes, [g]) && |row| == net.n && k <= net.n
    requires forall i | 0 <= i < net.n :: tapes[i] == [row[i]]
    ensures BackTo(net, tapes, [g], k) == [GradAt(net, row, g, k)]
    decreases net.n - k
  {
    if k < net.n { OneBack(net, tapes, row, g, k + 1); }
  }

  lemma {:induction false} OneAdds(net: Net, tapes: seq<seq<Tape>>, row: seq<Tape>, g: Tensor, p: Param, k: nat)
    requires Swept(net, tapes, [g]) && |row| == net.n && k <= net.n
    requires forall i | 0 <= i < net.n :: tapes[i] == [row[i]]
    ensures Adds(net, tapes, [g], p, k) == Contribs(net, row, g, p, k)
    decreases net.n - k
  {
    if k < net.n {
      OneAdds(net, tapes, row, g, p, k + 1);
      OneBack(net, tapes, row, g, k + 1);
      var gs := BackTo(net, tapes, [g], k + 1);
      assert LayerAdds(net, k, tapes[k], gs, p, 0) == [];
      assert LayerAdds(net, k, tapes[k], gs, p, 1) == [net.vjpP(k, row[k], gs[0], p)];
    }
  }

  // ── many micro-batches: the grid, for slices that draw nothing ───────────────

  lemma CellIs(net: Net, mem: Memory, xs: seq<Tensor>, m: nat, i: nat)
    requires m < |xs| && i < net.n == |mem.bufs|
    ensures var cell := Cell(net, mem, xs, m, i);
      && cell == Tape(Restrict(mem.params, net.uses(i)), BufAt(net, mem, xs, m, i), mem.rng, cell.x)
      && net.run(i, cell).buf == BufAt(net, mem, xs, m + 1, i) && net.run(i, cell).y == Output(net, mem, xs, m, i)
  {
  }

  lemma {:induction false} LayerIsColumn(net: Net, mem: Memory, xs: seq<Tensor>, ins: seq<Tensor>, i: nat, m: nat)
    requires Quiet(net) && m <= |xs| == |ins| && i < net.n == |mem.bufs|
    requires forall j: nat | j < |xs| :: ins[j] == Cell(net, mem, xs, j, i).x
    ensures var l := RunLayer(net, i, Restrict(mem.params, net.uses(i)), mem.bufs[i], mem.rng, ins, m);
      && l.rng == mem.rng && l.buf == BufAt(net, mem, xs, m, i)
      && forall j: nat | j < m :: l.tapes[j] == Cell(net, mem, xs, j, i) && l.ys[j] == Output(net, mem, xs, j, i)
  {
    hide Cell, Output;
    if m > 0 {
      LayerIsColumn(net, mem, xs, ins, i, m - 1);
      CellIs(net, mem, xs, m - 1, i);
    }
  }

  lemma {:induction false} SweepIsGrid(net: Net, mem: Memory, xs: seq<Tensor>, k: nat)
    requires Quiet(net) && k <= net.n == |mem.bufs|
    ensures var s := SweepTo(net, mem, xs, k);
      && s.rng == mem.rng
      && (forall i: nat | i < net.n :: s.bufs[i] == if i < k then BufAt(net, mem, xs, |xs|, i) else mem.bufs[i])
      && (forall i: nat, m: nat | i < k && m < |xs| :: s.tapes[i][m] == Cell(net, mem, xs, m, i))
      && (forall m: nat | m < |xs| :: s.xs[m] == if k == 0 then xs[m] else Output(net, mem, xs, m, k - 1))
  {
    if k > 0 {
      SweepIsGrid(net, mem, xs, k - 1);
      var s := SweepTo(net, mem, xs, k - 1);
      forall m: nat | m < |xs| ensures s.xs[m] == Cell(net, mem, xs, m, k - 1).x { }
      hide Cell, Output, BufAt;
      LayerIsColumn(net, mem, xs, s.xs, k - 1, |xs|);
    }
  }

  /** The tapes and the loss gradients are those of the grid. */
  ghost predicate OnGrid(net: Net, mem: Memory, xs: seq<Tensor>, ys: seq<Tensor>, tapes: seq<seq<Tape>>,
                         gs: seq<Tensor>)
    requires net.n == |mem.bufs|
  {
    && 0 < |xs| == |ys| == |gs| && net.n > 0 && Swept(net, tapes, gs)
    && (forall i: nat, m: nat | i < net.n && m < |xs| :: tapes[i][m] == Cell(net, mem, xs, m, i))
    && (forall m: nat | m < |xs| :: gs[m] == GradIn(net, mem, xs, ys, m, net.n))
  }

  lemma {:induction false} BackIsGrid(net: Net, mem: Memory, xs: seq<Tensor>, ys: seq<Tensor>, tapes: seq<seq<Tape>>,
                                      gs: seq<Tensor>, k: nat)
    requires net.n == |mem.bufs| && OnGrid(net, mem, xs, ys, tapes, gs) && k <= net.n
    ensures forall m: nat | m < |xs| :: BackTo(net, tapes, gs, k)[m] == GradIn(net, mem, xs, ys, m, k)
    decreases net.n - k
  {
    hide Cell;
    if k < net.n { BackIsGrid(net, mem, xs, ys, tapes, gs, k + 1); }
  }

  lemma {:induction false} LayerAddsSum(net: Net, mem: Memory, xs: seq<Tensor>, ys: seq<Tensor>, tapes: seq<seq<Tape>>,
                                        gs: seq<Tensor>, i: nat, p: Param, m: nat)
    requires net.n == |mem.bufs| && OnGrid(net, mem, xs, ys, tapes, gs) && i < net.n && 0 < m <= |xs|
    ensures Acc(net, LayerAdds(net, i, tapes[i], BackTo(net, tapes, gs, i + 1), p, m)) ==
        LocalGrad(net, mem, xs, ys, m, i, p)
  {
    hide Cell, GradIn;
    var back := BackTo(net, tapes, gs, i + 1);
    BackIsGrid(net, mem, xs, ys, tapes, gs, i + 1);
    AccSnoc(net, LayerAdds(net, i, tapes[i], back, p, m - 1), net.vjpP(i, tapes[i][m - 1], back[m - 1], p));
    if m > 1 {
      LayerAddsSum(net, mem, xs, ys, tapes, gs, i, p, m - 1);
    } else {
      assert LayerAdds(net, i, tapes[i], back, p, 0) == [];
    }
  }

  /** A parameter of one slice: the same sum in the same order, for any `add`. */
  lemma UntiedAdds(net: Net, mem: Memory, xs: seq<Tensor>, ys: seq<Tensor>, tapes: seq<seq<Tape>>, gs: seq<Tensor>,
                   p: Param)
    requires net.n == |mem.bufs| && OnGrid(net, mem, xs, ys, tapes, gs) && Untied(net, p)
    ensures Adds(net, tapes, gs, p, 0) != [] && GridContribs(net, mem, xs, ys, p, |xs|) != []
    ensures Acc(net, Adds(net, tapes, gs, p, 0)) == Acc(net, GridContribs(net, mem, xs, ys, p, |xs|))
  {
    hide Cell, OnGrid, GridContribs, LocalGrad;
    var o := Owner(net, p);
    assert Swept(net, tapes, gs) && 0 < |xs| == |ys| == |gs| by { OnGridFacts(net, mem, xs, ys, tapes, gs); }
    AddsBelowOwner(net, tapes, gs, p, o);
    AddsAboveLast(net, tapes, gs, p, o + 1);
    var col := LayerAdds(net, o, tapes[o], BackTo(net, tapes, gs, o + 1), p, |gs|);
    assert Adds(net, tapes, gs, p, o) == [] + col;
    assert [] + col == col;
    LayerAddsSum(net, mem, xs, ys, tapes, gs, o, p, |xs|);
    UntiedSameGrad(net, mem, xs, ys, p, |xs|);
  }

  lemma OnGridFacts(net: Net, mem: Memory, xs: seq<Tensor>, ys: seq<Tensor>, tapes: seq<seq<Tape>>, gs: seq<Tensor>)
    requires net.n == |mem.bufs| && OnGrid(net, mem, xs, ys, tapes, gs)
    ensures Swept(net, tapes, gs) && 0 < |xs| == |ys| == |gs|
  {
  }

  /** One more column of contributions against one more per-slice sum. */
  lemma AddColumn(net: Net, adds: seq<Tensor>, sums: seq<Tensor>, col: seq<Tensor>, sum: Tensor)
    requires Commutes(net) && (adds == []) == (sums == []) && (adds != [] ==> Acc(net, adds) == Acc(net, sums))
    requires col != [] && Acc(net, col) == sum
    ensures Acc(net, adds + col) == Acc(net, sums + [sum])
  {
    hide Commutes;
    AccSnoc(net, sums, sum);
    if adds == [] {
      assert [] + col == col;
    } else {
      AccConcat(net, adds, col);
    }
  }

  /** A shared parameter: slice by slice instead of micro-batch by micro-batch, the same sum when
      the order does not matter. */
  lemma {:induction false} SharedAdds(net: Net, mem: Memory, xs: seq<Tensor>, ys: seq<Tensor>, tapes: seq<seq<Tape>>,
                                      gs: seq<Tensor>, p: Param, k: nat)
    requires net.n == |mem.bufs| && OnGrid(net, mem, xs, ys, tapes, gs) && Commutes(net) && k <= net.n
    ensures (Adds(net, tapes, gs, p, k) == []) == (Users(net, p, k) == [])
    ensures Users(net, p, k) != [] ==>
            Acc(net, Adds(net, tapes, gs, p, k)) == Acc(net, GradsOf(net, mem, xs, ys, Users(net, p, k), p))
    decreases net.n - k
  {
    hide Cell, OnGrid, Commutes, LocalGrad, Acc, LayerAdds, BackTo, FirstUser;
    OnGridFacts(net, mem, xs, ys, tapes, gs);
    if k < net.n {
      SharedAdds(net, mem, xs, ys, tapes, gs, p, k + 1);
      var us := Users(net, p, k + 1);
      if p in net.uses(k) {
        var col := LayerAdds(net, k, tapes[k], BackTo(net, tapes, gs, k + 1), p, |gs|);
        LayerAddsSum(net, mem, xs, ys, tapes, gs, k, p, |xs|);
        assert (us + [k])[..|us|] == us;
        AddColumn(net, Adds(net, tapes, gs, p, k + 1), GradsOf(net, mem, xs, ys, us, p), col,
                  LocalGrad(net, mem, xs, ys, |xs|, k, p));
      } else {
        assert Adds(net, tapes, gs, p, k + 1) + [] == Adds(net, tapes, gs, p, k + 1);
        assert us + [] == us;
      }
    }
  }

  /** A parameter gets the same sum as in the uncut network. */
  lemma SameSum(net: Net, mem: Memory, xs: seq<Tensor>, ys: seq<Tensor>, tapes: seq<seq<Tape>>, gs: seq<Tensor>,
                p: Param)
    requires net.n == |mem.bufs| && OnGrid(net, mem, xs, ys, tapes, gs) && Owner(net, p) < net.n
    requires Commutes(net) || Untied(net, p)
    ensures Adds(net, tapes, gs, p, 0) != [] && GridContribs(net, mem, xs, ys, p, |xs|) != []
    ensures Acc(net, Adds(net, tapes, gs, p, 0)) == Acc(net, GridContribs(net, mem, xs, ys, p, |xs|))
  {
    hide Cell, OnGrid, Commutes, LocalGrad, GridContribs, Acc, Adds;
    if Untied(net, p) {
      UntiedAdds(net, mem, xs, ys, tapes, gs, p);
    } else {
      OnGridFacts(net, mem, xs, ys, tapes, gs);
      UsersFrom(net, p, 0);
      SharedAdds(net, mem, xs, ys, tapes, gs, p, 0);
      SumByRowsIsSumBySlices(net, mem, xs, ys, p, |xs|);
      WholePrefix(net, mem, xs, ys, Users(net, p, 0), p);
    }
  }
}
