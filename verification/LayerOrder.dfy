/** Where shared parameters depend on the order of a sum in the out-of-core schedule: it adds their
    gradients slice by slice, the uncut network micro-batch by micro-batch. */
module LayerOrder {
  import opened Network
  import opened Wavefront
  import opened LayerMajor
  import opened TiedOrder
  import OffloadExecutor

  // ── what the schedule adds to the parameter of a pair ────────────────────────

  lemma PairOnGrid(add: Add, f: Gradients, xs: seq<Tensor>, ys: seq<Tensor>)
    requires 0 < |xs| == |ys|
    ensures var net := Pair(add, f);
      var s := SweepTo(net, START, xs, 2);
      && net.n == 2 && Owner(net, 0) == 0 && WellFormed(net, START)
      && OnGrid(net, START, xs, ys, s.tapes, LossGrads(net, s.xs, ys))
  {
    PairUsers(add, f);
    hide Quiet, SweepTo, OnGrid, WellFormed;
    OffloadExecutor.SweepOnGrid(Pair(add, f), START, xs, ys);
  }

  lemma {:induction false} LayerIsColumnOf(add: Add, f: Gradients, xs: seq<Tensor>, ys: seq<Tensor>,
                                           tapes: seq<seq<Tape>>, gs: seq<Tensor>, i: nat, m: nat)
    requires 0 < |xs| == |ys| && i < 2 && m <= |xs| && OnGrid(Pair(add, f), START, xs, ys, tapes, gs)
    ensures LayerAdds(Pair(add, f), i, tapes[i], BackTo(Pair(add, f), tapes, gs, i + 1), 0, m) == Column(f, i, xs, m)
  {
    hide Cell, BackTo;
    if m > 0 {
      LayerIsColumnOf(add, f, xs, ys, tapes, gs, i, m - 1);
      PairCell(add, f, xs, m - 1, i);
      assert tapes[i][m - 1] == Cell(Pair(add, f), START, xs, m - 1, i);
    }
  }

  /** All of slice 1's gradients, then all of slice 0's. */
  lemma AddsAreColumns(add: Add, f: Gradients, xs: seq<Tensor>, ys: seq<Tensor>, tapes: seq<seq<Tape>>, gs: seq<Tensor>)
    requires 0 < |xs| == |ys| && OnGrid(Pair(add, f), START, xs, ys, tapes, gs)
    ensures Swept(Pair(add, f), tapes, gs)
    ensures Adds(Pair(add, f), tapes, gs, 0, 0) == Column(f, 1, xs, |xs|) + Column(f, 0, xs, |xs|)
  {
    var net := Pair(add, f);
    LayerIsColumnOf(add, f, xs, ys, tapes, gs, 0, |xs|);
    LayerIsColumnOf(add, f, xs, ys, tapes, gs, 1, |xs|);
    OnGridFacts(net, START, xs, ys, tapes, gs);
    TwoLayers(net, tapes, gs);
  }

  lemma TwoLayers(net: Net, tapes: seq<seq<Tape>>, gs: seq<Tensor>)
    requires Swept(net, tapes, gs) && net.n == 2 && forall i: nat :: 0 in net.uses(i)
    ensures Adds(net, tapes, gs, 0, 0) == LayerAdds(net, 1, tapes[1], BackTo(net, tapes, gs, 2), 0, |gs|)
                                        + LayerAdds(net, 0, tapes[0], BackTo(net, tapes, gs, 1), 0, |gs|)
  {
    hide LayerAdds, BackTo;
    assert Adds(net, tapes, gs, 0, 2) == [];
    var col := LayerAdds(net, 1, tapes[1], BackTo(net, tapes, gs, 2), 0, |gs|);
    assert Adds(net, tapes, gs, 0, 1) == [] + col;
    assert [] + col == col;
  }

  /** The parameter after a batch of the schedule. */
  lemma LayerTotals(add: Add, f: Gradients, xs: seq<Tensor>, ys: seq<Tensor>)
    requires 0 < |xs| == |ys|
    ensures var net := Pair(add, f);
      && WellFormed(net, START)
      && LayerBatch(net, START, xs, ys).params == map[0 := Acc(net, Column(f, 1, xs, |xs|) + Column(f, 0, xs, |xs|))]
  {
    assert |START.bufs| == 2;
    PairOnGrid(add, f, xs, ys);
    LayerSteps(add, f, xs, ys);
    hide *;
    var net := Pair(add, f);
    var s := SweepTo(net, START, xs, 2);
    AddsAreColumns(add, f, xs, ys, s.tapes, LossGrads(net, s.xs, ys));
  }

  lemma LayerSteps(add: Add, f: Gradients, xs: seq<Tensor>, ys: seq<Tensor>)
    requires 0 < |xs| == |ys| && WellFormed(Pair(add, f), START)
    ensures var net := Pair(add, f);
      var s := SweepTo(net, START, xs, 2);
      var cs := Adds(net, s.tapes, LossGrads(net, s.xs, ys), 0, 0);
      cs != [] ==> LayerBatch(net, START, xs, ys).params == map[0 := Acc(net, cs)]
  {
    hide SweepTo, Adds, Acc, WellFormed, LossGrads;
  }

  // ── when it agrees with the uncut network ────────────────────────────────────

  ghost predicate LayerAgree(add: Add, f: Gradients, xs: seq<Tensor>, ys: seq<Tensor>)
    requires 0 < |xs| == |ys|
  {
    PairUsers(add, f);
    LayerBatch(Pair(add, f), START, xs, ys).params == Central(Pair(add, f), START, xs, ys).params
  }

  lemma LayerAgreeIff(add: Add, f: Gradients, xs: seq<Tensor>, ys: seq<Tensor>)
    requires 0 < |xs| == |ys|
    ensures var net := Pair(add, f);
      LayerAgree(add, f, xs, ys) <==>
      Acc(net, Column(f, 1, xs, |xs|) + Column(f, 0, xs, |xs|)) == Acc(net, Rows(f, xs, |xs|))
  {
    LayerTotals(add, f, xs, ys);
    PairTotals(add, f, xs, ys);
    hide Central, LayerBatch, Synced, Pair, Rows, Column;
    var net := Pair(add, f);
    var s, c := Acc(net, Column(f, 1, xs, |xs|) + Column(f, 0, xs, |xs|)), Acc(net, Rows(f, xs, |xs|));
    assert map[0 := s][0] == s && map[0 := c][0] == c;
  }

  lemma LayerAgreesAlways(add: Add, f: Gradients, xs: seq<Tensor>, ys: seq<Tensor>)
    requires AnyOrder(add) && 0 < |xs| == |ys|
    ensures LayerAgree(add, f, xs, ys)
  {
    var net := Pair(add, f);
    assert net.n == 2 == |START.bufs|;
    hide *;
    AnyOrderCommutes(add, f);
    PairOnGrid(add, f, xs, ys);
    var s := SweepTo(net, START, xs, 2);
    AddsAreColumns(add, f, xs, ys, s.tapes, LossGrads(net, s.xs, ys));
    SameSum(net, START, xs, ys, s.tapes, LossGrads(net, s.xs, ys), 0);
    GridIsRows(add, f, xs, ys, |xs|);
    LayerAgreeIff(add, f, xs, ys);
  }

  lemma {:induction false} CornerColumns(add: Add, c: Corner, k: nat, m: nat)
    requires 2 <= m <= k && forall a :: Zero(add, c.zero, a)
    ensures var f := c.Given();
      Acc(Pair(add, f), Column(f, 1, Spread(k), k) + Column(f, 0, Spread(k), m)) ==
        add(add(add(c.b0, c.b1), c.a0), c.a1)
  {
    var f, xs := c.Given(), Spread(k);
    var net := Pair(add, f);
    var top := Column(f, 1, xs, k);
    CornerColumn(add, c, k, 1, k);
    ColumnNext(net, f, top, xs, m);
    if m > 2 {
      CornerColumns(add, c, k, m - 1);
      assert Zero(add, c.zero, add(add(add(c.b0, c.b1), c.a0), c.a1));
    } else {
      ColumnNext(net, f, top, xs, 1);
      assert top + Column(f, 0, xs, 0) == top;
    }
  }

  lemma ColumnNext(net: Net, f: Gradients, top: seq<Tensor>, xs: seq<Tensor>, m: nat)
    requires 0 < m <= |xs| && top != []
    ensures Acc(net, top + Column(f, 0, xs, m)) == net.add(Acc(net, top + Column(f, 0, xs, m - 1)), f(0, xs[m - 1]))
  {
    AccSnoc(net, top + Column(f, 0, xs, m - 1), f(0, xs[m - 1]));
    assert top + Column(f, 0, xs, m) == (top + Column(f, 0, xs, m - 1)) + [f(0, xs[m - 1])];
  }

  lemma LayerCorner(add: Add, c: Corner, k: nat)
    requires 2 <= k && forall a :: Zero(add, c.zero, a)
    ensures LayerAgree(add, c.Given(), Spread(k), Spread(k)) <==>
      add(add(add(c.b0, c.b1), c.a0), c.a1) == add(add(add(c.b0, c.a0), c.b1), c.a1)
  {
    LayerAgreeIff(add, c.Given(), Spread(k), Spread(k));
    hide LayerAgree, Rows, Column, Acc, Pair, Zero;
    CornerColumns(add, c, k, k);
    CornerRows(add, c, k, k);
  }

  /** For every sum with a zero and any number of micro-batches but one, the schedule leaves every pair
      of slices the parameter the uncut network leaves, if and only if the sum is commutative and
      associative. With one micro-batch it always does (`OffloadExecutor.OneMicroBatch`). */
  lemma LayerIff(add: Add, zero: Tensor, k: nat)
    requires 2 <= k && forall a :: Zero(add, zero, a)
    ensures (forall f: Gradients, xs, ys | |xs| == |ys| == k :: LayerAgree(add, f, xs, ys)) <==> AnyOrder(add)
  {
    hide LayerAgree, Zero, AnyOrder;
    if AnyOrder(add) {
      forall f: Gradients, xs, ys | |xs| == |ys| == k ensures LayerAgree(add, f, xs, ys) {
        LayerAgreesAlways(add, f, xs, ys);
      }
    }
    if forall f: Gradients, xs, ys | |xs| == |ys| == k :: LayerAgree(add, f, xs, ys) {
      AnyOrderIfLayersAgree(add, zero, k);
    }
  }

  ghost predicate LayersAgree(add: Add, k: nat)
    requires 0 < k
  {
    forall f: Gradients, xs, ys | |xs| == |ys| == k :: LayerAgree(add, f, xs, ys)
  }

  lemma AnyOrderIfLayersAgree(add: Add, zero: Tensor, k: nat)
    requires 2 <= k && (forall a :: Zero(add, zero, a)) && LayersAgree(add, k)
    ensures AnyOrder(add)
  {
    hide LayersAgree, Zero;
    forall a, b ensures Swap(add, a, b) { SwapsIfLayersAgree(add, zero, k, a, b); }
    forall a, b, c ensures Regroup(add, a, b, c) { RegroupsIfLayersAgree(add, zero, k, a, b, c); }
  }

  lemma SwapsIfLayersAgree(add: Add, zero: Tensor, k: nat, a: Tensor, b: Tensor)
    requires 2 <= k && (forall a :: Zero(add, zero, a)) && LayersAgree(add, k)
    ensures add(a, b) == add(b, a)
  {
    hide LayerAgree;
    LayerCorner(add, Corner(b, zero, zero, a, zero), k);
    assert Zero(add, zero, a) && Zero(add, zero, b) && Zero(add, zero, add(a, b)) && Zero(add, zero, add(b, a));
  }

  lemma RegroupsIfLayersAgree(add: Add, zero: Tensor, k: nat, a: Tensor, b: Tensor, c: Tensor)
    requires 2 <= k && (forall a :: Zero(add, zero, a)) && LayersAgree(add, k)
    ensures add(add(a, b), c) == add(a, add(b, c))
  {
    hide LayerAgree;
    LayerCorner(add, Corner(c, b, zero, a, zero), k);
    assert Zero(add, zero, add(add(b, a), c)) && Zero(add, zero, add(add(b, c), a));
    SwapsIfLayersAgree(add, zero, k, a, b);
    SwapsIfLayersAgree(add, zero, k, a, add(b, c));
  }

  // ── a sum for which it does not ──────────────────────────────────────────────

  /** Twice the sum of what is not zero: commutative, with a zero, not associative. */
  const SKEWED: Add := (a: Tensor, b: Tensor) => if a == 0 then b else if b == 0 then a else 2 * (a + b)

  /** The pair with that `add`; slice 1 adds ones and slice 0 twos. */
  const STEPS: Net := Pair(SKEWED, (i: nat, x: Tensor) => if i == 1 then 1 else 2)

  /** On two micro-batches the schedule steps the shared parameter on 28 and the uncut network on 32. */
  lemma LayersDiffer()
    ensures Swaps(STEPS) && Quiet(STEPS) && OffloadExecutor.ZeroUnit(STEPS) && WellFormed(STEPS, START)
    ensures LayerBatch(STEPS, START, [0, 0], [0, 0]).params == map[0 := 28]
    ensures Central(STEPS, START, [0, 0], [0, 0]).params == map[0 := 32]
  {
    var f: Gradients := (i: nat, x: Tensor) => if i == 1 then 1 else 2;
    var net := Pair(SKEWED, f);
    assert net == STEPS;
    assert Swaps(net) && OffloadExecutor.ZeroUnit(net);
    hide *;
    PairTotals(SKEWED, f, [0, 0], [0, 0]);
    LayerTotals(SKEWED, f, [0, 0], [0, 0]);
    PairUsers(SKEWED, f);
    TwoSteps(net, f);
  }

  lemma TwoSteps(net: Net, f: Gradients)
    requires f == ((i: nat, x: Tensor) => if i == 1 then 1 else 2) && net == Pair(SKEWED, f)
    ensures Acc(net, Column(f, 1, [0, 0], 2) + Column(f, 0, [0, 0], 2)) == 28
    ensures Acc(net, Rows(f, [0, 0], 2)) == 32
  {
    assert Column(f, 1, [0, 0], 1) == [1] && Column(f, 0, [0, 0], 1) == [2];
    AccSnoc(net, [1], 1);
    AccSnoc(net, [1] + [1], 2);
    AccSnoc(net, [1] + [1] + [2], 2);
    assert Column(f, 1, [0, 0], 2) + Column(f, 0, [0, 0], 2) == [1] + [1] + [2] + [2];
    OpeningRow(net, f, [0, 0]);
    AccSnoc(net, [1, 2], 1);
    AccSnoc(net, [1, 2] + [1], 2);
    assert Rows(f, [0, 0], 2) == [1, 2] + [1] + [2];
  }
}
