/** Where tied parameters do depend on the order of a sum: two slices that share one parameter, with
    any `add` and any gradients. */
module TiedOrder {
  import opened Network
  import opened Wavefront

  type Add = (Tensor, Tensor) -> Tensor

  /** What each slice adds for an input. */
  type Gradients = (nat, Tensor) -> Tensor

  /** Two slices, one shared parameter; a step replaces the value by the gradient. */
  function Pair(add: Add, f: Gradients): Net {
    Net(2, (i: nat) => {0},
        (i: nat, t: Tape) => Out(t.x, t.buf, t.rng),
        (i: nat, t: Tape, g: Tensor) => g,
        (i: nat, t: Tape, g: Tensor, p: Param) => f(i, t.x),
        (out: Tensor, y: Tensor, k: nat) => 1,
        (out: Tensor, y: Tensor) => 0,
        (a: Tensor, b: Tensor) => a + b,
        add,
        (p: Param, v: Tensor, o: Tensor, g: Tensor) => (g, o))
  }

  const START := Memory(map[0 := 0], map[0 := 0], map[], [0, 0], 0)

  lemma PairUsers(add: Add, f: Gradients)
    ensures var net := Pair(add, f);
      && Owner(net, 0) == 0 && Users(net, 0, 1) == [1] && Users(net, 0, 0) == [1, 0]
      && WellFormed(net, START) && Quiet(net)
  {
    var net := Pair(add, f);
    assert Users(net, 0, 2) == [];
    assert Users(net, 0, 1) == [1];
  }

  lemma {:induction false} PairCell(add: Add, f: Gradients, xs: seq<Tensor>, m: nat, i: nat)
    requires m < |xs| && i < 2
    ensures Cell(Pair(add, f), START, xs, m, i).x == xs[m]
  {
    if i > 0 { PairCell(add, f, xs, m, i - 1); }
  }

  lemma PairContrib(add: Add, f: Gradients, xs: seq<Tensor>, ys: seq<Tensor>, m: nat, i: nat)
    requires m < |xs| == |ys| && i < 2
    ensures Contrib(Pair(add, f), START, xs, ys, m, i, 0) == f(i, xs[m])
  {
    PairCell(add, f, xs, m, i);
    hide Cell, GradIn;
  }

  /** What both executors leave of the parameter is the gradient they stepped it on. */
  lemma CentralSteps(add: Add, f: Gradients, xs: seq<Tensor>, ys: seq<Tensor>)
    requires 0 < |xs| == |ys| && WellFormed(Pair(add, f), START)
    requires var net := Pair(add, f); AllContribs(net, Forwards(net, START, xs, |xs|), ys, 0, |ys|) != []
    ensures var net := Pair(add, f);
      Central(net, START, xs, ys).params ==
        map[0 := Acc(net, AllContribs(net, Forwards(net, START, xs, |xs|), ys, 0, |ys|))]
  {
    hide AllContribs, Forwards, Acc, WellFormed;
  }

  lemma SyncedSteps(add: Add, f: Gradients, xs: seq<Tensor>, ys: seq<Tensor>)
    requires 0 < |xs| == |ys| && WellFormed(Pair(add, f), START) && Owner(Pair(add, f), 0) < 2
    ensures var net := Pair(add, f);
      Synced(net, START, xs, ys).params == map[0 := SyncedGrad(net, START, xs, ys, 0)]
  {
    hide SyncedGrad, WellFormed, Owner, FirstUser;
  }

  lemma PairSteps(add: Add, f: Gradients, xs: seq<Tensor>, ys: seq<Tensor>)
    requires 0 < |xs| == |ys|
    ensures var net := Pair(add, f);
      && WellFormed(net, START) && Owner(net, 0) == 0 && GridContribs(net, START, xs, ys, 0, |xs|) != []
      && Central(net, START, xs, ys).params == map[0 := Acc(net, GridContribs(net, START, xs, ys, 0, |xs|))]
      && Synced(net, START, xs, ys).params == map[0 := SyncedGrad(net, START, xs, ys, 0)]
  {
    var net := Pair(add, f);
    PairUsers(add, f);
    PairRow(add, f, xs, ys, |xs| - 1);
    NotEmpty(net, xs, ys);
    hide *;
    ContribsAreGrid(net, START, xs, ys, 0, |xs|);
    CentralSteps(add, f, xs, ys);
    SyncedSteps(add, f, xs, ys);
  }

  lemma NotEmpty(net: Net, xs: seq<Tensor>, ys: seq<Tensor>)
    requires 0 < |xs| == |ys| && net.n == 2 && RowContribs(net, START, xs, ys, Users(net, 0, 0), |xs| - 1, 0) != []
    ensures GridContribs(net, START, xs, ys, 0, |xs|) != []
  {
    hide RowContribs, Users;
  }

  lemma PairRow(add: Add, f: Gradients, xs: seq<Tensor>, ys: seq<Tensor>, m: nat)
    requires m < |xs| == |ys|
    ensures RowContribs(Pair(add, f), START, xs, ys, Users(Pair(add, f), 0, 0), m, 0) == [f(1, xs[m]), f(0, xs[m])]
  {
    var net := Pair(add, f);
    PairUsers(add, f);
    PairContrib(add, f, xs, ys, m, 0);
    PairContrib(add, f, xs, ys, m, 1);
    hide Contrib, Users;
    assert [1, 0][..1] == [1] && [1][..0] == [];
  }

  // ── the sums, written out ────────────────────────────────────────────────────

  /** What reaches the parameter micro-batch by micro-batch, slice 1 before slice 0. */
  function Rows(f: Gradients, xs: seq<Tensor>, m: nat): (cs: seq<Tensor>)
    requires m <= |xs|
    ensures |cs| == 2 * m
  {
    if m == 0 then [] else Rows(f, xs, m - 1) + [f(1, xs[m - 1]), f(0, xs[m - 1])]
  }

  /** What slice `i` alone adds. */
  function Column(f: Gradients, i: nat, xs: seq<Tensor>, m: nat): (cs: seq<Tensor>)
    requires m <= |xs|
    ensures |cs| == m
  {
    if m == 0 then [] else Column(f, i, xs, m - 1) + [f(i, xs[m - 1])]
  }

  lemma {:induction false} GridIsRows(add: Add, f: Gradients, xs: seq<Tensor>, ys: seq<Tensor>, m: nat)
    requires m <= |xs| == |ys|
    ensures GridContribs(Pair(add, f), START, xs, ys, 0, m) == Rows(f, xs, m)
  {
    hide RowContribs, Users;
    if m > 0 {
      GridIsRows(add, f, xs, ys, m - 1);
      PairRow(add, f, xs, ys, m - 1);
    }
  }

  lemma {:induction false} LocalIsColumn(add: Add, f: Gradients, xs: seq<Tensor>, ys: seq<Tensor>, i: nat, m: nat)
    requires 0 < m <= |xs| == |ys| && i < 2
    ensures LocalGrad(Pair(add, f), START, xs, ys, m, i, 0) == Acc(Pair(add, f), Column(f, i, xs, m))
  {
    hide Contrib, Acc;
    PairContrib(add, f, xs, ys, m - 1, i);
    AccSnoc(Pair(add, f), Column(f, i, xs, m - 1), f(i, xs[m - 1]));
    if m > 1 { LocalIsColumn(add, f, xs, ys, i, m - 1); }
  }

  /** The parameter after a batch: in the uncut network, and at the workers. */
  lemma PairTotals(add: Add, f: Gradients, xs: seq<Tensor>, ys: seq<Tensor>)
    requires 0 < |xs| == |ys|
    ensures var net := Pair(add, f);
      && WellFormed(net, START)
      && Central(net, START, xs, ys).params == map[0 := Acc(net, Rows(f, xs, |xs|))]
      && Synced(net, START, xs, ys).params
         == map[0 := add(Acc(net, Column(f, 0, xs, |xs|)), Acc(net, Column(f, 1, xs, |xs|)))]
  {
    var net := Pair(add, f);
    hide *;
    PairSteps(add, f, xs, ys);
    GridIsRows(add, f, xs, ys, |xs|);
    PairSynced(add, f, xs, ys);
  }

  lemma PairSynced(add: Add, f: Gradients, xs: seq<Tensor>, ys: seq<Tensor>)
    requires 0 < |xs| == |ys|
    ensures var net := Pair(add, f);
      && Owner(net, 0) == 0 < net.n
      && SyncedGrad(net, START, xs, ys, 0) == add(Acc(net, Column(f, 0, xs, |xs|)), Acc(net, Column(f, 1, xs, |xs|)))
  {
    var net := Pair(add, f);
    PairUsers(add, f);
    hide FirstUser, Users, LocalGrad, Column, WellFormed, Quiet;
    LocalIsColumn(add, f, xs, ys, 0, |xs|);
    LocalIsColumn(add, f, xs, ys, 1, |xs|);
    OneReplica(net, xs, ys);
  }

  lemma OneReplica(net: Net, xs: seq<Tensor>, ys: seq<Tensor>)
    requires 0 < |xs| == |ys| && net.n == 2
    ensures GradsOf(net, START, xs, ys, [1], 0) == [LocalGrad(net, START, xs, ys, |xs|, 1, 0)]
    ensures Acc(net, GradsOf(net, START, xs, ys, [1], 0)) == LocalGrad(net, START, xs, ys, |xs|, 1, 0)
  {
    hide LocalGrad;
    assert [1][..0] == [];
  }

  // ── when the workers agree with the uncut network ────────────────────────────

  ghost predicate Agree(add: Add, f: Gradients, xs: seq<Tensor>, ys: seq<Tensor>)
    requires 0 < |xs| == |ys|
  {
    PairUsers(add, f);
    Synced(Pair(add, f), START, xs, ys).params == Central(Pair(add, f), START, xs, ys).params
  }

  lemma AgreeIff(add: Add, f: Gradients, xs: seq<Tensor>, ys: seq<Tensor>)
    requires 0 < |xs| == |ys|
    ensures var net := Pair(add, f);
      Agree(add, f, xs, ys) <==>
      add(Acc(net, Column(f, 0, xs, |xs|)), Acc(net, Column(f, 1, xs, |xs|))) == Acc(net, Rows(f, xs, |xs|))
  {
    PairTotals(add, f, xs, ys);
    hide Central, Synced, Pair, Rows, Column;
    var net := Pair(add, f);
    var s := add(Acc(net, Column(f, 0, xs, |xs|)), Acc(net, Column(f, 1, xs, |xs|)));
    var c := Acc(net, Rows(f, xs, |xs|));
    assert map[0 := s][0] == s && map[0 := c][0] == c;
  }

  /** A commutative `add` is what one micro-batch takes, no less: the workers and the uncut network
      agree on every batch of every such pair of slices if and only if `add` is commutative. */
  lemma OneMicroIff(add: Add)
    ensures (forall f: Gradients, x, y :: Agree(add, f, [x], [y])) <==> (forall a, b :: Swap(add, a, b))
  {
    hide Agree;
    if forall a, b :: Swap(add, a, b) {
      forall f: Gradients, x, y ensures Agree(add, f, [x], [y]) {
        AgreeOnce(add, f, x, y);
        assert Swap(add, f(0, x), f(1, x));
      }
    }
    if forall f: Gradients, x, y :: Agree(add, f, [x], [y]) {
      forall a, b ensures Swap(add, a, b) {
        var f: Gradients := (i: nat, x: Tensor) => if i == 0 then a else b;
        AgreeOnce(add, f, 0, 0);
      }
    }
  }

  lemma AgreeOnce(add: Add, f: Gradients, x: Tensor, y: Tensor)
    ensures Agree(add, f, [x], [y]) <==> add(f(0, x), f(1, x)) == add(f(1, x), f(0, x))
  {
    AgreeIff(add, f, [x], [y]);
    hide Agree, Column, Rows, Acc;
    OneOf(Pair(add, f), f, x, 0);
    OneOf(Pair(add, f), f, x, 1);
    OpeningRow(Pair(add, f), f, [x]);
  }

  lemma OneOf(net: Net, f: Gradients, x: Tensor, i: nat)
    ensures Acc(net, Column(f, i, [x], 1)) == f(i, x)
  {
    assert Column(f, i, [x], 0) == [];
  }

  /** Zero gradients but for the first two micro-batches. */
  datatype Corner = Corner(a0: Tensor, b0: Tensor, a1: Tensor, b1: Tensor, zero: Tensor) {
    function Given(): Gradients {
      (i: nat, x: Tensor) =>
        if x == 0 then (if i == 0 then a0 else b0) else if x == 1 then (if i == 0 then a1 else b1) else zero
    }
  }

  predicate Zero(add: Add, zero: Tensor, a: Tensor) {
    add(a, zero) == a == add(zero, a)
  }

  /** The micro-batches 0, 1, 2, … */
  function Spread(k: nat): (xs: seq<Tensor>)
    ensures |xs| == k && forall m: nat | m < k :: xs[m] == m
  {
    seq(k, m => m)
  }

  lemma {:induction false} CornerColumn(add: Add, c: Corner, k: nat, i: nat, m: nat)
    requires 2 <= m <= k && i < 2 && forall a :: Zero(add, c.zero, a)
    ensures Acc(Pair(add, c.Given()), Column(c.Given(), i, Spread(k), m)) == if i == 0 then add(c.a0, c.a1)
                                                                             else add(c.b0, c.b1)
  {
    var f, xs := c.Given(), Spread(k);
    var net := Pair(add, f);
    AccSnoc(net, Column(f, i, xs, m - 1), f(i, xs[m - 1]));
    if m > 2 {
      CornerColumn(add, c, k, i, m - 1);
      assert Zero(add, c.zero, if i == 0 then add(c.a0, c.a1) else add(c.b0, c.b1));
    } else {
      assert Column(f, i, xs, 0) == [];
      assert Column(f, i, xs, 1) == [f(i, 0)];
    }
  }

  lemma {:induction false} CornerRows(add: Add, c: Corner, k: nat, m: nat)
    requires 2 <= m <= k && forall a :: Zero(add, c.zero, a)
    ensures Acc(Pair(add, c.Given()), Rows(c.Given(), Spread(k), m)) == add(add(add(c.b0, c.a0), c.b1), c.a1)
  {
    var f, xs := c.Given(), Spread(k);
    var net := Pair(add, f);
    var before := Rows(f, xs, m - 1);
    AccSnoc(net, before, f(1, xs[m - 1]));
    AccSnoc(net, before + [f(1, xs[m - 1])], f(0, xs[m - 1]));
    assert Rows(f, xs, m) == before + [f(1, xs[m - 1])] + [f(0, xs[m - 1])];
    if m > 2 {
      CornerRows(add, c, k, m - 1);
      assert Zero(add, c.zero, add(add(add(c.b0, c.a0), c.b1), c.a1));
    } else {
      OpeningRow(net, f, xs);
    }
  }

  lemma OpeningRow(net: Net, f: Gradients, xs: seq<Tensor>)
    requires |xs| > 0
    ensures Rows(f, xs, 1) == [f(1, xs[0]), f(0, xs[0])]
    ensures Acc(net, Rows(f, xs, 1)) == net.add(f(1, xs[0]), f(0, xs[0]))
  {
    assert Rows(f, xs, 0) == [];
    AccSnoc(net, [f(1, xs[0])], f(0, xs[0]));
    assert [f(1, xs[0])] + [f(0, xs[0])] == Rows(f, xs, 1);
  }

  lemma AgreeCorner(add: Add, c: Corner, k: nat)
    requires 2 <= k && forall a :: Zero(add, c.zero, a)
    ensures Agree(add, c.Given(), Spread(k), Spread(k)) <==>
      add(add(c.a0, c.a1), add(c.b0, c.b1)) == add(add(add(c.b0, c.a0), c.b1), c.a1)
  {
    AgreeIff(add, c.Given(), Spread(k), Spread(k));
    hide Agree, Rows, Column, Acc, Pair, Zero;
    CornerColumn(add, c, k, 0, k);
    CornerColumn(add, c, k, 1, k);
    CornerRows(add, c, k, k);
  }

  /** More than one micro-batch takes more: for every sum with a zero, and every number of
      micro-batches but one, the workers and the uncut network agree on every batch of every pair of
      slices if and only if the sum is commutative and associative. */
  lemma MicrosIff(add: Add, zero: Tensor, k: nat)
    requires 2 <= k && forall a :: Zero(add, zero, a)
    ensures (forall f: Gradients, xs, ys | |xs| == |ys| == k :: Agree(add, f, xs, ys)) <==> AnyOrder(add)
  {
    hide Agree, Zero, AnyOrder;
    if AnyOrder(add) {
      forall f: Gradients, xs, ys | |xs| == |ys| == k ensures Agree(add, f, xs, ys) { AgreeAlways(add, f, xs, ys); }
    }
    if forall f: Gradients, xs, ys | |xs| == |ys| == k :: Agree(add, f, xs, ys) { AnyOrderIfAgree(add, zero, k); }
  }

  predicate Swap(add: Add, a: Tensor, b: Tensor) {
    add(a, b) == add(b, a)
  }

  predicate Regroup(add: Add, a: Tensor, b: Tensor, c: Tensor) {
    add(add(a, b), c) == add(a, add(b, c))
  }

  /** A sum that is commutative and associative. */
  ghost predicate AnyOrder(add: Add) {
    (forall a, b :: Swap(add, a, b)) && (forall a, b, c :: Regroup(add, a, b, c))
  }

  lemma AnyOrderIfAgree(add: Add, zero: Tensor, k: nat)
    requires 2 <= k && (forall a :: Zero(add, zero, a))
    requires forall f: Gradients, xs, ys | |xs| == |ys| == k :: Agree(add, f, xs, ys)
    ensures AnyOrder(add)
  {
    hide Agree, Zero;
    forall a, b ensures Swap(add, a, b) { SwapsIfAgree(add, zero, k, a, b); }
    forall a, b, c ensures Regroup(add, a, b, c) { GroupsIfAgree(add, zero, k, a, b, c); }
  }

  lemma AnyOrderCommutes(add: Add, f: Gradients)
    ensures AnyOrder(add) <==> Commutes(Pair(add, f))
  {
    var net := Pair(add, f);
    if AnyOrder(add) {
      forall a, b ensures net.add(a, b) == net.add(b, a) { assert Swap(add, a, b); }
      forall a, b, c ensures net.add(net.add(a, b), c) == net.add(a, net.add(b, c)) { assert Regroup(add, a, b, c); }
    }
  }

  lemma AgreeAlways(add: Add, f: Gradients, xs: seq<Tensor>, ys: seq<Tensor>)
    requires AnyOrder(add) && 0 < |xs| == |ys|
    ensures Agree(add, f, xs, ys)
  {
    var net := Pair(add, f);
    PairUsers(add, f);
    AnyOrderCommutes(add, f);
    hide AnyOrder, Commutes, Central, Synced, Quiet, WellFormed;
    SyncedIsCentral(net, START, xs, ys);
  }

  lemma SwapsIfAgree(add: Add, zero: Tensor, k: nat, a: Tensor, b: Tensor)
    requires 2 <= k && (forall a :: Zero(add, zero, a))
    requires forall f: Gradients, xs, ys | |xs| == |ys| == k :: Agree(add, f, xs, ys)
    ensures add(a, b) == add(b, a)
  {
    hide Agree;
    AgreeCorner(add, Corner(zero, b, a, zero, zero), k);
    assert Zero(add, zero, a) && Zero(add, zero, b);
  }

  lemma GroupsIfAgree(add: Add, zero: Tensor, k: nat, a: Tensor, b: Tensor, c: Tensor)
    requires 2 <= k && (forall a :: Zero(add, zero, a))
    requires forall f: Gradients, xs, ys | |xs| == |ys| == k :: Agree(add, f, xs, ys)
    ensures add(add(a, b), c) == add(a, add(b, c))
  {
    hide Agree;
    AgreeCorner(add, Corner(b, zero, a, c, zero), k);
    assert Zero(add, zero, b) && Zero(add, zero, c);
    SwapsIfAgree(add, zero, k, a, b);
    SwapsIfAgree(add, zero, k, a, add(b, c));
  }

  /** Twice the sum: commutative, not associative. */
  const DOUBLED: Add := (a: Tensor, b: Tensor) => 2 * (a + b)

  /** The pair with that `add` and gradients of one. */
  const ONES: Net := Pair(DOUBLED, (i: nat, x: Tensor) => 1)

  /** With several micro-batches commutativity is not enough: on two micro-batches of ones the
      workers step on 16 and the uncut network on 22. */
  lemma TwoMicrosDiffer()
    ensures Swaps(ONES) && Quiet(ONES) && WellFormed(ONES, START)
    ensures Synced(ONES, START, [0, 0], [0, 0]).params == map[0 := 16]
    ensures Central(ONES, START, [0, 0], [0, 0]).params == map[0 := 22]
  {
    var f: Gradients := (i: nat, x: Tensor) => 1;
    var net := Pair(DOUBLED, f);
    assert net == ONES;
    PairTotals(DOUBLED, f, [0, 0], [0, 0]);
    PairUsers(DOUBLED, f);
    hide Central, Synced;
    TwoOnes(net, f);
  }

  lemma TwoOnes(net: Net, f: Gradients)
    requires f == ((i: nat, x: Tensor) => 1) && net == Pair(DOUBLED, f)
    ensures Acc(net, Column(f, 0, [0, 0], 2)) == 4 == Acc(net, Column(f, 1, [0, 0], 2))
    ensures Acc(net, Rows(f, [0, 0], 2)) == 22
  {
    assert Column(f, 0, [0, 0], 1) == [1] && Column(f, 1, [0, 0], 1) == [1];
    AccSnoc(net, [1], 1);
    OpeningRow(net, f, [0, 0]);
    AccSnoc(net, [1, 1], 1);
    AccSnoc(net, [1, 1] + [1], 1);
    assert Rows(f, [0, 0], 2) == [1, 1] + [1] + [1];
  }
}
