/** One batch of micro-batches as a grid: what slice `i` computes on micro-batch `m` depends only on
    slice `i - 1` at `m` (its input) and on slice `i` at `m - 1` (its buffers). Nothing here fixes
    an order between cells that do not depend on each other, so it is what any schedule of the
    slices has to compute. The grid is proved equal to the micro-batch by micro-batch reference
    of `Network` for slices that draw no random numbers. */
module Wavefront {
  import opened Network

  /** No slice draws random numbers: a forward leaves the RNG state alone. */
  ghost predicate Quiet(net: Net) {
    forall i: nat, tape :: net.run(i, tape).rng == tape.rng
  }

  /** The tape of slice `i` on micro-batch `m`. */
  function Cell(net: Net, mem: Memory, xs: seq<Tensor>, m: nat, i: nat): Tape
    requires m < |xs| && i < net.n == |mem.bufs|
    decreases m + i
  {
    Tape(Restrict(mem.params, net.uses(i)),
         if m == 0 then mem.bufs[i] else net.run(i, Cell(net, mem, xs, m - 1, i)).buf,
         mem.rng,
         if i == 0 then xs[m] else net.run(i - 1, Cell(net, mem, xs, m, i - 1)).y)
  }

  /** The output of slice `i` on micro-batch `m`. */
  function Output(net: Net, mem: Memory, xs: seq<Tensor>, m: nat, i: nat): Tensor
    requires m < |xs| && i < net.n == |mem.bufs|
  {
    net.run(i, Cell(net, mem, xs, m, i)).y
  }

  /** Slice `i`'s buffers after `k` forwards. */
  function BufAt(net: Net, mem: Memory, xs: seq<Tensor>, k: nat, i: nat): Tensor
    requires k <= |xs| && i < net.n == |mem.bufs|
  {
    if k == 0 then mem.bufs[i] else net.run(i, Cell(net, mem, xs, k - 1, i)).buf
  }

  /** The gradient that reaches the output of slice `k - 1` on micro-batch `m`. */
  function GradIn(net: Net, mem: Memory, xs: seq<Tensor>, ys: seq<Tensor>, m: nat, k: nat): Tensor
    requires m < |xs| == |ys| && k <= net.n == |mem.bufs| && net.n > 0
    decreases net.n - k
  {
    if k == net.n then net.lossGrad(Output(net, mem, xs, m, net.n - 1), ys[m], |ys|)
    else net.vjpX(k, Cell(net, mem, xs, m, k), GradIn(net, mem, xs, ys, m, k + 1))
  }

  /** What slice `i` adds to `.grad` of `p` on micro-batch `m`. */
  function Contrib(net: Net, mem: Memory, xs: seq<Tensor>, ys: seq<Tensor>, m: nat, i: nat, p: Param): Tensor
    requires m < |xs| == |ys| && i < net.n == |mem.bufs|
  {
    net.vjpP(i, Cell(net, mem, xs, m, i), GradIn(net, mem, xs, ys, m, i + 1), p)
  }

  /** `.grad` of `p` from slice `i` alone after its first `k` backwards, in order. */
  function LocalGrad(net: Net, mem: Memory, xs: seq<Tensor>, ys: seq<Tensor>, k: nat, i: nat, p: Param): Tensor
    requires 0 < k <= |xs| == |ys| && i < net.n == |mem.bufs|
  {
    var c := Contrib(net, mem, xs, ys, k - 1, i, p);
    if k == 1 then c else net.add(LocalGrad(net, mem, xs, ys, k - 1, i, p), c)
  }

  /** The loss summed over the first `k` micro-batches. */
  function LossAt(net: Net, mem: Memory, xs: seq<Tensor>, ys: seq<Tensor>, k: nat): Tensor
    requires k <= |xs| == |ys| && 0 < net.n == |mem.bufs|
  {
    if k == 0 then 0
    else net.plus(LossAt(net, mem, xs, ys, k - 1), net.loss(Output(net, mem, xs, k - 1, net.n - 1), ys[k - 1]))
  }

  // ── tied parameters summed slice by slice ───────────────────────────────────

  /** The slices from `k` on that use `p`, the highest first. */
  function Users(net: Net, p: Param, k: nat): (us: seq<nat>)
    requires k <= net.n
    ensures forall j | 0 <= j < |us| :: k <= us[j] < net.n && p in net.uses(us[j])
    decreases net.n - k
  {
    if k == net.n then [] else Users(net, p, k + 1) + if p in net.uses(k) then [k] else []
  }

  /** The whole-batch gradients of `p` on the slices `us`, in that order. */
  function GradsOf(net: Net, mem: Memory, xs: seq<Tensor>, ys: seq<Tensor>, us: seq<nat>, p: Param): (gs: seq<Tensor>)
    requires 0 < |xs| == |ys| && net.n == |mem.bufs|
    requires forall j | 0 <= j < |us| :: us[j] < net.n
    ensures |gs| == |us|
  {
    if us == [] then []
    else GradsOf(net, mem, xs, ys, us[..|us| - 1], p) + [LocalGrad(net, mem, xs, ys, |xs|, us[|us| - 1], p)]
  }

  /** The gradient the owner of `p` steps on when every slice is a process of its own: its own sum
      over the micro-batches, plus the replicas' sums in the order they were sent. */
  function SyncedGrad(net: Net, mem: Memory, xs: seq<Tensor>, ys: seq<Tensor>, p: Param): Tensor
    requires 0 < |xs| == |ys| && net.n == |mem.bufs| && Owner(net, p) < net.n
  {
    var o := Owner(net, p);
    var own := LocalGrad(net, mem, xs, ys, |xs|, o, p);
    var rest := GradsOf(net, mem, xs, ys, Users(net, p, o + 1), p);
    if rest == [] then own else net.add(own, Acc(net, rest))
  }

  /** Value and optimizer state of `p` after its owner stepped on `SyncedGrad`. */
  function SyncedStep(net: Net, mem: Memory, xs: seq<Tensor>, ys: seq<Tensor>, p: Param): (Tensor, Tensor)
    requires 0 < |xs| == |ys| && WellFormed(net, mem) && p in mem.params
  {
    net.step(p, mem.params[p], mem.opt[p], SyncedGrad(net, mem, xs, ys, p))
  }

  function SyncedParams(net: Net, mem: Memory, xs: seq<Tensor>, ys: seq<Tensor>): (m: map<Param, Tensor>)
    requires 0 < |xs| == |ys| && WellFormed(net, mem)
    ensures m.Keys == mem.params.Keys
  {
    map p | p in mem.params :: SyncedStep(net, mem, xs, ys, p).0
  }

  function SyncedOpt(net: Net, mem: Memory, xs: seq<Tensor>, ys: seq<Tensor>): (m: map<Param, Tensor>)
    requires 0 < |xs| == |ys| && WellFormed(net, mem)
    ensures m.Keys == mem.params.Keys
  {
    map p | p in mem.params :: SyncedStep(net, mem, xs, ys, p).1
  }

  /** One batch of slices that are processes of their own. */
  function Synced(net: Net, mem: Memory, xs: seq<Tensor>, ys: seq<Tensor>): (m: Memory)
    requires 0 < |xs| == |ys| && WellFormed(net, mem)
    ensures WellFormed(net, m) && m.params.Keys == mem.params.Keys && m.rng == mem.rng
  {
    Memory(SyncedParams(net, mem, xs, ys), SyncedOpt(net, mem, xs, ys), map[],
           seq(net.n, i requires 0 <= i < net.n => BufAt(net, mem, xs, |xs|, i)), mem.rng)
  }

  // ── the grid is the reference ────────────────────────────────────────────────

  lemma {:induction false} PassIsRow(net: Net, mem: Memory, xs: seq<Tensor>, f: Passes, m: nat, k: nat)
    requires Quiet(net) && m < |xs| && k <= net.n == |mem.bufs| == |f.bufs| && f.rng == mem.rng
    requires forall i: nat | i < net.n :: f.bufs[i] == BufAt(net, mem, xs, m, i)
    ensures var one := ForwardTo(net, mem.params, f.bufs, f.rng, xs[m], k);
      && one.rng == mem.rng
      && one.x == (if k == 0 then xs[m] else Output(net, mem, xs, m, k - 1))
      && (forall i: nat | i < k :: one.tapes[i] == Cell(net, mem, xs, m, i))
      && (forall i: nat | i < k :: one.bufs[i] == BufAt(net, mem, xs, m + 1, i))
      && (forall i: nat | k <= i < net.n :: one.bufs[i] == f.bufs[i])
  {
    if k > 0 {
      PassIsRow(net, mem, xs, f, m, k - 1);
      var one := ForwardTo(net, mem.params, f.bufs, f.rng, xs[m], k - 1);
      var tape := Tape(Restrict(mem.params, net.uses(k - 1)), one.bufs[k - 1], one.rng, one.x);
      assert tape == Cell(net, mem, xs, m, k - 1);
    }
  }

  lemma {:induction false} PassesAreGrid(net: Net, mem: Memory, xs: seq<Tensor>, m: nat)
    requires Quiet(net) && m <= |xs| && 0 < net.n == |mem.bufs|
    ensures var f := Forwards(net, mem, xs, m);
      && f.rng == mem.rng
      && (forall i: nat | i < net.n :: f.bufs[i] == BufAt(net, mem, xs, m, i))
      && (forall j: nat, i: nat | j < m && i < net.n :: f.tapes[j][i] == Cell(net, mem, xs, j, i))
      && (forall j: nat | j < m :: f.outs[j] == Output(net, mem, xs, j, net.n - 1))
  {
    if m > 0 {
      PassesAreGrid(net, mem, xs, m - 1);
      PassIsRow(net, mem, xs, Forwards(net, mem, xs, m - 1), m - 1, net.n);
    }
  }

  /** The losses of the grid are those of the reference. */
  lemma {:induction false} LossesAreGrid(net: Net, mem: Memory, xs: seq<Tensor>, ys: seq<Tensor>, m: nat)
    requires Quiet(net) && m <= |xs| == |ys| && 0 < net.n == |mem.bufs|
    ensures Losses(net, Forwards(net, mem, xs, |xs|).outs, ys, m) == LossAt(net, mem, xs, ys, m)
  {
    if m > 0 {
      LossesAreGrid(net, mem, xs, ys, m - 1);
      PassesAreGrid(net, mem, xs, |xs|);
      hide Output, BufAt, Cell, Forwards;
    }
  }

  lemma {:induction false} GradAtIsGradIn(net: Net, mem: Memory, xs: seq<Tensor>, ys: seq<Tensor>, tapes: seq<Tape>,
                                          g: Tensor, m: nat, k: nat)
    requires m < |xs| == |ys| && k <= net.n == |mem.bufs| == |tapes| && net.n > 0
    requires forall i: nat | i < net.n :: tapes[i] == Cell(net, mem, xs, m, i)
    requires g == GradIn(net, mem, xs, ys, m, net.n)
    ensures GradAt(net, tapes, g, k) == GradIn(net, mem, xs, ys, m, k)
    decreases net.n - k
  {
    hide Cell, Output;
    if k < net.n { GradAtIsGradIn(net, mem, xs, ys, tapes, g, m, k + 1); }
  }

  /** The contributions of micro-batch `m` to `p`, slice by slice. */
  function RowContribs(net: Net, mem: Memory, xs: seq<Tensor>, ys: seq<Tensor>, us: seq<nat>, m: nat,
                       p: Param): (cs: seq<Tensor>)
    requires m < |xs| == |ys| && net.n == |mem.bufs|
    requires forall j | 0 <= j < |us| :: us[j] < net.n
    ensures |cs| == |us|
  {
    if us == [] then []
    else RowContribs(net, mem, xs, ys, us[..|us| - 1], m, p) + [Contrib(net, mem, xs, ys, m, us[|us| - 1], p)]
  }

  lemma RowSnoc(net: Net, mem: Memory, xs: seq<Tensor>, ys: seq<Tensor>, us: seq<nat>, u: nat, m: nat, p: Param)
    requires m < |xs| == |ys| && u < net.n == |mem.bufs|
    requires forall j | 0 <= j < |us| :: us[j] < net.n
    ensures RowContribs(net, mem, xs, ys, us + [u], m, p) ==
            RowContribs(net, mem, xs, ys, us, m, p) + [Contrib(net, mem, xs, ys, m, u, p)]
  {
    assert (us + [u])[..|us|] == us;
  }

  lemma {:induction false} ContribsAreRow(net: Net, mem: Memory, xs: seq<Tensor>, ys: seq<Tensor>, tapes: seq<Tape>,
                                          g: Tensor, m: nat, p: Param, k: nat)
    requires m < |xs| == |ys| && k <= net.n == |mem.bufs| == |tapes| && net.n > 0
    requires forall i: nat | i < net.n :: tapes[i] == Cell(net, mem, xs, m, i)
    requires g == GradIn(net, mem, xs, ys, m, net.n)
    ensures Contribs(net, tapes, g, p, k) == RowContribs(net, mem, xs, ys, Users(net, p, k), m, p)
    decreases net.n - k
  {
    hide Cell, GradIn, GradAt, RowContribs, WellFormed;
    if k < net.n {
      ContribsAreRow(net, mem, xs, ys, tapes, g, m, p, k + 1);
      GradAtIsGradIn(net, mem, xs, ys, tapes, g, m, k + 1);
      if p in net.uses(k) {
        RowSnoc(net, mem, xs, ys, Users(net, p, k + 1), k, m, p);
      } else {
        assert Users(net, p, k) == Users(net, p, k + 1);
      }
    }
  }

  /** The reference's contributions to `p`, read off the grid row by row. */
  function GridContribs(net: Net, mem: Memory, xs: seq<Tensor>, ys: seq<Tensor>, p: Param, m: nat): seq<Tensor>
    requires m <= |xs| == |ys| && net.n == |mem.bufs|
  {
    if m == 0 then []
    else GridContribs(net, mem, xs, ys, p, m - 1) + RowContribs(net, mem, xs, ys, Users(net, p, 0), m - 1, p)
  }

  lemma {:induction false} ContribsAreGrid(net: Net, mem: Memory, xs: seq<Tensor>, ys: seq<Tensor>, p: Param, m: nat)
    requires Quiet(net) && m <= |xs| == |ys| && 0 < net.n == |mem.bufs|
    ensures AllContribs(net, Forwards(net, mem, xs, |xs|), ys, p, m) == GridContribs(net, mem, xs, ys, p, m)
  {
    hide Cell, RowContribs, Contribs, Users, ForwardTo, Output, BufAt;
    if m > 0 {
      ContribsAreGrid(net, mem, xs, ys, p, m - 1);
      PassesAreGrid(net, mem, xs, |xs|);
      ContribsAreRow(net, mem, xs, ys, Forwards(net, mem, xs, |xs|).tapes[m - 1],
                     GradIn(net, mem, xs, ys, m - 1, net.n), m - 1, p, 0);
    }
  }

  /** Only one slice uses `p`. */
  predicate Untied(net: Net, p: Param) {
    Owner(net, p) < net.n && Users(net, p, Owner(net, p) + 1) == []
  }

  lemma {:induction false} UsersFrom(net: Net, p: Param, k: nat)
    requires k <= Owner(net, p) < net.n
    ensures Users(net, p, k) == Users(net, p, Owner(net, p) + 1) + [Owner(net, p)]
    decreases Owner(net, p) - k
  {
    if k < Owner(net, p) {
      UsersFrom(net, p, k + 1);
      assert Users(net, p, k) == Users(net, p, k + 1) + [];
    }
  }

  /** An untied parameter: the same contributions in the same order, for any `add`. */
  lemma {:induction false} UntiedSameGrad(net: Net, mem: Memory, xs: seq<Tensor>, ys: seq<Tensor>, p: Param, m: nat)
    requires 0 < m <= |xs| == |ys| && net.n == |mem.bufs| && Untied(net, p)
    ensures GridContribs(net, mem, xs, ys, p, m) != []
    ensures Acc(net, GridContribs(net, mem, xs, ys, p, m)) == LocalGrad(net, mem, xs, ys, m, Owner(net, p), p)
  {
    var o := Owner(net, p);
    OneUserRow(net, mem, xs, ys, p, m - 1);
    AccSnoc(net, GridContribs(net, mem, xs, ys, p, m - 1), Contrib(net, mem, xs, ys, m - 1, o, p));
    if m > 1 {
      UntiedSameGrad(net, mem, xs, ys, p, m - 1);
    } else {
      assert GridContribs(net, mem, xs, ys, p, 0) == [];
    }
  }

  lemma OneUserRow(net: Net, mem: Memory, xs: seq<Tensor>, ys: seq<Tensor>, p: Param, m: nat)
    requires m < |xs| == |ys| && net.n == |mem.bufs| && Untied(net, p)
    ensures RowContribs(net, mem, xs, ys, Users(net, p, 0), m, p) == [Contrib(net, mem, xs, ys, m, Owner(net, p), p)]
  {
    var o := Owner(net, p);
    UsersFrom(net, p, 0);
    RowSnoc(net, mem, xs, ys, [], o, m, p);
    assert Users(net, p, 0) == [] + [o];
  }

  // ── tied parameters: a sum in another order ─────────────────────────────────

  ghost predicate Swaps(net: Net) {
    forall a, b :: net.add(a, b) == net.add(b, a)
  }

  ghost predicate Commutes(net: Net) {
    && Swaps(net)
    && (forall a, b, c :: net.add(net.add(a, b), c) == net.add(a, net.add(b, c)))
  }

  lemma CommutesSwaps(net: Net)
    requires Commutes(net)
    ensures Swaps(net)
  {
    hide Swaps;
  }

  lemma {:induction false} AccConcat(net: Net, a: seq<Tensor>, b: seq<Tensor>)
    requires Commutes(net) && a != [] && b != []
    ensures Acc(net, a + b) == net.add(Acc(net, a), Acc(net, b))
  {
    var b', c := b[..|b| - 1], b[|b| - 1];
    assert a + b == (a + b') + [c];
    AccSnoc(net, a + b', c);
    if b' == [] {
      assert a + b' == a;
    } else {
      AccConcat(net, a, b');
    }
  }

  /** Adding a row to the per-slice sums adds the row's sum to their total. */
  lemma {:induction false} AccRows(net: Net, mem: Memory, xs: seq<Tensor>, ys: seq<Tensor>, us: seq<nat>, p: Param,
                                   k: nat)
    requires Commutes(net) && 1 < k <= |xs| == |ys| && net.n == |mem.bufs| && us != []
    requires forall j | 0 <= j < |us| :: us[j] < net.n
    ensures Acc(net, PrefixGrads(net, mem, xs, ys, us, p, k)) ==
            net.add(Acc(net, PrefixGrads(net, mem, xs, ys, us, p, k - 1)),
                    Acc(net, RowContribs(net, mem, xs, ys, us, k - 1, p)))
  {
    hide Commutes;
    var us', u := us[..|us| - 1], us[|us| - 1];
    if us' != [] {
      AccRows(net, mem, xs, ys, us', p, k);
      var a, a' := Acc(net, PrefixGrads(net, mem, xs, ys, us', p, k - 1)), LocalGrad(net, mem, xs, ys, k - 1, u, p);
      var r, r' := Acc(net, RowContribs(net, mem, xs, ys, us', k - 1, p)), Contrib(net, mem, xs, ys, k - 1, u, p);
      AccSnoc(net, PrefixGrads(net, mem, xs, ys, us', p, k - 1), a');
      AccSnoc(net, PrefixGrads(net, mem, xs, ys, us', p, k), net.add(a', r'));
      AccSnoc(net, RowContribs(net, mem, xs, ys, us', k - 1, p), r');
      Exchange(net, a, r, a', r');
    }
  }

  lemma Exchange(net: Net, a: Tensor, b: Tensor, c: Tensor, d: Tensor)
    requires Commutes(net)
    ensures net.add(net.add(a, b), net.add(c, d)) == net.add(net.add(a, c), net.add(b, d))
  {
    calc {
      net.add(net.add(a, b), net.add(c, d));
      net.add(a, net.add(b, net.add(c, d)));
      net.add(a, net.add(net.add(b, c), d));
      net.add(a, net.add(net.add(c, b), d));
      net.add(a, net.add(c, net.add(b, d)));
      net.add(net.add(a, c), net.add(b, d));
    }
  }

  /** The per-slice sums after `k` micro-batches. */
  function PrefixGrads(net: Net, mem: Memory, xs: seq<Tensor>, ys: seq<Tensor>, us: seq<nat>, p: Param,
                       k: nat): (gs: seq<Tensor>)
    requires 0 < k <= |xs| == |ys| && net.n == |mem.bufs|
    requires forall j | 0 <= j < |us| :: us[j] < net.n
    ensures |gs| == |us|
  {
    if us == [] then []
    else PrefixGrads(net, mem, xs, ys, us[..|us| - 1], p, k) + [LocalGrad(net, mem, xs, ys, k, us[|us| - 1], p)]
  }

  lemma {:induction false} FirstRow(net: Net, mem: Memory, xs: seq<Tensor>, ys: seq<Tensor>, us: seq<nat>, p: Param)
    requires 0 < |xs| == |ys| && net.n == |mem.bufs|
    requires forall j | 0 <= j < |us| :: us[j] < net.n
    ensures PrefixGrads(net, mem, xs, ys, us, p, 1) == RowContribs(net, mem, xs, ys, us, 0, p)
  {
    if us != [] { FirstRow(net, mem, xs, ys, us[..|us| - 1], p); }
  }

  lemma {:induction false} WholePrefix(net: Net, mem: Memory, xs: seq<Tensor>, ys: seq<Tensor>, us: seq<nat>, p: Param)
    requires 0 < |xs| == |ys| && net.n == |mem.bufs|
    requires forall j | 0 <= j < |us| :: us[j] < net.n
    ensures PrefixGrads(net, mem, xs, ys, us, p, |xs|) == GradsOf(net, mem, xs, ys, us, p)
  {
    if us != [] { WholePrefix(net, mem, xs, ys, us[..|us| - 1], p); }
  }

  lemma {:induction false} SumByRowsIsSumBySlices(net: Net, mem: Memory, xs: seq<Tensor>, ys: seq<Tensor>, p: Param,
                                                  m: nat)
    requires Commutes(net) && 0 < m <= |xs| == |ys| && net.n == |mem.bufs|
    requires Users(net, p, 0) != []
    ensures GridContribs(net, mem, xs, ys, p, m) != []
    ensures Acc(net, GridContribs(net, mem, xs, ys, p, m)) ==
        Acc(net, PrefixGrads(net, mem, xs, ys, Users(net, p, 0), p, m))
  {
    var us := Users(net, p, 0);
    if m == 1 {
      FirstRow(net, mem, xs, ys, us, p);
      assert GridContribs(net, mem, xs, ys, p, 0) == [];
      assert GridContribs(net, mem, xs, ys, p, 1) == RowContribs(net, mem, xs, ys, us, 0, p);
    } else {
      SumByRowsIsSumBySlices(net, mem, xs, ys, p, m - 1);
      AccConcat(net, GridContribs(net, mem, xs, ys, p, m - 1), RowContribs(net, mem, xs, ys, us, m - 1, p));
      AccRows(net, mem, xs, ys, us, p, m);
    }
  }

  lemma FirstGrid(net: Net, mem: Memory, xs: seq<Tensor>, ys: seq<Tensor>, p: Param)
    requires 0 < |xs| == |ys| && net.n == |mem.bufs|
    ensures GridContribs(net, mem, xs, ys, p, 1) == RowContribs(net, mem, xs, ys, Users(net, p, 0), 0, p)
  {
    hide RowContribs, Users;
    assert GridContribs(net, mem, xs, ys, p, 0) == [];
  }

  lemma OwnerLast(net: Net, mem: Memory, xs: seq<Tensor>, ys: seq<Tensor>, us: seq<nat>, o: nat, p: Param)
    requires 0 < |xs| == |ys| && net.n == |mem.bufs| && o < net.n
    requires forall j | 0 <= j < |us| :: us[j] < net.n
    ensures GradsOf(net, mem, xs, ys, us + [o], p)
      == GradsOf(net, mem, xs, ys, us, p) + [LocalGrad(net, mem, xs, ys, |xs|, o, p)]
  {
    hide LocalGrad;
    assert (us + [o])[..|us|] == us;
  }

  /** With one micro-batch the owner's total and the uncut network's differ in one swap only: the
      owner adds what its replicas sent to its own gradient, the network its own to theirs. */
  lemma OneMicroSwap(net: Net, mem: Memory, xs: seq<Tensor>, ys: seq<Tensor>, p: Param)
    requires |xs| == 1 == |ys| && net.n == |mem.bufs| && Owner(net, p) < net.n
    ensures GridContribs(net, mem, xs, ys, p, 1) != []
    ensures var o := Owner(net, p);
      var own := LocalGrad(net, mem, xs, ys, 1, o, p);
      var rest := GradsOf(net, mem, xs, ys, Users(net, p, o + 1), p);
      && Acc(net, GridContribs(net, mem, xs, ys, p, 1)) == (if rest == [] then own else net.add(Acc(net, rest), own))
      && SyncedGrad(net, mem, xs, ys, p) == (if rest == [] then own else net.add(own, Acc(net, rest)))
  {
    hide *;
    OneMicroGrid(net, mem, xs, ys, p);
    AddsOwn(net, mem, xs, ys, p);
  }

  lemma OneMicroGrid(net: Net, mem: Memory, xs: seq<Tensor>, ys: seq<Tensor>, p: Param)
    requires |xs| == 1 == |ys| && net.n == |mem.bufs| && Owner(net, p) < net.n
    ensures GridContribs(net, mem, xs, ys, p, 1) != []
    ensures var o := Owner(net, p);
      var own := LocalGrad(net, mem, xs, ys, 1, o, p);
      var rest := GradsOf(net, mem, xs, ys, Users(net, p, o + 1), p);
      Acc(net, GridContribs(net, mem, xs, ys, p, 1)) == if rest == [] then own else net.add(Acc(net, rest), own)
  {
    hide *;
    GridByOwner(net, mem, xs, ys, p);
    var o := Owner(net, p);
    var own, rest := LocalGrad(net, mem, xs, ys, 1, o, p), GradsOf(net, mem, xs, ys, Users(net, p, o + 1), p);
    if rest == [] { JustOne(net, rest, own); } else { AccSnoc(net, rest, own); }
  }

  lemma GridByOwner(net: Net, mem: Memory, xs: seq<Tensor>, ys: seq<Tensor>, p: Param)
    requires |xs| == 1 == |ys| && net.n == |mem.bufs| && Owner(net, p) < net.n
    ensures var o := Owner(net, p);
      var own, rest := LocalGrad(net, mem, xs, ys, 1, o, p), GradsOf(net, mem, xs, ys, Users(net, p, o + 1), p);
      && GridContribs(net, mem, xs, ys, p, 1) != []
      && Acc(net, GridContribs(net, mem, xs, ys, p, 1)) == Acc(net, rest + [own])
  {
    hide *;
    UsersFrom(net, p, 0);
    var all := Users(net, p, 0);
    FirstGrid(net, mem, xs, ys, p);
    FirstRow(net, mem, xs, ys, all, p);
    WholePrefix(net, mem, xs, ys, all, p);
    OwnerLast(net, mem, xs, ys, Users(net, p, Owner(net, p) + 1), Owner(net, p), p);
  }

  lemma JustOne(net: Net, none: seq<Tensor>, g: Tensor)
    requires none == []
    ensures Acc(net, none + [g]) == g
  {
    assert none + [g] == [g];
  }

  lemma AddsOwn(net: Net, mem: Memory, xs: seq<Tensor>, ys: seq<Tensor>, p: Param)
    requires 0 < |xs| == |ys| && net.n == |mem.bufs| && Owner(net, p) < net.n
    ensures var o := Owner(net, p);
      var own := LocalGrad(net, mem, xs, ys, |xs|, o, p);
      var rest := GradsOf(net, mem, xs, ys, Users(net, p, o + 1), p);
      SyncedGrad(net, mem, xs, ys, p) == if rest == [] then own else net.add(own, Acc(net, rest))
  {
  }

  /** A tied parameter, one micro-batch: a commutative `add` is enough. */
  lemma TiedSameOnce(net: Net, mem: Memory, xs: seq<Tensor>, ys: seq<Tensor>, p: Param)
    requires Swaps(net) && |xs| == 1 == |ys| && net.n == |mem.bufs| && Owner(net, p) < net.n
    ensures GridContribs(net, mem, xs, ys, p, 1) != []
    ensures Acc(net, GridContribs(net, mem, xs, ys, p, 1)) == SyncedGrad(net, mem, xs, ys, p)
  {
    hide *;
    OneMicroSwap(net, mem, xs, ys, p);
    var rest := GradsOf(net, mem, xs, ys, Users(net, p, Owner(net, p) + 1), p);
    if rest != [] { AddSwap(net, LocalGrad(net, mem, xs, ys, 1, Owner(net, p), p), Acc(net, rest)); }
  }

  /** A tied parameter: the owner's total is the sum over all uses and micro-batches, when `add`
      is commutative and associative. */
  lemma TiedSameGrad(net: Net, mem: Memory, xs: seq<Tensor>, ys: seq<Tensor>, p: Param)
    requires Commutes(net) && 0 < |xs| == |ys| && net.n == |mem.bufs| && Owner(net, p) < net.n
    ensures GridContribs(net, mem, xs, ys, p, |xs|) != []
    ensures Acc(net, GridContribs(net, mem, xs, ys, p, |xs|)) == SyncedGrad(net, mem, xs, ys, p)
  {
    hide *;
    SumsAgree(net, mem, xs, ys, p);
    OwnerSwaps(net, mem, xs, ys, p);
    OwnerAddsLast(net, mem, xs, ys, p);
  }

  lemma SumsAgree(net: Net, mem: Memory, xs: seq<Tensor>, ys: seq<Tensor>, p: Param)
    requires Commutes(net) && 0 < |xs| == |ys| && net.n == |mem.bufs| && Owner(net, p) < net.n
    ensures GridContribs(net, mem, xs, ys, p, |xs|) != []
    ensures var us := Users(net, p, Owner(net, p) + 1) + [Owner(net, p)];
      Acc(net, GridContribs(net, mem, xs, ys, p, |xs|)) == Acc(net, GradsOf(net, mem, xs, ys, us, p))
  {
    hide *;
    UsersFrom(net, p, 0);
    SumByRowsIsSumBySlices(net, mem, xs, ys, p, |xs|);
    WholePrefix(net, mem, xs, ys, Users(net, p, 0), p);
  }

  lemma OwnerSwaps(net: Net, mem: Memory, xs: seq<Tensor>, ys: seq<Tensor>, p: Param)
    requires Commutes(net) && 0 < |xs| == |ys| && net.n == |mem.bufs| && Owner(net, p) < net.n
    ensures var rest := GradsOf(net, mem, xs, ys, Users(net, p, Owner(net, p) + 1), p);
      var own := LocalGrad(net, mem, xs, ys, |xs|, Owner(net, p), p);
      rest != [] ==> net.add(Acc(net, rest), own) == net.add(own, Acc(net, rest))
  {
    CommutesSwaps(net);
    hide *;
    var o := Owner(net, p);
    var rest := GradsOf(net, mem, xs, ys, Users(net, p, o + 1), p);
    if rest != [] { AddSwap(net, Acc(net, rest), LocalGrad(net, mem, xs, ys, |xs|, o, p)); }
  }

  lemma OwnerAddsLast(net: Net, mem: Memory, xs: seq<Tensor>, ys: seq<Tensor>, p: Param)
    requires 0 < |xs| == |ys| && net.n == |mem.bufs| && Owner(net, p) < net.n
    requires var rest := GradsOf(net, mem, xs, ys, Users(net, p, Owner(net, p) + 1), p);
      var own := LocalGrad(net, mem, xs, ys, |xs|, Owner(net, p), p);
      rest != [] ==> net.add(Acc(net, rest), own) == net.add(own, Acc(net, rest))
    ensures var us := Users(net, p, Owner(net, p) + 1) + [Owner(net, p)];
            Acc(net, GradsOf(net, mem, xs, ys, us, p)) == SyncedGrad(net, mem, xs, ys, p)
  {
    var o := Owner(net, p);
    var us := Users(net, p, o + 1);
    assert (us + [o])[..|us|] == us;
    AccSnoc(net, GradsOf(net, mem, xs, ys, us, p), LocalGrad(net, mem, xs, ys, |xs|, o, p));
  }

  lemma AddSwap(net: Net, a: Tensor, b: Tensor)
    requires Swaps(net)
    ensures net.add(a, b) == net.add(b, a)
  {
  }

  /** With `k` micro-batches to a batch, the order in which `p`'s gradients are added makes no
      difference: one slice only uses it, or sums do not depend on their order, or there is one
      micro-batch and `add` is commutative. */
  ghost predicate OrderFree(net: Net, k: nat, p: Param) {
    Untied(net, p) || Commutes(net) || (k == 1 && Swaps(net))
  }

  /** Slices that are processes of their own train as one uncut network does: exactly, for any
      `add`, when no parameter is tied across slices; with tied parameters when the order of the
      sums makes no difference. */
  lemma SyncedIsCentral(net: Net, mem: Memory, xs: seq<Tensor>, ys: seq<Tensor>)
    requires Quiet(net) && 0 < |xs| == |ys| && WellFormed(net, mem)
    requires forall p | p in mem.params :: OrderFree(net, |xs|, p)
    ensures Synced(net, mem, xs, ys) == Central(net, mem, xs, ys)
  {
    hide OrderFree;
    var f := Forwards(net, mem, xs, |xs|);
    var s := Synced(net, mem, xs, ys);
    PassesAreGrid(net, mem, xs, |xs|);
    assert s.bufs == f.bufs;
    forall p | p in mem.params
      ensures (s.params[p], s.opt[p]) == After(net, mem, p, AllContribs(net, f, ys, p, |ys|))
    {
      OrderFreeSame(net, mem, xs, ys, p);
    }
    IsCentral(net, mem, s, xs, ys);
  }

  /** Parameter by parameter: an untied one needs nothing of `add`, whatever the others are. */
  lemma OrderFreeSame(net: Net, mem: Memory, xs: seq<Tensor>, ys: seq<Tensor>, p: Param)
    requires Quiet(net) && 0 < |xs| == |ys| && WellFormed(net, mem) && p in mem.params
    requires OrderFree(net, |xs|, p)
    ensures SyncedStep(net, mem, xs, ys, p) ==
            After(net, mem, p, AllContribs(net, Forwards(net, mem, xs, |xs|), ys, p, |ys|))
  {
    hide Commutes, Swaps;
    ContribsAreGrid(net, mem, xs, ys, p, |xs|);
    if Untied(net, p) {
      UntiedSameGrad(net, mem, xs, ys, p, |xs|);
    } else if Commutes(net) {
      TiedSameGrad(net, mem, xs, ys, p);
    } else {
      TiedSameOnce(net, mem, xs, ys, p);
    }
  }
}
