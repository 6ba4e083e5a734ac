/** The mathematics a sliced model is made of, shared by every executor.

    A tensor is an integer. What a slice computes, its vector-Jacobian products, the loss, the
    gradient sum and the optimizer step are the arrow-typed fields of a `Net`: a lemma about a
    `Net` holds for every choice of them. In particular `add` is neither associative nor
    commutative unless a lemma asks for it, so the order in which gradients are accumulated is
    part of every result.

    The reference (`Central`) is one network that was never cut: every micro-batch forward, every
    micro-batch backward at the old weights, and one step of every parameter. */
module Network {

  type Tensor = int

  /** The identity of one `nn.Parameter`; two slices using the same one are tied. */
  type Param = nat

  /** What autograd keeps of one forward of one slice. */
  datatype Tape = Tape(params: map<Param, Tensor>, buf: Tensor, rng: Tensor, x: Tensor)

  /** What one forward of one slice produces: its output, its buffers and the RNG state after. */
  datatype Out = Out(y: Tensor, buf: Tensor, rng: Tensor)

  datatype Net = Net(
    n: nat,
    uses: nat -> set<Param>,
    run: (nat, Tape) -> Out,
    vjpX: (nat, Tape, Tensor) -> Tensor,
    vjpP: (nat, Tape, Tensor, Param) -> Tensor,
    lossGrad: (Tensor, Tensor, nat) -> Tensor,
    loss: (Tensor, Tensor) -> Tensor,
    plus: (Tensor, Tensor) -> Tensor,
    add: (Tensor, Tensor) -> Tensor,
    step: (Param, Tensor, Tensor, Tensor) -> (Tensor, Tensor)
  )

  /** All the memory training changes: parameter values, optimizer state, `.grad`s, one buffer
      block per slice, and the global RNG state. */
  datatype Memory = Memory(
    params: map<Param, Tensor>,
    opt: map<Param, Tensor>,
    grads: map<Param, Tensor>,
    bufs: seq<Tensor>,
    rng: Tensor
  )

  ghost predicate WellFormed(net: Net, mem: Memory) {
    && |mem.bufs| == net.n > 0
    && mem.opt.Keys == mem.params.Keys
    && mem.grads.Keys <= mem.params.Keys
    && (forall i: nat | i < net.n :: net.uses(i) <= mem.params.Keys)
    && (forall p | p in mem.params :: Owner(net, p) < net.n)
  }

  /** The lowest slice from `k` on that uses `p`; `net.n` when there is none. */
  function FirstUser(net: Net, p: Param, k: nat): (o: nat)
    requires k <= net.n
    ensures k <= o <= net.n
    ensures o < net.n ==> p in net.uses(o)
    ensures forall j: nat | k <= j < o :: p !in net.uses(j)
    decreases net.n - k
  {
    if k == net.n || p in net.uses(k) then k else FirstUser(net, p, k + 1)
  }

  /** A tied parameter belongs to the lowest slice that uses it. */
  function Owner(net: Net, p: Param): (o: nat) {
    FirstUser(net, p, 0)
  }

  /** The parameters slice `i`'s optimizer holds. */
  function Owned(net: Net, i: nat): set<Param> {
    set p | p in net.uses(i) && Owner(net, p) == i
  }

  function Restrict(params: map<Param, Tensor>, s: set<Param>): map<Param, Tensor> {
    map p | p in s && p in params :: params[p]
  }

  // ── gradient accumulation ────────────────────────────────────────────────────

  /** The value `.grad` holds after the contributions `cs` arrived one after the other. */
  function Acc(net: Net, cs: seq<Tensor>): Tensor
    requires cs != []
  {
    if |cs| == 1 then cs[0] else net.add(Acc(net, cs[..|cs| - 1]), cs[|cs| - 1])
  }

  lemma AccSnoc(net: Net, cs: seq<Tensor>, c: Tensor)
    ensures Acc(net, cs + [c]) == if cs == [] then c else net.add(Acc(net, cs), c)
  {
    assert (cs + [c])[..|cs|] == cs;
  }

  /** `.grad` of `p` holds the contributions `cs`, absent when there are none. */
  ghost predicate Gathered(net: Net, grads: map<Param, Tensor>, cs: seq<Tensor>, p: Param) {
    if cs == [] then p !in grads else p in grads && grads[p] == Acc(net, cs)
  }

  /** `.grad` of every parameter of slice `i` after one more backward through it. */
  function Accumulate(net: Net, i: nat, tape: Tape, g: Tensor, grads: map<Param, Tensor>): map<Param, Tensor> {
    grads + map p | p in net.uses(i) ::
      var c := net.vjpP(i, tape, g, p); if p in grads then net.add(grads[p], c) else c
  }

  // ── the optimizer step ───────────────────────────────────────────────────────

  /** `optimizer.step(); optimizer.zero_grad()` over the parameters `ps`; a parameter without a
      gradient is skipped. */
  function Step(net: Net, mem: Memory, ps: set<Param>): Memory
    requires mem.opt.Keys == mem.params.Keys
  {
    mem.(params := map p | p in mem.params ::
           if p in ps && p in mem.grads
           then net.step(p, mem.params[p], mem.opt[p], mem.grads[p]).0 else mem.params[p],
         opt := map p | p in mem.params ::
           if p in ps && p in mem.grads
           then net.step(p, mem.params[p], mem.opt[p], mem.grads[p]).1 else mem.opt[p],
         grads := mem.grads - ps)
  }

  // ── one forward ──────────────────────────────────────────────────────────────

  /** A forward pass after `|tapes|` slices: the tapes so far, the activation, buffers and RNG. */
  datatype Pass = Pass(tapes: seq<Tape>, x: Tensor, bufs: seq<Tensor>, rng: Tensor)

  /** The first `k` slices forward on `x`. */
  function ForwardTo(net: Net, params: map<Param, Tensor>, bufs: seq<Tensor>, rng: Tensor, x: Tensor, k: nat): (f: Pass)
    requires k <= net.n == |bufs|
    ensures |f.tapes| == k && |f.bufs| == net.n
  {
    if k == 0 then Pass([], x, bufs, rng)
    else
      var f := ForwardTo(net, params, bufs, rng, x, k - 1);
      var tape := Tape(Restrict(params, net.uses(k - 1)), f.bufs[k - 1], f.rng, f.x);
      var out := net.run(k - 1, tape);
      Pass(f.tapes + [tape], out.y, f.bufs[k - 1 := out.buf], out.rng)
  }

  // ── one backward ─────────────────────────────────────────────────────────────

  /** The gradient that reaches the output of slice `k - 1`, when `g` reaches the output of the
      last slice. */
  function GradAt(net: Net, tapes: seq<Tape>, g: Tensor, k: nat): Tensor
    requires k <= net.n == |tapes|
    decreases net.n - k
  {
    if k == net.n then g else net.vjpX(k, tapes[k], GradAt(net, tapes, g, k + 1))
  }

  /** What the backward through slices `n - 1` down to `k` adds to parameter `p`, in order. */
  function Contribs(net: Net, tapes: seq<Tape>, g: Tensor, p: Param, k: nat): seq<Tensor>
    requires k <= net.n == |tapes|
    decreases net.n - k
  {
    if k == net.n then []
    else Contribs(net, tapes, g, p, k + 1) +
         if p in net.uses(k) then [net.vjpP(k, tapes[k], GradAt(net, tapes, g, k + 1), p)] else []
  }

  lemma {:induction false} ContribsBelowOwner(net: Net, tapes: seq<Tape>, g: Tensor, p: Param, k: nat)
    requires k <= net.n == |tapes|
    requires forall j: nat | j < k :: p !in net.uses(j)
    ensures Contribs(net, tapes, g, p, 0) == Contribs(net, tapes, g, p, k)
  {
    if k > 0 {
      ContribsBelowOwner(net, tapes, g, p, k - 1);
      assert Contribs(net, tapes, g, p, k - 1) == Contribs(net, tapes, g, p, k) + [];
    }
  }

  lemma {:induction false} ContribsNonEmpty(net: Net, tapes: seq<Tape>, g: Tensor, p: Param, i: nat, k: nat)
    requires k <= i < net.n == |tapes| && p in net.uses(i)
    ensures Contribs(net, tapes, g, p, k) != []
    decreases i - k
  {
    if k < i { ContribsNonEmpty(net, tapes, g, p, i, k + 1); }
  }

  // ── the reference: one uncut network ─────────────────────────────────────────

  /** The forwards of the first `m` micro-batches, one after the other. */
  datatype Passes = Passes(tapes: seq<seq<Tape>>, outs: seq<Tensor>, bufs: seq<Tensor>, rng: Tensor)

  function Forwards(net: Net, mem: Memory, xs: seq<Tensor>, m: nat): (f: Passes)
    requires m <= |xs| && |mem.bufs| == net.n
    ensures |f.tapes| == |f.outs| == m && |f.bufs| == net.n
    ensures forall j | 0 <= j < m :: |f.tapes[j]| == net.n
  {
    if m == 0 then Passes([], [], mem.bufs, mem.rng)
    else
      var f := Forwards(net, mem, xs, m - 1);
      var one := ForwardTo(net, mem.params, f.bufs, f.rng, xs[m - 1], net.n);
      Passes(f.tapes + [one.tapes], f.outs + [one.x], one.bufs, one.rng)
  }

  /** Everything the backwards of the first `m` micro-batches add to `p`, in order. */
  function AllContribs(net: Net, f: Passes, ys: seq<Tensor>, p: Param, m: nat): seq<Tensor>
    requires m <= |f.tapes| == |f.outs| == |ys|
    requires forall j | 0 <= j < |f.tapes| :: |f.tapes[j]| == net.n
  {
    if m == 0 then []
    else AllContribs(net, f, ys, p, m - 1) +
         Contribs(net, f.tapes[m - 1], net.lossGrad(f.outs[m - 1], ys[m - 1], |ys|), p, 0)
  }

  lemma AllContribsNonEmpty(net: Net, f: Passes, ys: seq<Tensor>, p: Param, i: nat, m: nat)
    requires 0 < m <= |f.tapes| == |f.outs| == |ys|
    requires forall j | 0 <= j < |f.tapes| :: |f.tapes[j]| == net.n
    requires i < net.n && p in net.uses(i)
    ensures AllContribs(net, f, ys, p, m) != []
  {
    ContribsNonEmpty(net, f.tapes[m - 1], net.lossGrad(f.outs[m - 1], ys[m - 1], |ys|), p, i, 0);
  }

  /** The summed loss of the first `m` micro-batches, starting from `0.0`. */
  function Losses(net: Net, outs: seq<Tensor>, ys: seq<Tensor>, m: nat): Tensor
    requires m <= |outs| == |ys|
  {
    if m == 0 then 0 else net.plus(Losses(net, outs, ys, m - 1), net.loss(outs[m - 1], ys[m - 1]))
  }

  /** It is the end of the running sum of the micro-batches' losses. */
  lemma {:induction false} LossesAre(net: Net, outs: seq<Tensor>, ys: seq<Tensor>, m: nat, sums: seq<Tensor>)
    requires m <= |outs| == |ys| && |sums| > m && sums[0] == 0
    requires forall j | 0 <= j < m :: sums[j + 1] == net.plus(sums[j], net.loss(outs[j], ys[j]))
    ensures Losses(net, outs, ys, m) == sums[m]
  {
    if m > 0 { LossesAre(net, outs, ys, m - 1, sums); }
  }

  /** The loss a batch of `k` micro-batches is logged with. */
  function Mean(total: Tensor, k: nat): real {
    if k == 0 then 0.0 else total as real / k as real
  }

  lemma MeanTimes(total: Tensor, k: nat)
    requires k > 0
    ensures Mean(total, k) * k as real == total as real
  {
  }

  /** Value and optimizer state of `p` after a batch in which it received the contributions `cs`. */
  function After(net: Net, mem: Memory, p: Param, cs: seq<Tensor>): (Tensor, Tensor)
    requires p in mem.params && p in mem.opt
  {
    if cs == [] then (mem.params[p], mem.opt[p])
    else net.step(p, mem.params[p], mem.opt[p], Acc(net, cs))
  }

  function ParamsAfter(net: Net, mem: Memory, f: Passes, ys: seq<Tensor>): map<Param, Tensor>
    requires Fits(net, f, ys) && mem.opt.Keys == mem.params.Keys
  {
    map p | p in mem.params :: After(net, mem, p, AllContribs(net, f, ys, p, |ys|)).0
  }

  function OptAfter(net: Net, mem: Memory, f: Passes, ys: seq<Tensor>): map<Param, Tensor>
    requires Fits(net, f, ys) && mem.opt.Keys == mem.params.Keys
  {
    map p | p in mem.params :: After(net, mem, p, AllContribs(net, f, ys, p, |ys|)).1
  }

  predicate Fits(net: Net, f: Passes, ys: seq<Tensor>) {
    |f.tapes| == |f.outs| == |ys| && forall j | 0 <= j < |f.tapes| :: |f.tapes[j]| == net.n
  }

  /** One training batch of the uncut network: forwards, one backward pass at the old weights
      whose gradients accumulate, and one step of every parameter; no gradient is left. */
  ghost function Central(net: Net, mem: Memory, xs: seq<Tensor>, ys: seq<Tensor>): Memory
    requires |xs| == |ys| > 0 && WellFormed(net, mem)
  {
    var f := Forwards(net, mem, xs, |xs|);
    Memory(ParamsAfter(net, mem, f, ys), OptAfter(net, mem, f, ys), map[], f.bufs, f.rng)
  }

  lemma CentralWellFormed(net: Net, mem: Memory, xs: seq<Tensor>, ys: seq<Tensor>)
    requires |xs| == |ys| > 0 && WellFormed(net, mem)
    ensures WellFormed(net, Central(net, mem, xs, ys)) && Central(net, mem, xs, ys).grads == map[]
  {
    hide AllContribs, After, FirstUser;
  }

  lemma IsCentral(net: Net, start: Memory, mem: Memory, xs: seq<Tensor>, ys: seq<Tensor>)
    requires |xs| == |ys| > 0 && WellFormed(net, start) && mem.opt.Keys == mem.params.Keys == start.params.Keys
    requires mem.grads == map[]
    requires var f := Forwards(net, start, xs, |xs|);
      && mem.bufs == f.bufs && mem.rng == f.rng
      && forall p | p in start.params ::
           (mem.params[p], mem.opt[p]) == After(net, start, p, AllContribs(net, f, ys, p, |ys|))
    ensures mem == Central(net, start, xs, ys)
  {
    var f := Forwards(net, start, xs, |xs|);
    var params, opt := ParamsAfter(net, start, f, ys), OptAfter(net, start, f, ys);
    forall p | p in mem.params ensures mem.params[p] == params[p] && mem.opt[p] == opt[p] {
      var after := After(net, start, p, AllContribs(net, f, ys, p, |ys|));
      assert mem.params[p] == after.0 && mem.opt[p] == after.1;
    }
    SameMap(mem.params, params);
    SameMap(mem.opt, opt);
  }

  lemma SameMap<K, V>(a: map<K, V>, b: map<K, V>)
    requires a.Keys == b.Keys && forall k | k in a :: a[k] == b[k]
    ensures a == b
  {
  }
}
