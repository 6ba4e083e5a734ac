/** `OffloadExecutor`: the slices live in the pager's slow tier and visit the device one at a time,
    forwards upwards without keeping a graph, backwards downwards with each forward replayed.

    Parameters of one slice are paged; those several slices use stay on the device. */
module OffloadExecutor {
  import opened Wrappers
  import opened Network
  import opened Wavefront
  import opened LayerMajor
  import opened Pager
  import opened PagerCoherence
  import opened PagerVisits
  import opened PagerBatch
  import PagerSchedule
  import SlicePager

  /** The tensors that are not paged: values, optimizer state and `.grad` of shared parameters. */
  datatype Residents = Residents(params: Values, opt: Values, grads: Values)

  /** The parameters only slice `i` uses: those in its page. */
  function Paged(net: Net, i: nat): set<Param> {
    set p | p in net.uses(i) && Untied(net, p)
  }

  function Shared(net: Net, keys: set<Param>): set<Param> {
    set p | p in keys && !Untied(net, p)
  }

  // ── what the pages and the residents hold, as one memory ─────────────────────

  ghost predicate Split(net: Net, keys: set<Param>, flat: seq<View>, res: Residents) {
    && |flat| == net.n > 0
    && (forall p | p in keys :: Owner(net, p) < net.n)
    && (forall i: nat | i < net.n :: SplitAt(net, keys, flat, i))
    && res.params.Keys == res.opt.Keys == Shared(net, keys) && res.grads.Keys <= res.params.Keys
  }

  ghost predicate SplitAt(net: Net, keys: set<Param>, flat: seq<View>, i: nat)
    requires i < |flat|
  {
    net.uses(i) <= keys && flat[i].p.Keys == Paged(net, i) && flat[i].s.Keys == Paged(net, i)
  }

  ghost function MemOf(net: Net, keys: set<Param>, flat: seq<View>, res: Residents, rng: Tensor): Memory
    requires Split(net, keys, flat, res)
  {
    Memory(map p | p in keys :: ParamOf(net, keys, flat, res, p), map p | p in keys :: OptOf(net, keys, flat, res, p),
           res.grads, seq(net.n, i requires 0 <= i < net.n => flat[i].b), rng)
  }

  lemma Home(net: Net, keys: set<Param>, flat: seq<View>, res: Residents, p: Param)
    requires Split(net, keys, flat, res) && p in keys
    ensures Owner(net, p) < net.n
    ensures Untied(net, p) ==> p in flat[Owner(net, p)].p && p in flat[Owner(net, p)].s
    ensures !Untied(net, p) ==> p in res.params && p in res.opt
  {
    assert SplitAt(net, keys, flat, Owner(net, p));
  }

  ghost function ParamOf(net: Net, keys: set<Param>, flat: seq<View>, res: Residents, p: Param): Tensor
    requires Split(net, keys, flat, res) && p in keys
  {
    Home(net, keys, flat, res, p);
    if Untied(net, p) then flat[Owner(net, p)].p[p] else res.params[p]
  }

  ghost function OptOf(net: Net, keys: set<Param>, flat: seq<View>, res: Residents, p: Param): Tensor
    requires Split(net, keys, flat, res) && p in keys
  {
    Home(net, keys, flat, res, p);
    if Untied(net, p) then flat[Owner(net, p)].s[p] else res.opt[p]
  }

  lemma UntiedUser(net: Net, p: Param, i: nat)
    requires i < net.n && p in net.uses(i) && Untied(net, p)
    ensures Owner(net, p) == i
  {
    if Owner(net, p) < i { UsersAbove(net, p, Owner(net, p) + 1, i); }
  }

  lemma {:induction false} UsersAbove(net: Net, p: Param, k: nat, i: nat)
    requires k <= i < net.n && p in net.uses(i)
    ensures Users(net, p, k) != []
    decreases i - k
  {
    if k < i { UsersAbove(net, p, k + 1, i); }
  }

  lemma SliceParam(net: Net, keys: set<Param>, flat: seq<View>, res: Residents, i: nat, p: Param)
    requires Split(net, keys, flat, res) && i < net.n && p in net.uses(i)
    ensures p in keys && p in flat[i].p + res.params && (flat[i].p + res.params)[p] == ParamOf(net, keys, flat, res, p)
    ensures Untied(net, p) == (p in flat[i].p) && (Untied(net, p) ==> Owner(net, p) == i)
  {
    assert SplitAt(net, keys, flat, i);
    Home(net, keys, flat, res, p);
    if Untied(net, p) { UntiedUser(net, p, i); }
  }

  /** What slice `i` computes with. */
  lemma SliceParams(net: Net, keys: set<Param>, flat: seq<View>, res: Residents, rng: Tensor, i: nat)
    requires Split(net, keys, flat, res) && i < net.n
    ensures Restrict(flat[i].p + res.params, net.uses(i)) ==
        Restrict(MemOf(net, keys, flat, res, rng).params, net.uses(i))
  {
    var a, mem := flat[i].p + res.params, MemOf(net, keys, flat, res, rng);
    hide ParamOf, Split, FirstUser, Users, Owner;
    forall p | p in net.uses(i) ensures p in a && p in mem.params && a[p] == mem.params[p] {
      SliceParam(net, keys, flat, res, i, p);
    }
    SameMap(Restrict(a, net.uses(i)), Restrict(mem.params, net.uses(i)));
  }

  lemma SplitWellFormed(net: Net, keys: set<Param>, flat: seq<View>, res: Residents, rng: Tensor)
    requires Split(net, keys, flat, res)
    ensures WellFormed(net, MemOf(net, keys, flat, res, rng))
  {
    var mem := MemOf(net, keys, flat, res, rng);
    forall i: nat | i < net.n ensures net.uses(i) <= mem.params.Keys { assert SplitAt(net, keys, flat, i); }
  }

  /** One page changed. */
  lemma SplitPage(net: Net, keys: set<Param>, flat: seq<View>, res: Residents, i: nat, v: View)
    requires Split(net, keys, flat, res) && i < net.n && v.p.Keys == flat[i].p.Keys && v.s.Keys == flat[i].s.Keys
    ensures Split(net, keys, flat[i := v], res)
  {
    var flat' := flat[i := v];
    forall j: nat | j < net.n ensures SplitAt(net, keys, flat', j) { assert SplitAt(net, keys, flat, j); }
  }

  /** Only the buffers of one page changed. */
  lemma BuffersOnly(net: Net, keys: set<Param>, flat: seq<View>, res: Residents, rng: Tensor, i: nat, b: Tensor)
    requires Split(net, keys, flat, res) && i < net.n
    ensures Split(net, keys, flat[i := flat[i].(b := b)], res)
    ensures var mem := MemOf(net, keys, flat, res, rng);
      MemOf(net, keys, flat[i := flat[i].(b := b)], res, rng) == mem.(bufs := mem.bufs[i := b])
  {
    var flat' := flat[i := flat[i].(b := b)];
    SplitPage(net, keys, flat, res, i, flat[i].(b := b));
    var mem, mem' := MemOf(net, keys, flat, res, rng), MemOf(net, keys, flat', res, rng);
    forall p | p in keys ensures mem'.params[p] == mem.params[p] && mem'.opt[p] == mem.opt[p] {
      Home(net, keys, flat, res, p);
      Home(net, keys, flat', res, p);
    }
    SameMap(mem'.params, mem.params);
    SameMap(mem'.opt, mem.opt);
    assert mem'.bufs == mem.bufs[i := b];
  }

  /** The pages of a memory. */
  function PagesOf(net: Net, mem: Memory): seq<View>
    requires |mem.bufs| == net.n
  {
    seq(net.n, i requires 0 <= i < net.n =>
      View(Restrict(mem.params, Paged(net, i)), mem.bufs[i], Restrict(mem.opt, Paged(net, i))))
  }

  function ResidentsOf(net: Net, mem: Memory): Residents {
    var shared := Shared(net, mem.params.Keys);
    Residents(Restrict(mem.params, shared), Restrict(mem.opt, shared), map[])
  }

  lemma SplitsMemory(net: Net, mem: Memory)
    requires WellFormed(net, mem) && mem.grads == map[]
    ensures Split(net, mem.params.Keys, PagesOf(net, mem), ResidentsOf(net, mem))
    ensures MemOf(net, mem.params.Keys, PagesOf(net, mem), ResidentsOf(net, mem), mem.rng) == mem
  {
    var keys, flat, res := mem.params.Keys, PagesOf(net, mem), ResidentsOf(net, mem);
    forall i: nat | i < net.n ensures SplitAt(net, keys, flat, i) { }
    assert Split(net, keys, flat, res);
    var m := MemOf(net, keys, flat, res, mem.rng);
    forall p | p in keys ensures m.params[p] == mem.params[p] && m.opt[p] == mem.opt[p] {
      Home(net, keys, flat, res, p);
    }
    SameMap(m.params, mem.params);
    SameMap(m.opt, mem.opt);
    assert m.bufs == mem.bufs;
  }

  // ── what replaying and zeroed gradients rely on ──────────────────────────────

  /** Adding to a zeroed gradient gives the gradient. */
  ghost predicate ZeroUnit(net: Net) {
    forall c: Tensor :: net.add(0, c) == c
  }

  /** Backward through `a` is backward through `b`. */
  ghost predicate SameBack(net: Net, i: nat, a: Tape, b: Tape) {
    && (forall g: Tensor :: net.vjpX(i, a, g) == net.vjpX(i, b, g))
    && (forall g: Tensor, p: Param :: net.vjpP(i, a, g, p) == net.vjpP(i, b, g, p))
  }

  /** `tape` with the buffers a forward of the slice on `x` leaves. */
  function Moved(net: Net, i: nat, tape: Tape, x: Tensor, rng: Tensor): Tape {
    tape.(buf := net.run(i, tape.(x := x, rng := rng)).buf)
  }

  /** Backward does not see what the forwards on `xs` change, of which the first made the tape. */
  ghost predicate Unseen(net: Net, i: nat, tape: Tape, xs: seq<Tensor>) {
    SameBack(net, i, tape.(buf := RunLayer(net, i, tape.params, tape.buf, tape.rng, xs, |xs|).buf), tape)
  }

  /** Backward through slice `i` does not see what its own forward and the next ones change, at most
      `k` in all. Buffers the slice's forwards do not change it may read. */
  ghost predicate Replayable(net: Net, i: nat, k: nat) {
    forall tape: Tape, xs: seq<Tensor> | 0 < |xs| <= k && xs[0] == tape.x :: Unseen(net, i, tape, xs)
  }

  /** One forward at a time: backward does not see what any forward of the slice changes. */
  ghost predicate OwnBlind(net: Net, i: nat) {
    forall tape: Tape, x: Tensor, rng: Tensor :: SameBack(net, i, Moved(net, i, tape, x, rng), tape)
  }

  /** Nor what the one forward that made the tape changed. */
  ghost predicate OnceBlind(net: Net, i: nat) {
    forall tape: Tape :: SameBack(net, i, Moved(net, i, tape, tape.x, tape.rng), tape)
  }

  /** The slices without buffers change none. */
  ghost predicate BuffersFit(net: Net, c: Config) {
    |c.sizes| == net.n && forall i: nat, tape: Tape | i < net.n && !HasBuffers(c, i) :: net.run(i, tape).buf == tape.buf
  }

  /** The optimizer step of the parameters of one page that have a gradient. */
  function StepPage(net: Net, p: Values, s: Values, g: Values): (Values, Values) {
    (map q | q in p :: if q in s && q in g then net.step(q, p[q], s[q], g[q]).0 else p[q],
     map q | q in s :: if q in p && q in g then net.step(q, p[q], s[q], g[q]).1 else s[q])
  }

  ghost predicate StepsPages(net: Net, c: Config) {
    forall i: nat, p: Values, s: Values, g: Values :: c.step(i, p, s, g) == StepPage(net, p, s, g)
  }

  lemma {:induction false} LayerTape(net: Net, i: nat, params: Values, buf: Tensor, rng: Tensor, xs: seq<Tensor>,
                                     m: nat, j: nat)
    requires m <= |xs| && j < m
    ensures var t := RunLayer(net, i, params, buf, rng, xs, m).tapes[j]; t.params == params && t.x == xs[j]
  {
    if j < m - 1 { LayerTape(net, i, params, buf, rng, xs, m - 1, j); }
  }

  /** The forwards from micro-batch `j` on are a layer that starts where `j` did. */
  lemma {:induction false} LayerSuffix(net: Net, i: nat, params: Values, buf: Tensor, rng: Tensor, xs: seq<Tensor>,
                                       m: nat, j: nat)
    requires j < m <= |xs|
    ensures var t, l := RunLayer(net, i, params, buf, rng, xs, m).tapes[j], RunLayer(net, i, params, buf, rng, xs, m);
      var rest := RunLayer(net, i, params, t.buf, t.rng, xs[j..], m - j);
      rest.buf == l.buf && rest.rng == l.rng
  {
    if j < m - 1 {
      LayerSuffix(net, i, params, buf, rng, xs, m - 1, j);
    } else {
      var t := RunLayer(net, i, params, buf, rng, xs, m).tapes[j];
      assert RunLayer(net, i, params, t.buf, t.rng, xs[j..], 0) == Layer([], [], t.buf, t.rng);
    }
  }

  /** A replay back-propagates as the first forward would have. */
  lemma ReplaySame(net: Net, i: nat, params: Values, buf: Tensor, rng: Tensor, xs: seq<Tensor>, j: nat)
    requires Replayable(net, i, |xs|) && j < |xs|
    ensures Replays(net, i, params, buf, rng, xs, j)
  {
    hide SameBack;
    LayerTape(net, i, params, buf, rng, xs, |xs|, j);
    LayerSuffix(net, i, params, buf, rng, xs, |xs|, j);
    hide RunLayer;
    var l := RunLayer(net, i, params, buf, rng, xs, |xs|);
    assert Unseen(net, i, l.tapes[j], xs[j..]);
    assert Tape(params, l.buf, l.tapes[j].rng, xs[j]) == l.tapes[j].(buf := l.buf);
  }

  /** The replay of micro-batch `j` of a visit back-propagates as its first forward would have. */
  ghost predicate Replays(net: Net, i: nat, params: Values, buf: Tensor, rng: Tensor, xs: seq<Tensor>, j: nat)
    requires j < |xs|
  {
    var l := RunLayer(net, i, params, buf, rng, xs, |xs|);
    SameBack(net, i, Tape(params, l.buf, l.tapes[j].rng, xs[j]), l.tapes[j])
  }

  ghost predicate AllReplay(net: Net, i: nat, params: Values, buf: Tensor, rng: Tensor, xs: seq<Tensor>) {
    forall j: nat | j < |xs| :: Replays(net, i, params, buf, rng, xs, j)
  }

  /** The condition is exact: in every visit of at most `k` micro-batches every replay back-propagates as
      its first forward would have, if and only if backward does not see what its forward and at most
      `k - 1` more change. */
  lemma ReplayIff(net: Net, i: nat, k: nat)
    ensures Replayable(net, i, k) <==>
      forall params: Values, buf: Tensor, rng: Tensor, xs: seq<Tensor> | |xs| <= k ::
        AllReplay(net, i, params, buf, rng, xs)
  {
    hide Unseen, Replays;
    if Replayable(net, i, k) {
      forall params: Values, buf: Tensor, rng: Tensor, xs: seq<Tensor> | |xs| <= k
        ensures AllReplay(net, i, params, buf, rng, xs)
      {
        assert Replayable(net, i, |xs|);
        forall j: nat | j < |xs| ensures Replays(net, i, params, buf, rng, xs, j) {
          ReplaySame(net, i, params, buf, rng, xs, j);
        }
      }
    }
    if forall params: Values, buf: Tensor, rng: Tensor, xs: seq<Tensor> | |xs| <= k ::
         AllReplay(net, i, params, buf, rng, xs)
    {
      forall tape: Tape, xs: seq<Tensor> | 0 < |xs| <= k && xs[0] == tape.x ensures Unseen(net, i, tape, xs) {
        assert AllReplay(net, i, tape.params, tape.buf, tape.rng, xs);
        FirstReplay(net, i, tape, xs);
      }
    }
  }

  lemma FirstReplay(net: Net, i: nat, tape: Tape, xs: seq<Tensor>)
    requires xs != [] && xs[0] == tape.x && Replays(net, i, tape.params, tape.buf, tape.rng, xs, 0)
    ensures Unseen(net, i, tape, xs)
  {
    hide SameBack;
    FirstTape(net, i, tape.params, tape.buf, tape.rng, xs, |xs|);
    hide RunLayer;
  }

  lemma {:induction false} FirstTape(net: Net, i: nat, params: Values, buf: Tensor, rng: Tensor, xs: seq<Tensor>,
                                     m: nat)
    requires 0 < m <= |xs|
    ensures RunLayer(net, i, params, buf, rng, xs, m).tapes[0] == Tape(params, buf, rng, xs[0])
  {
    if m > 1 {
      FirstTape(net, i, params, buf, rng, xs, m - 1);
    } else {
      assert RunLayer(net, i, params, buf, rng, xs, 0) == Layer([], [], buf, rng);
    }
  }

  /** For one micro-batch it is about one forward. */
  lemma ReplayOnceIff(net: Net, i: nat)
    ensures Replayable(net, i, 1) <==> OnceBlind(net, i)
  {
    hide SameBack;
    if OnceBlind(net, i) {
      forall tape: Tape, xs: seq<Tensor> | 0 < |xs| <= 1 && xs[0] == tape.x ensures Unseen(net, i, tape, xs) {
        OneForward(net, i, tape);
        assert xs == [tape.x];
      }
    }
    if Replayable(net, i, 1) {
      forall tape: Tape ensures SameBack(net, i, Moved(net, i, tape, tape.x, tape.rng), tape) {
        OneForward(net, i, tape);
        assert Unseen(net, i, tape, [tape.x]);
      }
    }
  }

  lemma OneForward(net: Net, i: nat, tape: Tape)
    ensures tape.(buf := RunLayer(net, i, tape.params, tape.buf, tape.rng, [tape.x], 1).buf)
         == Moved(net, i, tape, tape.x, tape.rng)
  {
    assert RunLayer(net, i, tape.params, tape.buf, tape.rng, [tape.x], 0) == Layer([], [], tape.buf, tape.rng);
  }

  /** Not to see what any forward changes is enough for any number of micro-batches: a slice may have
      constant buffers its gradients read, and running statistics they ignore. */
  lemma OwnBlindReplays(net: Net, i: nat, k: nat)
    requires OwnBlind(net, i)
    ensures Replayable(net, i, k)
  {
    hide SameBack;
    forall tape: Tape, xs: seq<Tensor> | 0 < |xs| <= k && xs[0] == tape.x ensures Unseen(net, i, tape, xs) {
      LaterForwards(net, i, tape, xs, |xs|);
    }
  }

  lemma {:induction false} LaterForwards(net: Net, i: nat, tape: Tape, xs: seq<Tensor>, m: nat)
    requires OwnBlind(net, i) && m <= |xs|
    ensures SameBack(net, i, tape.(buf := RunLayer(net, i, tape.params, tape.buf, tape.rng, xs, m).buf), tape)
  {
    if m > 0 {
      LaterForwards(net, i, tape, xs, m - 1);
      hide SameBack;
      var before := RunLayer(net, i, tape.params, tape.buf, tape.rng, xs, m - 1);
      var mid := tape.(buf := before.buf);
      var end := tape.(buf := RunLayer(net, i, tape.params, tape.buf, tape.rng, xs, m).buf);
      assert end == Moved(net, i, mid, xs[m - 1], before.rng);
      SameBackTwice(net, i, end, mid, tape);
    }
  }

  lemma SameBackTwice(net: Net, i: nat, a: Tape, b: Tape, c: Tape)
    requires SameBack(net, i, a, b) && SameBack(net, i, b, c)
    ensures SameBack(net, i, a, c)
  {
  }

  /** The assumption is needed: a slice whose gradient reads the buffer its forward updates gets
      another gradient from its replay. */
  lemma ReplayDiffers(net: Net, params: Values, x: Tensor)
    requires forall tape: Tape :: net.run(0, tape) == Out(tape.x, tape.buf + 1, tape.rng)
    requires forall tape: Tape, g: Tensor, p: Param :: net.vjpP(0, tape, g, p) == tape.buf
    ensures var l := RunLayer(net, 0, params, 0, 0, [x], 1);
      net.vjpP(0, Tape(params, l.buf, l.tapes[0].rng, x), 1, 0) != net.vjpP(0, l.tapes[0], 1, 0)
  {
    assert RunLayer(net, 0, params, 0, 0, [x], 0) == Layer([], [], 0, 0);
  }

  /** For several micro-batches that is not enough: a slice whose backward never sees what its own
      forward changed, but what the next one did. */
  lemma OnceNotEnough(net: Net, params: Values)
    requires forall tape: Tape :: net.run(0, tape) == Out(tape.x, tape.buf + tape.x, tape.rng)
    requires forall tape: Tape, g: Tensor :: net.vjpX(0, tape, g) == g
    requires forall tape: Tape, g: Tensor, p: Param :: net.vjpP(0, tape, g, p) == if tape.x == 0 then tape.buf else 0
    ensures OnceBlind(net, 0)
    ensures var l := RunLayer(net, 0, params, 0, 0, [0, 1], 2);
      net.vjpP(0, Tape(params, l.buf, l.tapes[0].rng, 0), 1, 0) != net.vjpP(0, l.tapes[0], 1, 0)
  {
    assert RunLayer(net, 0, params, 0, 0, [0, 1], 0) == Layer([], [], 0, 0);
    assert RunLayer(net, 0, params, 0, 0, [0, 1], 1) == Layer([Tape(params, 0, 0, 0)], [0], 0, 0);
  }

  // ── where a parameter stands during the backward sweep ───────────────────────

  /** The slices from `i` on have run backward and stepped. */
  ghost predicate Standing(net: Net, start: Memory, mem: Memory, tapes: seq<seq<Tape>>, gs: seq<Tensor>, p: Param,
                           i: nat)
    requires Swept(net, tapes, gs) && i <= net.n && p in start.params && p in start.opt
  {
    && p in mem.params && p in mem.opt
    && if Owner(net, p) >= i then
         p !in mem.grads && (mem.params[p], mem.opt[p]) == After(net, start, p, Adds(net, tapes, gs, p, 0))
       else
         && mem.params[p] == start.params[p] && mem.opt[p] == start.opt[p]
         && Gathered(net, mem.grads, Adds(net, tapes, gs, p, i), p)
  }

  ghost predicate AllStanding(net: Net, start: Memory, mem: Memory, tapes: seq<seq<Tape>>, gs: seq<Tensor>, i: nat)
    requires Swept(net, tapes, gs) && i <= net.n && start.opt.Keys == start.params.Keys
  {
    mem.params.Keys == start.params.Keys && forall p | p in start.params :: Standing(net, start, mem, tapes, gs, p, i)
  }

  lemma NothingStands(net: Net, start: Memory, mem: Memory, tapes: seq<seq<Tape>>, gs: seq<Tensor>)
    requires Swept(net, tapes, gs) && WellFormed(net, start) && start.grads == map[]
    requires mem == start.(bufs := mem.bufs, rng := mem.rng)
    ensures AllStanding(net, start, mem, tapes, gs, net.n)
  {
  }

  /** What the visit of slice `i` does to the gradient of `p`: the slice's contributions join what
      was gathered, and the slice that owns `p` steps on it. */
  ghost predicate Visited(net: Net, before: Memory, after: Memory, tapes: seq<seq<Tape>>, gs: seq<Tensor>, p: Param,
                          i: nat)
    requires Swept(net, tapes, gs) && i < net.n
  {
    var cs := Adds(net, tapes, gs, p, i);
    && p in before.params && p in before.opt && p in after.params && p in after.opt
    && if p !in net.uses(i) then
         && after.params[p] == before.params[p] && after.opt[p] == before.opt[p]
         && (p in after.grads <==> p in before.grads) && (p in after.grads ==> after.grads[p] == before.grads[p])
       else if Owner(net, p) == i then
         && cs != [] && p !in after.grads
         && (after.params[p], after.opt[p]) == net.step(p, before.params[p], before.opt[p], Acc(net, cs))
       else
         after.params[p] == before.params[p] && after.opt[p] == before.opt[p] && Gathered(net, after.grads, cs, p)
  }

  lemma VisitStands(net: Net, start: Memory, before: Memory, after: Memory, tapes: seq<seq<Tape>>, gs: seq<Tensor>,
                    p: Param, i: nat)
    requires Swept(net, tapes, gs) && i < net.n && WellFormed(net, start) && p in start.params
    requires Standing(net, start, before, tapes, gs, p, i + 1) && Visited(net, before, after, tapes, gs, p, i)
    ensures Standing(net, start, after, tapes, gs, p, i)
  {
    hide BackTo, LayerAdds, Acc;
    if p in net.uses(i) {
      if Owner(net, p) == i { AddsBelowOwner(net, tapes, gs, p, i); }
    } else {
      assert Adds(net, tapes, gs, p, i + 1) + [] == Adds(net, tapes, gs, p, i + 1);
    }
  }

  /** No slice above `i` owns what slice `i` uses: its replay computes with the old weights. */
  lemma StillOld(net: Net, start: Memory, mem: Memory, tapes: seq<seq<Tape>>, gs: seq<Tensor>, i: nat)
    requires Swept(net, tapes, gs) && i < net.n && WellFormed(net, start)
    requires AllStanding(net, start, mem, tapes, gs, i + 1)
    ensures Restrict(mem.params, net.uses(i)) == Restrict(start.params, net.uses(i))
  {
    forall p | p in net.uses(i) ensures p in start.params && p in mem.params && mem.params[p] == start.params[p] {
      assert Standing(net, start, mem, tapes, gs, p, i + 1);
    }
  }

  // ── the gradients of one visit ───────────────────────────────────────────────

  /** `.grad` of a page's parameters, in its slot, after one more backward. */
  function PageGrad(net: Net, i: nat, tape: Tape, gm: Tensor, g: Values): Values {
    map p | p in g :: net.add(g[p], net.vjpP(i, tape, gm, p))
  }

  /** `.grad` of the shared parameters `ps` after one more backward. */
  function SharedGrad(net: Net, i: nat, ps: set<Param>, tape: Tape, gm: Tensor, sg: Values): Values {
    sg + map p | p in ps :: var c := net.vjpP(i, tape, gm, p); if p in sg then net.add(sg[p], c) else c
  }

  /** After `m` backwards: every page gradient started from zero and every shared one from what was
      there. */
  ghost predicate Accumulated(net: Net, i: nat, tapes: seq<Tape>, gs: seq<Tensor>, m: nat, g: Values, sg0: Values,
                              sg: Values)
    requires m <= |tapes| == |gs|
  {
    && g.Keys == Paged(net, i)
    && (forall p | p in g :: PageSum(net, i, tapes, gs, m, g, p))
    && (forall p :: SharedSum(net, i, tapes, gs, m, sg0, sg, p))
  }

  ghost predicate PageSum(net: Net, i: nat, tapes: seq<Tape>, gs: seq<Tensor>, m: nat, g: Values, p: Param)
    requires m <= |tapes| == |gs| && p in g
  {
    g[p] == if m == 0 then 0 else Acc(net, LayerAdds(net, i, tapes, gs, p, m))
  }

  ghost predicate SharedSum(net: Net, i: nat, tapes: seq<Tape>, gs: seq<Tensor>, m: nat, sg0: Values, sg: Values,
                            p: Param)
    requires m <= |tapes| == |gs|
  {
    if p in net.uses(i) && !Untied(net, p) then
      forall cs | Gathered(net, sg0, cs, p) :: Gathered(net, sg, cs + LayerAdds(net, i, tapes, gs, p, m), p)
    else (p in sg <==> p in sg0) && (p in sg ==> sg[p] == sg0[p])
  }

  lemma NothingAccumulated(net: Net, i: nat, tapes: seq<Tape>, gs: seq<Tensor>, g: Values, sg: Values)
    requires |tapes| == |gs| && g.Keys == Paged(net, i) && forall p | p in g :: g[p] == 0
    ensures Accumulated(net, i, tapes, gs, 0, g, sg, sg)
  {
    hide Untied, FirstUser, Users, Acc;
    forall p ensures SharedSum(net, i, tapes, gs, 0, sg, sg, p) {
      forall cs | Gathered(net, sg, cs, p) ensures Gathered(net, sg, cs + LayerAdds(net, i, tapes, gs, p, 0), p) {
        assert cs + LayerAdds(net, i, tapes, gs, p, 0) == cs;
      }
    }
  }

  lemma AccumulatedNext(net: Net, i: nat, tapes: seq<Tape>, gs: seq<Tensor>, m: nat, g: Values, sg0: Values, sg: Values,
                        ps: set<Param>)
    requires m < |tapes| == |gs| && ZeroUnit(net) && Accumulated(net, i, tapes, gs, m, g, sg0, sg)
    requires forall p :: p in ps <==> p in net.uses(i) && !Untied(net, p)
    ensures Accumulated(net, i, tapes, gs, m + 1, PageGrad(net, i, tapes[m], gs[m], g), sg0,
                        SharedGrad(net, i, ps, tapes[m], gs[m], sg))
  {
    hide Untied, FirstUser, Users, Acc, PageSum, SharedSum;
    var g', sg' := PageGrad(net, i, tapes[m], gs[m], g), SharedGrad(net, i, ps, tapes[m], gs[m], sg);
    var m' := m + 1;
    forall p | p in g' ensures PageSum(net, i, tapes, gs, m', g', p) {
      PageSumNext(net, i, tapes, gs, m, g, p);
    }
    forall p ensures SharedSum(net, i, tapes, gs, m', sg0, sg', p) {
      SharedSumNext(net, i, tapes, gs, m, sg0, sg, ps, p);
    }
  }

  lemma PageSumNext(net: Net, i: nat, tapes: seq<Tape>, gs: seq<Tensor>, m: nat, g: Values, p: Param)
    requires m < |tapes| == |gs| && ZeroUnit(net) && p in g && PageSum(net, i, tapes, gs, m, g, p)
    ensures PageSum(net, i, tapes, gs, m + 1, PageGrad(net, i, tapes[m], gs[m], g), p)
  {
    var c := net.vjpP(i, tapes[m], gs[m], p);
    AccSnoc(net, LayerAdds(net, i, tapes, gs, p, m), c);
    if m == 0 { assert net.add(0, c) == c; }
  }

  lemma SharedSumNext(net: Net, i: nat, tapes: seq<Tape>, gs: seq<Tensor>, m: nat, sg0: Values, sg: Values,
                      ps: set<Param>, p: Param)
    requires m < |tapes| == |gs| && SharedSum(net, i, tapes, gs, m, sg0, sg, p)
    requires p in ps <==> p in net.uses(i) && !Untied(net, p)
    ensures SharedSum(net, i, tapes, gs, m + 1, sg0, SharedGrad(net, i, ps, tapes[m], gs[m], sg), p)
  {
    hide Untied, FirstUser, Users, Acc;
    var sg' := SharedGrad(net, i, ps, tapes[m], gs[m], sg);
    if p in ps {
      var c := net.vjpP(i, tapes[m], gs[m], p);
      forall cs | Gathered(net, sg0, cs, p) ensures Gathered(net, sg', cs + LayerAdds(net, i, tapes, gs, p, m + 1), p) {
        var before := cs + LayerAdds(net, i, tapes, gs, p, m);
        AccSnoc(net, before, c);
        assert cs + LayerAdds(net, i, tapes, gs, p, m + 1) == before + [c];
      }
    }
  }

  // ── the step of one visit ────────────────────────────────────────────────────

  /** `sl.optimize()` on the shared parameters the slice owns. */
  function StepShared(net: Net, i: nat, res: Residents): Residents {
    var owned := Owned(net, i);
    Residents(map p | p in res.params :: if p in owned && p in res.opt && p in res.grads
                then net.step(p, res.params[p], res.opt[p], res.grads[p]).0 else res.params[p],
              map p | p in res.opt :: if p in owned && p in res.params && p in res.grads
                then net.step(p, res.params[p], res.opt[p], res.grads[p]).1 else res.opt[p],
              res.grads - owned)
  }

  /** The pages and residents after a visit of slice `i`. */
  ghost predicate Stepped(net: Net, i: nat, flat: seq<View>, res: Residents, b: Tensor, g: Values, sg: Values,
                          flat': seq<View>, res': Residents)
    requires i < |flat|
  {
    && flat' == flat[i := View(StepPage(net, flat[i].p, flat[i].s, g).0, b, StepPage(net, flat[i].p, flat[i].s, g).1)]
    && res' == StepShared(net, i, res.(grads := sg))
  }

  /** A parameter of page `i` after the step. */
  lemma VisitPage(net: Net, keys: set<Param>, flat: seq<View>, res: Residents, i: nat, b: Tensor, g: Values, sg: Values,
                  flat': seq<View>, res': Residents, p: Param)
    requires Split(net, keys, flat, res) && Split(net, keys, flat', res') && i < net.n
    requires Stepped(net, i, flat, res, b, g, sg, flat', res')
    requires p in keys && Untied(net, p) && Owner(net, p) == i && p in g
    ensures (ParamOf(net, keys, flat', res', p), OptOf(net, keys, flat', res', p)) ==
            net.step(p, ParamOf(net, keys, flat, res, p), OptOf(net, keys, flat, res, p), g[p])
    ensures p !in res'.grads
  {
    Home(net, keys, flat, res, p);
    hide Untied, FirstUser, Users, Owned;
  }

  /** A parameter of another page. */
  lemma VisitOther(net: Net, keys: set<Param>, flat: seq<View>, res: Residents, i: nat, b: Tensor, g: Values,
                   sg: Values, flat': seq<View>, res': Residents, p: Param)
    requires Split(net, keys, flat, res) && Split(net, keys, flat', res') && i < net.n
    requires Stepped(net, i, flat, res, b, g, sg, flat', res')
    requires p in keys && p !in Owned(net, i) && (Untied(net, p) ==> Owner(net, p) != i)
    ensures ParamOf(net, keys, flat', res', p) == ParamOf(net, keys, flat, res, p)
    ensures OptOf(net, keys, flat', res', p) == OptOf(net, keys, flat, res, p)
    ensures (p in res'.grads <==> p in sg) && (p in sg ==> res'.grads[p] == sg[p])
  {
    Home(net, keys, flat, res, p);
    hide Untied, FirstUser, Users, Owned;
  }

  /** A shared parameter slice `i` owns. */
  lemma VisitOwned(net: Net, keys: set<Param>, flat: seq<View>, res: Residents, i: nat, b: Tensor, g: Values,
                   sg: Values, flat': seq<View>, res': Residents, p: Param)
    requires Split(net, keys, flat, res) && Split(net, keys, flat', res') && i < net.n
    requires Stepped(net, i, flat, res, b, g, sg, flat', res')
    requires p in keys && !Untied(net, p) && p in Owned(net, i) && p in sg
    ensures (ParamOf(net, keys, flat', res', p), OptOf(net, keys, flat', res', p)) ==
            net.step(p, ParamOf(net, keys, flat, res, p), OptOf(net, keys, flat, res, p), sg[p])
    ensures p !in res'.grads
  {
    Home(net, keys, flat, res, p);
    hide Untied, FirstUser, Users, Owned;
  }

  lemma MemAt(net: Net, keys: set<Param>, flat: seq<View>, res: Residents, rng: Tensor, p: Param)
    requires Split(net, keys, flat, res) && p in keys
    ensures var mem := MemOf(net, keys, flat, res, rng);
      && p in mem.params && mem.params[p] == ParamOf(net, keys, flat, res, p)
      && p in mem.opt && mem.opt[p] == OptOf(net, keys, flat, res, p) && mem.grads == res.grads
  {
  }

  /** What slice `i` adds to `p`, after what the slices above it did. */
  lemma AddsHere(net: Net, tapes: seq<seq<Tape>>, gs: seq<Tensor>, p: Param, i: nat)
    requires Swept(net, tapes, gs) && i < net.n && p in net.uses(i)
    ensures Adds(net, tapes, gs, p, i) ==
            Adds(net, tapes, gs, p, i + 1) + LayerAdds(net, i, tapes[i], BackTo(net, tapes, gs, i + 1), p, |gs|)
  {
  }

  lemma OwnedVisited(net: Net, before: Memory, after: Memory, tapes: seq<seq<Tape>>, gs: seq<Tensor>, p: Param, i: nat,
                     sum: Tensor)
    requires Swept(net, tapes, gs) && i < net.n && p in net.uses(i) && Owner(net, p) == i
    requires p in before.params && p in before.opt && p in after.params && p in after.opt && p !in after.grads
    requires Adds(net, tapes, gs, p, i) != [] && sum == Acc(net, Adds(net, tapes, gs, p, i))
    requires (after.params[p], after.opt[p]) == net.step(p, before.params[p], before.opt[p], sum)
    ensures Visited(net, before, after, tapes, gs, p, i)
  {
    hide Adds, Acc;
  }

  /** A visit that accumulated the gradients of slice `i` and stepped did what `Visited` says. */
  lemma StepVisits(net: Net, keys: set<Param>, flat: seq<View>, res: Residents, rng: Tensor, tapes: seq<seq<Tape>>,
                   gs: seq<Tensor>, i: nat, b: Tensor, g: Values, sg: Values, flat': seq<View>, res': Residents,
                   rng': Tensor, p: Param)
    requires Split(net, keys, flat, res) && Split(net, keys, flat', res') && i < net.n && p in keys
    requires Swept(net, tapes, gs) && |gs| > 0 && Stepped(net, i, flat, res, b, g, sg, flat', res')
    requires Accumulated(net, i, tapes[i], BackTo(net, tapes, gs, i + 1), |gs|, g, res.grads, sg)
    requires Owner(net, p) <= i ==> Gathered(net, res.grads, Adds(net, tapes, gs, p, i + 1), p)
    ensures Visited(net, MemOf(net, keys, flat, res, rng), MemOf(net, keys, flat', res', rng'), tapes, gs, p, i)
  {
    hide FirstUser, Users, Untied, Owned, Acc, BackTo, LayerAdds, Accumulated, ParamOf, OptOf, Stepped, Split, MemOf,
      Adds;
    MemAt(net, keys, flat, res, rng, p);
    MemAt(net, keys, flat', res', rng', p);
    if p in net.uses(i) {
      SliceParam(net, keys, flat, res, i, p);
      OwnerOfUsed(net, p, i);
      AddsHere(net, tapes, gs, p, i);
      if Untied(net, p) {
        VisitsPage(net, keys, flat, res, rng, tapes, gs, i, b, g, sg, flat', res', rng', p);
      } else {
        VisitsShared(net, keys, flat, res, rng, tapes, gs, i, b, g, sg, flat', res', rng', p);
      }
    } else {
      NotUsed(net, i, tapes[i], BackTo(net, tapes, gs, i + 1), |gs|, g, res.grads, sg, p);
      VisitOther(net, keys, flat, res, i, b, g, sg, flat', res', p);
    }
  }

  lemma VisitsPage(net: Net, keys: set<Param>, flat: seq<View>, res: Residents, rng: Tensor, tapes: seq<seq<Tape>>,
                   gs: seq<Tensor>, i: nat, b: Tensor, g: Values, sg: Values, flat': seq<View>, res': Residents,
                   rng': Tensor, p: Param)
    requires Split(net, keys, flat, res) && Split(net, keys, flat', res') && i < net.n && p in keys
    requires Swept(net, tapes, gs) && |gs| > 0 && Stepped(net, i, flat, res, b, g, sg, flat', res')
    requires Accumulated(net, i, tapes[i], BackTo(net, tapes, gs, i + 1), |gs|, g, res.grads, sg)
    requires p in net.uses(i) && Untied(net, p) && Owner(net, p) == i
    ensures Visited(net, MemOf(net, keys, flat, res, rng), MemOf(net, keys, flat', res', rng'), tapes, gs, p, i)
  {
    hide FirstUser, Users, Untied, Owned, Acc, BackTo, LayerAdds, Accumulated, ParamOf, OptOf, Stepped, Split, MemOf,
      Adds, Visited;
    MemAt(net, keys, flat, res, rng, p);
    MemAt(net, keys, flat', res', rng', p);
    var back := BackTo(net, tapes, gs, i + 1);
    var col := LayerAdds(net, i, tapes[i], back, p, |gs|);
    AddsHere(net, tapes, gs, p, i);
    UntiedAddsAbove(net, tapes, gs, p, i);
    assert [] + col == col;
    PageStep(net, i, tapes[i], back, |gs|, g, res.grads, sg, p);
    VisitPage(net, keys, flat, res, i, b, g, sg, flat', res', p);
    OwnedVisited(net, MemOf(net, keys, flat, res, rng), MemOf(net, keys, flat', res', rng'), tapes, gs, p, i, g[p]);
  }

  lemma VisitsShared(net: Net, keys: set<Param>, flat: seq<View>, res: Residents, rng: Tensor, tapes: seq<seq<Tape>>,
                     gs: seq<Tensor>, i: nat, b: Tensor, g: Values, sg: Values, flat': seq<View>, res': Residents,
                     rng': Tensor, p: Param)
    requires Split(net, keys, flat, res) && Split(net, keys, flat', res') && i < net.n && p in keys
    requires Swept(net, tapes, gs) && |gs| > 0 && Stepped(net, i, flat, res, b, g, sg, flat', res')
    requires Accumulated(net, i, tapes[i], BackTo(net, tapes, gs, i + 1), |gs|, g, res.grads, sg)
    requires p in net.uses(i) && !Untied(net, p) && Gathered(net, res.grads, Adds(net, tapes, gs, p, i + 1), p)
    ensures Visited(net, MemOf(net, keys, flat, res, rng), MemOf(net, keys, flat', res', rng'), tapes, gs, p, i)
  {
    hide FirstUser, Users, Untied, Owned, Acc, BackTo, LayerAdds, Accumulated, ParamOf, OptOf, Stepped, Split, MemOf,
      Adds;
    MemAt(net, keys, flat, res, rng, p);
    MemAt(net, keys, flat', res', rng', p);
    var back := BackTo(net, tapes, gs, i + 1);
    AddsHere(net, tapes, gs, p, i);
    OwnerOfUsed(net, p, i);
    SharedStep(net, i, tapes[i], back, |gs|, g, res.grads, sg, p, Adds(net, tapes, gs, p, i + 1));
    if Owner(net, p) == i {
      VisitOwned(net, keys, flat, res, i, b, g, sg, flat', res', p);
    } else {
      VisitOther(net, keys, flat, res, i, b, g, sg, flat', res', p);
    }
  }

  lemma UntiedAddsAbove(net: Net, tapes: seq<seq<Tape>>, gs: seq<Tensor>, p: Param, i: nat)
    requires Swept(net, tapes, gs) && i < net.n && Untied(net, p) && Owner(net, p) == i
    ensures Adds(net, tapes, gs, p, i + 1) == []
  {
    AddsAboveLast(net, tapes, gs, p, i + 1);
  }

  lemma OwnerOfUsed(net: Net, p: Param, i: nat)
    requires i < net.n && p in net.uses(i)
    ensures Owner(net, p) <= i && (p in Owned(net, i) <==> Owner(net, p) == i)
  {
  }

  lemma PageStep(net: Net, i: nat, tapes: seq<Tape>, gs: seq<Tensor>, m: nat, g: Values, sg0: Values, sg: Values,
                 p: Param)
    requires 0 < m <= |tapes| == |gs| && Accumulated(net, i, tapes, gs, m, g, sg0, sg) && p in Paged(net, i)
    ensures p in g && g[p] == Acc(net, LayerAdds(net, i, tapes, gs, p, m))
    ensures (p in sg <==> p in sg0)
  {
    hide Untied, FirstUser, Users, Acc, LayerAdds;
    assert PageSum(net, i, tapes, gs, m, g, p) && SharedSum(net, i, tapes, gs, m, sg0, sg, p);
  }

  lemma SharedStep(net: Net, i: nat, tapes: seq<Tape>, gs: seq<Tensor>, m: nat, g: Values, sg0: Values, sg: Values,
                   p: Param, cs: seq<Tensor>)
    requires 0 < m <= |tapes| == |gs| && Accumulated(net, i, tapes, gs, m, g, sg0, sg) && p in net.uses(i)
    requires !Untied(net, p)
    requires Gathered(net, sg0, cs, p)
    ensures Gathered(net, sg, cs + LayerAdds(net, i, tapes, gs, p, m), p)
    ensures cs + LayerAdds(net, i, tapes, gs, p, m) != []
  {
    hide Untied, FirstUser, Users, Acc, Gathered;
    assert SharedSum(net, i, tapes, gs, m, sg0, sg, p);
  }

  lemma NotUsed(net: Net, i: nat, tapes: seq<Tape>, gs: seq<Tensor>, m: nat, g: Values, sg0: Values, sg: Values,
                p: Param)
    requires i < net.n && m <= |tapes| == |gs| && Accumulated(net, i, tapes, gs, m, g, sg0, sg) && p !in net.uses(i)
    ensures (p in sg <==> p in sg0) && (p in sg ==> sg[p] == sg0[p]) && p !in Owned(net, i) && Owner(net, p) != i
  {
    hide Untied, Users, Acc, LayerAdds;
    assert SharedSum(net, i, tapes, gs, m, sg0, sg, p);
  }

  // ── the pager calls of a batch ───────────────────────────────────────────────

  /** The calls made of the pager since its state was `start`. */
  datatype Log = Log(start: PagerState, calls: seq<PagerSchedule.Call>) {
    function Then(call: PagerSchedule.Call): Log {
      this.(calls := calls + [call])
    }
  }

  lemma LogMore(start: PagerState, ops: seq<Op>, op: Op)
    ensures var log, log' := Log(start, Calls(ops)), Log(start, Calls(ops + [op]));
      if op.DoCompute? then log' == log else log' == log.Then(CallOf(op)[0])
  {
    CallsSnoc(ops, op);
    assert Calls(ops) + [] == Calls(ops);
  }

  /** A slice below the ones that stepped computes with the parameters the batch started from. */
  lemma OldParams(net: Net, keys: set<Param>, flat: seq<View>, res: Residents, rng: Tensor, start: Memory,
                  tapes: seq<seq<Tape>>, gs: seq<Tensor>, i: nat)
    requires Split(net, keys, flat, res) && Swept(net, tapes, gs) && i < net.n && WellFormed(net, start)
    requires AllStanding(net, start, MemOf(net, keys, flat, res, rng), tapes, gs, i + 1)
    ensures Restrict(flat[i].p + res.params, net.uses(i)) == Restrict(start.params, net.uses(i))
    ensures flat[i].p.Keys == Paged(net, i) && net.uses(i) <= keys
  {
    StillOld(net, start, MemOf(net, keys, flat, res, rng), tapes, gs, i);
    SliceParams(net, keys, flat, res, rng, i);
    assert SplitAt(net, keys, flat, i);
  }

  /** Where the slices step. */
  function How(net: Net, c: Config): PagerSchedule.Stepping {
    if c.cpuOpt then PagerSchedule.OnCpu else PagerSchedule.OnDevice(set i: nat | i < net.n && Owned(net, i) != {})
  }

  /** The start of the backward visit of slice `i`. */
  function Begun(log: Log, i: nat): Log {
    var held := log.Then(PagerSchedule.CAcquire(i, true));
    if i > 0 then held.Then(PagerSchedule.CFetch(i - 1, true)) else held
  }

  /** A forward visit of slice `i`. */
  function Gone(log: Log, i: nat, last: nat): Log {
    var held := log.Then(PagerSchedule.CAcquire(i, false));
    held.Then(PagerSchedule.CFetch(i + 1, i + 1 == last)).Then(PagerSchedule.CRelease(i, false))
  }

  /** The calls of a batch that started in `st` are made, but for `rest`. */
  ghost predicate ToCome(net: Net, c: Config, st: PagerState, log: Log, rest: seq<PagerSchedule.Call>) {
    net.n > 0 && log.start == st && log.calls + rest == PagerSchedule.BatchCalls(How(net, c), net.n)
  }

  function ForwardsFrom(net: Net, c: Config, i: nat): seq<PagerSchedule.Call>
    requires i < net.n
  {
    PagerSchedule.ForwardCalls(i, net.n - 1) + PagerSchedule.BackwardCalls(How(net, c), net.n - 1)
  }

  /** The backward calls below slice `i`. */
  function BackwardsBelow(net: Net, c: Config, i: nat): seq<PagerSchedule.Call> {
    if i == 0 then [] else PagerSchedule.BackwardCalls(How(net, c), i - 1)
  }

  lemma FirstCome(net: Net, c: Config, st: PagerState)
    requires net.n > 0
    ensures ToCome(net, c, st, Log(st, []).Then(PagerSchedule.CFetch(0, net.n == 1)), ForwardsFrom(net, c, 0))
  {
    hide How, PagerSchedule.ForwardCalls, PagerSchedule.BackwardCalls;
    assert [] + [PagerSchedule.CFetch(0, net.n == 1)] == [PagerSchedule.CFetch(0, net.n == 1)];
  }

  lemma Onto(s: seq<PagerSchedule.Call>, a: PagerSchedule.Call, b: PagerSchedule.Call, c: PagerSchedule.Call,
             rest: seq<PagerSchedule.Call>)
    ensures s + [a] + [b] + [c] + rest == s + ([a, b, c] + rest)
  {
  }

  lemma ForwardCome(net: Net, c: Config, st: PagerState, log: Log, i: nat)
    requires i + 1 < net.n && ToCome(net, c, st, log, ForwardsFrom(net, c, i))
    ensures ToCome(net, c, st, Gone(log, i, net.n - 1), ForwardsFrom(net, c, i + 1))
  {
    hide How, PagerSchedule.BackwardCalls, PagerSchedule.BatchCalls;
    var back := PagerSchedule.BackwardCalls(How(net, c), net.n - 1);
    var last := net.n - 1;
    var more := PagerSchedule.ForwardCalls(i + 1, last);
    var (x, y) := (PagerSchedule.CAcquire(i, false), PagerSchedule.CFetch(i + 1, i + 1 == last));
    var z := PagerSchedule.CRelease(i, false);
    assert PagerSchedule.ForwardCalls(i, last) == [x, y, z] + more;
    hide PagerSchedule.ForwardCalls;
    assert ([x, y, z] + more) + back == [x, y, z] + (more + back);
    Onto(log.calls, x, y, z, more + back);
  }

  lemma ForwardDone(net: Net, c: Config, st: PagerState, log: Log)
    requires net.n > 0 && ToCome(net, c, st, log, ForwardsFrom(net, c, net.n - 1))
    ensures ToCome(net, c, st, log, BackwardsBelow(net, c, net.n))
  {
    assert ForwardsFrom(net, c, net.n - 1) == BackwardsBelow(net, c, net.n);
  }

  lemma BackwardCome(net: Net, c: Config, st: PagerState, log: Log, i: nat)
    requires ToCome(net, c, st, log, BackwardsBelow(net, c, i + 1))
    ensures ToCome(net, c, st, Begun(log, i).Then(PagerSchedule.StepCall(How(net, c), i)), BackwardsBelow(net, c, i))
  {
    hide How, PagerSchedule.BatchCalls, PagerSchedule.StepCall;
    var how := How(net, c);
    var (x, z) := (PagerSchedule.CAcquire(i, true), PagerSchedule.StepCall(how, i));
    if i == 0 {
      assert log.calls + [x] + [z] + [] == log.calls + [x, z];
    } else {
      Onto(log.calls, x, PagerSchedule.CFetch(i - 1, true), z, PagerSchedule.BackwardCalls(how, i - 1));
    }
  }

  // ── the executor ─────────────────────────────────────────────────────────────

  class OffloadExecutor {
    const net: Net
    const keys: set<Param>
    const pager: SlicePager.SlicePager
    var resident: Residents
    var rng: Tensor
    ghost var flat: seq<View>

    /** The pager's pages read as `flat`. */
    ghost predicate Valid()
      reads this, pager
    {
      && pager.Valid() && |pager.pages| == net.n && Reads(pager.c, pager.State(), flat)
      && Split(net, keys, flat, resident)
      && BuffersFit(net, pager.c) && StepsPages(net, pager.c) && (pager.c.cpuOpt ==> Shared(net, keys) == {})
      && pager.Logged()
    }

    ghost function Made(): Log
      reads pager
    {
      Log(pager.origin, Calls(pager.ops))
    }

    ghost function Mem(): Memory
      requires Valid()
      reads this, pager
    {
      MemOf(net, keys, flat, resident, rng)
    }

    /** `setup`: the shared tensors stay, everything else goes to the pager. */
    constructor (net: Net, mem: Memory, c: Config, nSlots: nat, blank: Slot)
      requires WellFormed(net, mem) && mem.grads == map[] && 2 <= nSlots && blank.page == None && !blank.busy
      requires BuffersFit(net, c) && StepsPages(net, c) && (c.cpuOpt ==> Shared(net, mem.params.Keys) == {})
      ensures this.net == net && Valid() && Mem() == mem && NoneBusy(pager.State()) && fresh(pager)
      ensures keys == mem.params.Keys && resident.grads == map[] && pager.c == c && Rooms(pager.c, pager.State(), net.n)
    {
      this.net, keys := net, mem.params.Keys;
      resident, rng := ResidentsOf(net, mem), mem.rng;
      flat := PagesOf(net, mem);
      pager := new SlicePager.SlicePager(c, PagesOf(net, mem), nSlots, blank);
      SplitsMemory(net, mem);
    }

    /** Let the next slice be fetched while slice `i` computes. */
    method Prefetch(i: nat, j: nat, state: bool)
      requires Valid() && Computing(pager.c, pager.State(), i) && j < net.n && j != i
      requires FitsAt(pager.c, pager.State(), j)
      modifies pager
      ensures Valid() && Computing(pager.c, pager.State(), i) && pager.pages[j].slot.Some?
      ensures SameRoom(old(pager.State()), pager.State(), net.n) && pager.touched == old(pager.touched)
      ensures Resident(old(pager.State()), i) && Resident(pager.State(), i)
      ensures pager.slots[pager.pages[i].slot.value].g == old(pager.slots[pager.pages[i].slot.value].g)
      ensures Made() == old(Made()).Then(PagerSchedule.CFetch(j, state))
    {
      hide SlicePager.SlicePager.Logged;
      ghost var st := pager.State();
      LogMore(pager.origin, pager.ops, DoFetch(j, state));
      FetchWhile(pager.c, st, i, j, state);
      var _ := pager.Fetch(j, state);
      SameReads(pager.c, st, pager.State(), flat);
      assert SlotSame(st, pager.State(), st.pages[i].slot.value);
    }

    /** Start a visit of a slice that is resident. */
    method Enter(i: nat, grads: bool, zeros: Values)
      requires Valid() && NoneBusy(pager.State()) && i < net.n && pager.pages[i].slot.Some?
      modifies pager
      ensures Valid() && Computing(pager.c, pager.State(), i) && pager.touched[i] == Clean
      ensures SameRoom(old(pager.State()), pager.State(), net.n)
      ensures Resident(pager.State(), i) && (grads ==> pager.slots[pager.pages[i].slot.value].g == zeros)
      ensures Made() == old(Made()).Then(PagerSchedule.CAcquire(i, grads))
    {
      hide SlicePager.SlicePager.Logged;
      ghost var st := pager.State();
      LogMore(pager.origin, pager.ops, DoHold(i, grads, zeros));
      HoldIdle(pager.c, st, i, grads, zeros);
      var _ := pager.Acquire(i, grads, zeros);
      SameReads(pager.c, st, pager.State(), flat);
    }

    /** One slice of the forward sweep: every micro-batch through it, without a graph. */
    method ForwardVisit(i: nat, xs: seq<Tensor>) returns (ys: seq<Tensor>, rngs: seq<Tensor>)
      requires Valid() && NoneBusy(pager.State()) && i + 1 < net.n && pager.pages[i].slot.Some?
      requires FitsAt(pager.c, pager.State(), i + 1)
      modifies this, pager
      ensures Valid() && NoneBusy(pager.State()) && pager.pages[i + 1].slot.Some?
      ensures SameRoom(old(pager.State()), pager.State(), net.n)
      ensures var l := RunLayer(net, i, old(Restrict(Mem().params, net.uses(i))),
                               old(Mem()).bufs[i], old(rng), xs, |xs|);
        && Mem() == old(Mem()).(bufs := old(Mem()).bufs[i := l.buf], rng := l.rng)
        && ys == l.ys && |rngs| == |xs| && forall m | 0 <= m < |xs| :: rngs[m] == l.tapes[m].rng
      ensures Made() == Gone(old(Made()), i, net.n - 1)
    {
      hide SlicePager.SlicePager.Logged, Made, Log.Then;
      Enter(i, false, map[]);
      Prefetch(i, i + 1, i + 2 == net.n);
      var v, g := pager.Read(i);
      assert ReadsAt(pager.c, pager.State(), flat, i);
      SliceParams(net, keys, flat, resident, rng, i);
      var params := Restrict(v.p + resident.params, net.uses(i));
      var b, r;
      ys, rngs, b, r := RunForwards(i, params, v.b, xs);
      LeaveForward(i, v, g, b);
      rng := r;
    }

    /** The forwards of one visit. */
    method RunForwards(i: nat, params: Values, b0: Tensor, xs: seq<Tensor>)
      returns (ys: seq<Tensor>, rngs: seq<Tensor>, b: Tensor, r: Tensor)
      requires BuffersFit(net, pager.c) && i < net.n
      ensures var l := RunLayer(net, i, params, b0, rng, xs, |xs|);
        && ys == l.ys && b == l.buf && r == l.rng && |rngs| == |xs|
        && forall m | 0 <= m < |xs| :: rngs[m] == l.tapes[m].rng
      ensures !HasBuffers(pager.c, i) ==> b == b0
    {
      b, r := b0, rng;
      ys, rngs := [], [];
      for m := 0 to |xs|
        invariant var l := RunLayer(net, i, params, b0, rng, xs, m);
          && ys == l.ys && b == l.buf && r == l.rng && |rngs| == m
          && forall j | 0 <= j < m :: rngs[j] == l.tapes[j].rng
        invariant !HasBuffers(pager.c, i) ==> b == b0
      {
        rngs := rngs + [r];
        var out := net.run(i, Tape(params, b, r, xs[m]));
        ys, b, r := ys + [out.y], out.buf, out.rng;
      }
    }

    /** End a forward visit: only the buffers changed. */
    method LeaveForward(i: nat, v: View, g: Values, b: Tensor)
      requires Valid() && i + 1 < net.n && Computing(pager.c, pager.State(), i) && pager.touched[i] == Clean
      requires v == flat[i] && (!HasBuffers(pager.c, i) ==> b == v.b) && pager.pages[i + 1].slot.Some?
      modifies this`flat, pager
      ensures Valid() && NoneBusy(pager.State()) && pager.pages[i + 1].slot.Some?
      ensures SameRoom(old(pager.State()), pager.State(), net.n)
      ensures Mem() == old(Mem()).(bufs := old(Mem()).bufs[i := b])
      ensures Made() == old(Made()).Then(PagerSchedule.CRelease(i, false))
    {
      hide SlicePager.SlicePager.Logged, Made, Log.Then;
      BuffersOnly(net, keys, flat, resident, rng, i, b);
      WriteBack(i, v.(b := b), g, Buffers);
      Leave(i, Buffers);
    }

    /** `release`. */
    method Leave(i: nat, dirty: Dirty)
      requires Valid() && i < net.n && Computing(pager.c, pager.State(), i) && Covers(dirty, pager.touched[i])
      modifies pager
      ensures Valid() && NoneBusy(pager.State())
      ensures SameRoom(old(pager.State()), pager.State(), i)
      ensures (dirty != All ==> SameRoom(old(pager.State()), pager.State(), net.n))
      ensures forall j: nat | j < net.n :: pager.pages[j].slot == old(pager.pages)[j].slot
      ensures Made() == old(Made()).Then(PagerSchedule.CRelease(i, dirty == All))
    {
      hide SlicePager.SlicePager.Logged;
      ghost var st := pager.State();
      LogMore(pager.origin, pager.ops, DoRelease(i, dirty));
      ReleasedIdle(pager.c, st, i, dirty);
      pager.Release(i, dirty);
      SameReads(pager.c, st, pager.State(), flat);
    }

    /** What slice `i` computed, through its tensors' pointers. */
    method WriteBack(i: nat, v: View, g: Values, level: Dirty)
      requires Valid() && i < net.n && Computing(pager.c, pager.State(), i)
      requires Within(pager.c, i, flat[i], v, level) && v.p.Keys == flat[i].p.Keys && v.s.Keys == flat[i].s.Keys
      modifies this`flat, pager
      ensures Valid() && Computing(pager.c, pager.State(), i) && flat == old(flat)[i := v]
      ensures SameRoom(old(pager.State()), pager.State(), net.n) && |pager.touched| == net.n
      ensures pager.touched[i] == Join(old(pager.touched[i]), level)
      ensures Resident(pager.State(), i) && pager.slots[pager.pages[i].slot.value].g == g
      ensures forall j: nat | j < net.n :: pager.pages[j].slot == old(pager.pages)[j].slot
      ensures Made() == old(Made())
    {
      hide SlicePager.SlicePager.Logged;
      ghost var st := pager.State();
      LogMore(pager.origin, pager.ops, DoCompute(i, v, g, level));
      assert ReadsAt(pager.c, st, flat, i);
      CoherentPoints(pager.c, st, i);
      ComputedWhile(pager.c, st, i, v, g, level);
      pager.Compute(i, v, g, level);
      OneRead(pager.c, st, pager.State(), flat, i, v);
      SplitPage(net, keys, flat, resident, i, v);
      flat := flat[i := v];
    }

    // ── backward visits ────────────────────────────────────────────────────────

    /** `_replay` and backward of every micro-batch of a visit; the buffers are put back. */
    method Replays(i: nat, v: View, xs: seq<Tensor>, rngs: seq<Tensor>, gsIn: seq<Tensor>, ghost buf0: Tensor,
                   ghost rng0: Tensor)
      returns (gsOut: seq<Tensor>, g: Values, sg: Values)
      requires i < net.n && Replayable(net, i, |xs|) && ZeroUnit(net) && |rngs| == |gsIn| == |xs|
      requires v.p.Keys == Paged(net, i)
      requires forall p | p in net.uses(i) && !Untied(net, p) :: p in keys
      requires var l := RunLayer(net, i, Restrict(v.p + resident.params, net.uses(i)), buf0, rng0, xs, |xs|);
        v.b == l.buf && forall m | 0 <= m < |xs| :: rngs[m] == l.tapes[m].rng
      ensures var l := RunLayer(net, i, Restrict(v.p + resident.params, net.uses(i)), buf0, rng0, xs, |xs|);
        gsOut == LayerBack(net, i, l.tapes, gsIn) && Accumulated(net, i, l.tapes, gsIn, |xs|, g, resident.grads, sg)
    {
      hide Accumulated, Replayable, ZeroUnit, RunLayer, Restrict, PageGrad, SharedGrad, SameBack;
      var params := Restrict(v.p + resident.params, net.uses(i));
      ghost var l := RunLayer(net, i, params, buf0, rng0, xs, |xs|);
      var ps := set p | p in net.uses(i) && !Untied(net, p);
      gsOut, g, sg := [], map p | p in Paged(net, i) :: 0, resident.grads;
      NothingAccumulated(net, i, l.tapes, gsIn, g, sg);
      for m := 0 to |xs|
        invariant |gsOut| == m && forall j | 0 <= j < m :: gsOut[j] == net.vjpX(i, l.tapes[j], gsIn[j])
        invariant Accumulated(net, i, l.tapes, gsIn, m, g, resident.grads, sg)
      {
        var tape := Tape(params, v.b, rngs[m], xs[m]);
        ReplaySame(net, i, params, buf0, rng0, xs, m);
        AccumulatedNext(net, i, l.tapes, gsIn, m, g, resident.grads, sg, ps);
        SameGrads(net, i, tape, l.tapes[m], gsIn[m], g, ps, sg);
        gsOut := gsOut + [net.vjpX(i, tape, gsIn[m])];
        g, sg := PageGrad(net, i, tape, gsIn[m], g), SharedGrad(net, i, ps, tape, gsIn[m], sg);
      }
    }

    /** The last slice: forward with a graph, loss and backward of each micro-batch in turn. */
    method LastMicros(i: nat, v: View, xs: seq<Tensor>, ys: seq<Tensor>)
      returns (down: seq<Tensor>, g: Values, sg: Values, b: Tensor, r: Tensor, total: Tensor)
      requires i < net.n && ZeroUnit(net) && |xs| == |ys| && v.p.Keys == Paged(net, i) && BuffersFit(net, pager.c)
      requires forall p | p in net.uses(i) && !Untied(net, p) :: p in keys
      ensures var l := RunLayer(net, i, Restrict(v.p + resident.params, net.uses(i)), v.b, rng, xs, |xs|);
        var gs := LossGrads(net, l.ys, ys);
        && down == LayerBack(net, i, l.tapes, gs) && Accumulated(net, i, l.tapes, gs, |xs|, g, resident.grads, sg)
        && b == l.buf && r == l.rng && total == Losses(net, l.ys, ys, |xs|)
      ensures !HasBuffers(pager.c, i) ==> b == v.b
    {
      hide Accumulated, ZeroUnit, Restrict, PageGrad, SharedGrad, RunLayer, Untied, Valid;
      var params := Restrict(v.p + resident.params, net.uses(i));
      LayerStarts(net, i, params, v.b, rng, xs);
      ghost var l := RunLayer(net, i, params, v.b, rng, xs, |xs|);
      ghost var gs := LossGrads(net, l.ys, ys);
      var ps := set p | p in net.uses(i) && !Untied(net, p);
      down, g, sg, b, r, total := [], map p | p in Paged(net, i) :: 0, resident.grads, v.b, rng, 0;
      NothingAccumulated(net, i, l.tapes, gs, g, sg);
      for m := 0 to |xs|
        invariant var k := RunLayer(net, i, params, v.b, rng, xs, m); b == k.buf && r == k.rng
        invariant !HasBuffers(pager.c, i) ==> b == v.b
        invariant |down| == m && forall j | 0 <= j < m :: down[j] == net.vjpX(i, l.tapes[j], gs[j])
        invariant Accumulated(net, i, l.tapes, gs, m, g, resident.grads, sg)
        invariant total == Losses(net, l.ys, ys, m)
      {
        var tape := Tape(params, b, r, xs[m]);
        var out := net.run(i, tape);
        LayerPrefix(net, i, params, v.b, rng, xs, |xs|, m);
        total := net.plus(total, net.loss(out.y, ys[m]));
        var gm := net.lossGrad(out.y, ys[m], |xs|);
        AccumulatedNext(net, i, l.tapes, gs, m, g, resident.grads, sg, ps);
        down := down + [net.vjpX(i, tape, gm)];
        g, sg := PageGrad(net, i, tape, gm, g), SharedGrad(net, i, ps, tape, gm, sg);
        b, r := out.buf, out.rng;
      }
    }

    /** Start a backward visit, and fetch the slice below. */
    method Begin(i: nat) returns (v: View)
      requires Valid() && NoneBusy(pager.State()) && i < net.n && pager.pages[i].slot.Some?
      requires Rooms(pager.c, pager.State(), i)
      modifies pager
      ensures Valid() && Computing(pager.c, pager.State(), i) && pager.touched[i] == Clean && v == flat[i]
      ensures SameRoom(old(pager.State()), pager.State(), net.n) && (i > 0 ==> pager.pages[i - 1].slot.Some?)
      ensures Made() == Begun(old(Made()), i)
    {
      hide SlicePager.SlicePager.Logged, Made, Log.Then;
      ghost var st := pager.State();
      Enter(i, true, map p | p in Paged(net, i) :: 0);
      if i > 0 {
        assert FitsAt(pager.c, st, i - 1);
        RoomKept(pager.c, st, pager.State(), net.n, i - 1);
        Prefetch(i, i - 1, true);
      }
      var g;
      v, g := pager.Read(i);
      assert ReadsAt(pager.c, pager.State(), flat, i);
    }

    /** A slice below the last: replay, backward, step, while the slice below is fetched. */
    method BackwardVisit(i: nat, xs: seq<Tensor>, rngs: seq<Tensor>, gsIn: seq<Tensor>, ghost start: Memory,
                         ghost tapes: seq<seq<Tape>>, ghost gs: seq<Tensor>, ghost buf0: Tensor, ghost rng0: Tensor)
      returns (gsOut: seq<Tensor>)
      requires Valid() && NoneBusy(pager.State()) && i < net.n && pager.pages[i].slot.Some?
      requires Rooms(pager.c, pager.State(), i)
      requires Replayable(net, i, |xs|) && ZeroUnit(net) && |rngs| == |gsIn| == |xs| == |gs| > 0
      requires WellFormed(net, start) && Swept(net, tapes, gs) && AllStanding(net, start, Mem(), tapes, gs, i + 1)
      requires gsIn == BackTo(net, tapes, gs, i + 1)
      requires LayerOf(net, i, start, buf0, rng0, xs, tapes[i], Mem().bufs[i])
      requires forall m | 0 <= m < |xs| :: rngs[m] == tapes[i][m].rng
      modifies this`flat, this`resident, pager
      ensures Valid() && NoneBusy(pager.State()) && (i > 0 ==> pager.pages[i - 1].slot.Some?)
      ensures SameRoom(old(pager.State()), pager.State(), i)
      ensures gsOut == BackTo(net, tapes, gs, i) && AllStanding(net, start, Mem(), tapes, gs, i)
      ensures Mem().bufs == old(Mem()).bufs && rng == old(rng)
      ensures Made() == Begun(old(Made()), i).Then(PagerSchedule.StepCall(How(net, pager.c), i))
    {
      hide SlicePager.SlicePager.Logged, Made, Log.Then, Begun, How, PagerSchedule.StepCall;
      ghost var before, res0 := flat, resident;
      OldParams(net, keys, flat, resident, rng, start, tapes, gs, i);
      hide Stepped, Accumulated, Replayable, Paged, Shared, Restrict, StepPage, Owner, BackTo, Split, AllStanding;
      hide StepsPages, BuffersFit, ZeroUnit, Untied;
      var v := Begin(i);
      var g, sg;
      gsOut, g, sg := Replays(i, v, xs, rngs, gsIn, buf0, rng0);
      SharedKeys(net, keys, flat, resident, i, tapes[i], gsIn, |xs|, g, sg);
      StepVisit(i, v, g, sg, v.b);
      AllVisited(net, keys, before, res0, rng, start, tapes, gs, i, v.b, g, sg, flat, resident);
      SameBufs(net, keys, before, res0, rng, i, v.b, flat, resident);
    }

    /** `_step`: on the device, or handed to the CPU. Shared parameters step with their lowest
        slice. */
    method StepVisit(i: nat, v: View, g: Values, sg: Values, b: Tensor)
      requires Valid() && i < net.n && Computing(pager.c, pager.State(), i) && pager.touched[i] == Clean
      requires v == flat[i] && g.Keys == Paged(net, i) && sg.Keys <= Shared(net, keys)
      requires !HasBuffers(pager.c, i) ==> b == v.b
      modifies this`flat, this`resident, pager
      ensures Valid() && NoneBusy(pager.State()) && SameRoom(old(pager.State()), pager.State(), i)
      ensures Stepped(net, i, old(flat), old(resident), b, g, sg, flat, resident)
      ensures forall j: nat | j < net.n && j != i :: pager.pages[j].slot == old(pager.pages)[j].slot
      ensures Made() == old(Made()).Then(PagerSchedule.StepCall(How(net, pager.c), i))
    {
      StepCallIs(net, pager.c, i);
      hide SlicePager.SlicePager.Logged, Made, Log.Then, How, PagerSchedule.StepCall;
      hide StepPage, StepShared, Shared, Paged, FirstUser, Users, Untied, Split, BuffersFit, StepsPages, Reads;
      var stepped := StepPage(net, v.p, v.s, g);
      if pager.c.cpuOpt {
        StepOut(i, v, b, g);
        ResidentsStep(net, keys, flat, resident, i, sg);
        NothingShared(net, keys, i, resident.(grads := sg));
        resident := resident.(grads := sg);
      } else {
        StepNow(i, View(stepped.0, b, stepped.1), g);
        ResidentsStep(net, keys, flat, resident, i, sg);
        resident := StepShared(net, i, resident.(grads := sg));
      }
    }

    /** The step of a slice on the device: a slice without an optimizer changed its buffers only. */
    method StepNow(i: nat, v: View, g: Values)
      requires Valid() && i < net.n && Computing(pager.c, pager.State(), i) && pager.touched[i] == Clean
      requires g.Keys == Paged(net, i) && (v.p, v.s) == StepPage(net, flat[i].p, flat[i].s, g)
      requires !HasBuffers(pager.c, i) ==> v.b == flat[i].b
      modifies this`flat, pager
      ensures Valid() && NoneBusy(pager.State()) && SameRoom(old(pager.State()), pager.State(), i)
      ensures flat == old(flat)[i := v]
      ensures forall j: nat | j < net.n :: pager.pages[j].slot == old(pager.pages)[j].slot
      ensures Made() == old(Made()).Then(PagerSchedule.CRelease(i, Owned(net, i) != {}))
    {
      hide SlicePager.SlicePager.Logged, Made, Log.Then;
      hide Owned, FirstUser, Users, Untied;
      var owned := Owned(net, i);
      if owned == {} { NothingPaged(net, keys, flat, resident, i, g); }
      var level := if owned != {} then All else Buffers;
      WriteBack(i, v, g, level);
      Leave(i, level);
    }

    /** The step of a slice on the CPU: its buffers and gradients go home, and the step stays pending. */
    method StepOut(i: nat, v: View, b: Tensor, g: Values)
      requires Valid() && i < net.n && pager.c.cpuOpt && Computing(pager.c, pager.State(), i)
      requires pager.touched[i] == Clean
      requires v == flat[i] && (!HasBuffers(pager.c, i) ==> b == v.b)
      modifies this`flat, pager
      ensures Valid() && NoneBusy(pager.State()) && SameRoom(old(pager.State()), pager.State(), i)
      ensures var s := StepPage(net, v.p, v.s, g); flat == old(flat)[i := View(s.0, b, s.1)]
      ensures forall j: nat | j < net.n && j != i :: pager.pages[j].slot == old(pager.pages)[j].slot
      ensures Made() == old(Made()).Then(PagerSchedule.CStep(i))
    {
      hide SlicePager.SlicePager.Logged, Made, Log.Then, StepPage;
      WriteBack(i, v.(b := b), g, Buffers);
      StepLater(i, g);
    }

    /** `step_on_cpu`. */
    method StepLater(i: nat, ghost g: Values)
      requires Valid() && i < net.n && pager.c.cpuOpt && Computing(pager.c, pager.State(), i) && pager.touched[i] != All
      requires Resident(pager.State(), i) && pager.slots[pager.pages[i].slot.value].g == g
      modifies this`flat, pager
      ensures Valid() && NoneBusy(pager.State()) && SameRoom(old(pager.State()), pager.State(), i)
      ensures var s := StepPage(net, old(flat)[i].p, old(flat)[i].s, g);
        flat == old(flat)[i := View(s.0, old(flat)[i].b, s.1)]
      ensures forall j: nat | j < net.n && j != i :: pager.pages[j].slot == old(pager.pages)[j].slot
      ensures Made() == old(Made()).Then(PagerSchedule.CStep(i))
    {
      hide SlicePager.SlicePager.Logged;
      ghost var st := pager.State();
      LogMore(pager.origin, pager.ops, DoStepOnCpu(i, g));
      SteppedIdle(pager.c, st, i);
      StepOnCpuKeeps(pager.c, st, i);
      assert ReadsAt(pager.c, st, flat, i);
      pager.StepOnCpu(i, g);
      ghost var s := StepPage(net, flat[i].p, flat[i].s, g);
      OneRead(pager.c, st, pager.State(), flat, i, View(s.0, flat[i].b, s.1));
      SplitPage(net, keys, flat, resident, i, View(s.0, flat[i].b, s.1));
      flat := flat[i := View(s.0, flat[i].b, s.1)];
    }

    /** The last slice: forward with a graph, backward and step. */
    method LastVisit(xs: seq<Tensor>, ys: seq<Tensor>, ghost start: Memory, ghost xs0: seq<Tensor>)
      returns (down: seq<Tensor>, total: Tensor)
      requires Valid() && NoneBusy(pager.State()) && pager.pages[net.n - 1].slot.Some? && ZeroUnit(net)
      requires Rooms(pager.c, pager.State(), net.n - 1)
      requires |xs0| == |ys| > 0 && WellFormed(net, start) && start.grads == map[]
      requires SweptTo(start, xs0, net.n - 1, xs)
      modifies this, pager
      ensures Valid() && NoneBusy(pager.State()) && (net.n > 1 ==> pager.pages[net.n - 2].slot.Some?)
      ensures SameRoom(old(pager.State()), pager.State(), net.n - 1)
      ensures BackedTo(start, xs0, ys, net.n - 1, down)
      ensures total == Losses(net, SweepTo(net, start, xs0, net.n).xs, ys, |ys|)
      ensures Made() == Begun(old(Made()), net.n - 1).Then(PagerSchedule.StepCall(How(net, pager.c), net.n - 1))
    {
      hide SlicePager.SlicePager.Logged, Made, Log.Then, Begun, How, PagerSchedule.StepCall;
      var i := net.n - 1;
      ghost var before, res0, rng0 := flat, resident, rng;
      ghost var s := SweepTo(net, start, xs0, net.n);
      ghost var gs := LossGrads(net, s.xs, ys);
      assert SplitAt(net, keys, flat, i);
      hide Stepped, Accumulated, Paged, Shared, Restrict, StepPage, Owner, Split, AllStanding, Losses, SweepTo, Untied,
        RunLayer, LossGrads;
      NothingStands(net, start, Mem(), s.tapes, gs);
      SliceParams(net, keys, flat, resident, rng, i);
      LastSweep(net, start, xs0);
      var v := Begin(i);
      var g, sg, b, r;
      down, g, sg, b, r, total := LastMicros(i, v, xs, ys);
      SharedKeys(net, keys, flat, resident, i, s.tapes[i], gs, |xs|, g, sg);
      StepVisit(i, v, g, sg, b);
      AllVisited(net, keys, before, res0, rng0, start, s.tapes, gs, i, b, g, sg, flat, resident);
      SameBufs(net, keys, before, res0, rng0, i, b, flat, resident);
      rng := r;
      RngIsNotStanding(net, keys, flat, resident, rng0, r, start, s.tapes, gs, i);
    }

    /** The first fetch of a batch. */
    method FirstFetch()
      requires Valid() && NoneBusy(pager.State()) && FitsAt(pager.c, pager.State(), 0)
      modifies pager
      ensures Valid() && NoneBusy(pager.State()) && pager.pages[0].slot.Some?
      ensures SameRoom(old(pager.State()), pager.State(), net.n)
      ensures ToCome(net, pager.c, old(pager.State()), Made(), ForwardsFrom(net, pager.c, 0))
    {
      hide SlicePager.SlicePager.Logged, ForwardsFrom;
      ghost var st := pager.State();
      pager.Mark();
      FirstCome(net, pager.c, st);
      hide ToCome;
      LogMore(st, [], DoFetch(0, net.n == 1));
      FetchIdle(pager.c, st, 0, net.n == 1);
      var _ := pager.Fetch(0, net.n == 1);
      SameReads(pager.c, st, pager.State(), flat);
    }

    /** Every slice but the last, upwards; the inputs and RNG states of each are kept. */
    method ForwardSweep(xs: seq<Tensor>, ghost start: Memory, ghost st: PagerState)
      returns (cur: seq<Tensor>, stash: seq<seq<Tensor>>, rngs: seq<seq<Tensor>>)
      requires Valid() && NoneBusy(pager.State()) && pager.pages[0].slot.Some? && Mem() == start
      requires Rooms(pager.c, pager.State(), net.n) && ToCome(net, pager.c, st, Made(), ForwardsFrom(net, pager.c, 0))
      modifies this, pager
      ensures ToCome(net, pager.c, st, Made(), BackwardsBelow(net, pager.c, net.n))
      ensures Valid() && NoneBusy(pager.State()) && pager.pages[net.n - 1].slot.Some?
      ensures SameRoom(old(pager.State()), pager.State(), net.n)
      ensures net.n == |start.bufs| && SweptTo(start, xs, net.n - 1, cur)
      ensures |stash| == |rngs| == net.n - 1
      ensures forall j: nat | j < net.n - 1 :: Kept(net, start, xs, j, stash[j], rngs[j])
    {
      hide SlicePager.SlicePager.Logged, Made, Log.Then, ToCome, ForwardsFrom, BackwardsBelow;
      cur, stash, rngs := xs, [], [];
      ghost var before := pager.State();
      SweepStarts(net, start, xs);
      hide SweepTo, Kept, Split, MemOf;
      for i := 0 to net.n - 1
        invariant Valid() && NoneBusy(pager.State()) && pager.pages[i].slot.Some?
        invariant SameRoom(before, pager.State(), net.n)
        invariant ToCome(net, pager.c, st, Made(), ForwardsFrom(net, pager.c, i))
        invariant net.n == |start.bufs| && SweptTo(start, xs, i, cur)
        invariant |stash| == |rngs| == i && forall j: nat | j < i :: Kept(net, start, xs, j, stash[j], rngs[j])
      {
        assert FitsAt(pager.c, before, i + 1);
        RoomKept(pager.c, before, pager.State(), net.n, i + 1);
        ForwardCome(net, pager.c, st, Made(), i);
        stash := stash + [cur];
        var r;
        cur, r := SweepVisit(i, cur, xs, start);
        rngs := rngs + [r];
      }
      ForwardDone(net, pager.c, st, Made());
    }

    /** The forward sweep has come to slice `i`. */
    ghost predicate SweptTo(start: Memory, xs: seq<Tensor>, i: nat, cur: seq<Tensor>)
      requires Valid() && i <= net.n == |start.bufs|
      reads this, pager
    {
      var s := SweepTo(net, start, xs, i); cur == s.xs && Mem() == start.(bufs := s.bufs, rng := s.rng)
    }

    method SweepVisit(i: nat, cur: seq<Tensor>, ghost xs: seq<Tensor>, ghost start: Memory)
      returns (next: seq<Tensor>, r: seq<Tensor>)
      requires Valid() && NoneBusy(pager.State()) && i + 1 < net.n == |start.bufs| && pager.pages[i].slot.Some?
      requires FitsAt(pager.c, pager.State(), i + 1) && SweptTo(start, xs, i, cur)
      modifies this, pager
      ensures Valid() && NoneBusy(pager.State()) && pager.pages[i + 1].slot.Some?
      ensures SameRoom(old(pager.State()), pager.State(), net.n)
      ensures SweptTo(start, xs, i + 1, next) && Kept(net, start, xs, i, cur, r)
      ensures Made() == Gone(old(Made()), i, net.n - 1)
    {
      hide SlicePager.SlicePager.Logged, Made, Gone;
      SweepNext(net, start, xs, i);
      hide RunLayer, Restrict, Split;
      next, r := ForwardVisit(i, cur);
    }

    /** Every slice but the last, downwards. */
    method BackwardSweep(stash: seq<seq<Tensor>>, rngs: seq<seq<Tensor>>, down: seq<Tensor>, ghost start: Memory,
                         ghost xs: seq<Tensor>, ghost ys: seq<Tensor>, ghost st0: PagerState)
      requires Valid() && NoneBusy(pager.State()) && (net.n > 1 ==> pager.pages[net.n - 2].slot.Some?) && ZeroUnit(net)
      requires Rooms(pager.c, pager.State(), net.n - 1) && forall j: nat | j < net.n - 1 :: Replayable(net, j, |xs|)
      requires |xs| == |ys| > 0 && WellFormed(net, start) && |stash| == |rngs| == net.n - 1
      requires forall j: nat | j < net.n - 1 :: Kept(net, start, xs, j, stash[j], rngs[j])
      requires BackedTo(start, xs, ys, net.n - 1, down)
      requires ToCome(net, pager.c, st0, Made(), BackwardsBelow(net, pager.c, net.n - 1))
      modifies this`flat, this`resident, pager
      ensures ToCome(net, pager.c, st0, Made(), [])
      ensures Valid() && NoneBusy(pager.State()) && pager.cap == old(pager.cap)
      ensures IsLayerMajor(net, start, Mem(), xs, ys)
    {
      hide SlicePager.SlicePager.Logged, Made, Log.Then, Begun, How, PagerSchedule.StepCall, ToCome;
      hide AllStanding, SweepTo, BackTo, Split, Replayable, ZeroUnit, LossGrads, Rooms, IsLayerMajor, Swept, BackedTo,
        Kept;
      var g, i := down, net.n - 1;
      while i > 0
        invariant 0 <= i < net.n && Valid() && NoneBusy(pager.State()) && (i > 0 ==> pager.pages[i - 1].slot.Some?)
        invariant Rooms(pager.c, pager.State(), i) && pager.cap == old(pager.cap)
        invariant BackedTo(start, xs, ys, i, g)
        invariant ToCome(net, pager.c, st0, Made(), BackwardsBelow(net, pager.c, i))
      {
        i := i - 1;
        ghost var st := pager.State();
        BackwardCome(net, pager.c, st0, Made(), i);
        AllButLast(pager.c, st, i + 1);
        assert Kept(net, start, xs, i, stash[i], rngs[i]);
        g := BackwardTurn(i, stash[i], rngs[i], g, start, xs, ys);
        RoomsKept(pager.c, st, pager.State(), i, i);
      }
      Finish(start, xs, ys, g);
    }

    lemma Finish(start: Memory, xs: seq<Tensor>, ys: seq<Tensor>, g: seq<Tensor>)
      requires Valid() && WellFormed(net, start) && |xs| == |ys| > 0 && BackedTo(start, xs, ys, 0, g)
      ensures IsLayerMajor(net, start, Mem(), xs, ys)
    {
      SplitWellFormed(net, keys, flat, resident, rng);
      LayerMajorHolds(net, start, Mem(), xs, ys);
      hide AllStanding, SweepTo;
    }

    /** One turn of the backward loop. */
    method BackwardTurn(i: nat, stash: seq<Tensor>, rngs: seq<Tensor>, gsIn: seq<Tensor>, ghost start: Memory,
                        ghost xs: seq<Tensor>, ghost ys: seq<Tensor>)
      returns (gsOut: seq<Tensor>)
      requires Valid() && NoneBusy(pager.State()) && i + 1 < net.n && pager.pages[i].slot.Some?
      requires Rooms(pager.c, pager.State(), i)
      requires Replayable(net, i, |xs|) && ZeroUnit(net) && WellFormed(net, start) && |xs| == |ys| > 0
      requires Kept(net, start, xs, i, stash, rngs)
      requires BackedTo(start, xs, ys, i + 1, gsIn)
      modifies this`flat, this`resident, pager
      ensures Valid() && NoneBusy(pager.State()) && (i > 0 ==> pager.pages[i - 1].slot.Some?)
      ensures SameRoom(old(pager.State()), pager.State(), i)
      ensures BackedTo(start, xs, ys, i, gsOut)
      ensures Made() == Begun(old(Made()), i).Then(PagerSchedule.StepCall(How(net, pager.c), i))
    {
      hide SlicePager.SlicePager.Logged, Made, Log.Then, Begun, How, PagerSchedule.StepCall;
      hide AllStanding, SweepTo, BackTo, LayerOf, Split, Replayable, ZeroUnit, LossGrads, Rooms, Kept;
      ghost var s := SweepTo(net, start, xs, net.n);
      ghost var before := SweepTo(net, start, xs, i);
      KeptLayer(net, start, xs, i, stash, rngs);
      gsOut := BackwardVisit(i, stash, rngs, gsIn, start, s.tapes,
                             LossGrads(net, s.xs, ys), before.bufs[i], before.rng);
    }

    /** The backward sweep has come down to slice `i`. */
    ghost predicate BackedTo(start: Memory, xs: seq<Tensor>, ys: seq<Tensor>, i: nat, g: seq<Tensor>)
      requires Valid() && i <= net.n && WellFormed(net, start) && |xs| == |ys|
      reads this, pager
    {
      var s := SweepTo(net, start, xs, net.n);
      var gs := LossGrads(net, s.xs, ys);
      && Swept(net, s.tapes, gs) && AllStanding(net, start, Mem(), s.tapes, gs, i)
      && g == BackTo(net, s.tapes, gs, i) && Mem().bufs == s.bufs && rng == s.rng
    }

    /** `end_batch`. */
    method EndBatch()
      requires Valid() && NoneBusy(pager.State())
      requires pager.c.cpuOpt ==> Rooms(pager.c, pager.State(), net.n)
      modifies pager
      ensures Valid() && NoneBusy(pager.State()) && Rooms(pager.c, pager.State(), net.n)
      ensures Pager.EndBatch(pager.c, old(pager.State())) == (Done, pager.State())
    {
      hide SlicePager.SlicePager.Logged;
      ghost var st := pager.State();
      EndBatchKeeps(pager.c, st);
      var _ := pager.EndBatch();
      SameReads(pager.c, st, pager.State(), flat);
    }

    /** `_standard_batch`: one micro-batch. */
    method StandardBatch(x: Tensor, y: Tensor) returns (loss: real, ghost ops: seq<Op>)
      requires Valid() && NoneBusy(pager.State()) && resident.grads == map[] && ZeroUnit(net)
      requires forall i: nat | i < net.n - 1 :: Replayable(net, i, 1)
      requires Rooms(pager.c, pager.State(), net.n)
      modifies this, pager
      ensures Valid() && NoneBusy(pager.State()) && Rooms(pager.c, pager.State(), net.n) && resident.grads == map[]
      ensures WellFormed(net, old(Mem())) && Mem() == Central(net, old(Mem()), [x], [y])
      ensures Mem() == LayerBatch(net, old(Mem()), [x], [y])
      ensures loss == Losses(net, Forwards(net, old(Mem()), [x], 1).outs, [y], 1) as real
      ensures BatchRan(net, pager.c, old(pager.State()), ops, pager.State())
    {
      hide Split, IsLayerMajor, Replayable, ZeroUnit, SweepTo, Losses, Central, WellFormed, Mean, BatchRan, LayerBatch,
        SlicePager.SlicePager.Logged;
      SplitWellFormed(net, keys, flat, resident, rng);
      ghost var start := Mem();
      loss, ops := OffloadBatch([x], [y]);
      OneMicroBatch(net, start, Mem(), x, y);
      LayerMajorIs(net, start, Mem(), [x], [y]);
      NoGradsLeft(net, start, Mem(), [x], [y]);
      MeanTimes(Losses(net, Forwards(net, start, [x], 1).outs, [y], 1), 1);
    }

    /** `_gpipe_batch`: several micro-batches. If the slices draw nothing, every parameter whose sum does
        not depend on its order is that of the uncut network. */
    method GpipeBatch(xs: seq<Tensor>, ys: seq<Tensor>) returns (loss: real, ghost ops: seq<Op>)
      requires Valid() && NoneBusy(pager.State()) && resident.grads == map[] && ZeroUnit(net) && |xs| == |ys| > 0
      requires forall i: nat | i < net.n - 1 :: Replayable(net, i, |xs|)
      requires Rooms(pager.c, pager.State(), net.n)
      modifies this, pager
      ensures Valid() && NoneBusy(pager.State()) && Rooms(pager.c, pager.State(), net.n) && resident.grads == map[]
      ensures WellFormed(net, old(Mem())) && Mem() == LayerBatch(net, old(Mem()), xs, ys)
      ensures loss * |ys| as real == Losses(net, SweepTo(net, old(Mem()), xs, net.n).xs, ys, |ys|) as real
      ensures |xs| == 1 || Quiet(net) ==>
        && Follows(net, old(Mem()), Mem(), xs, ys)
        && loss * |ys| as real == Losses(net, Forwards(net, old(Mem()), xs, |xs|).outs, ys, |ys|) as real
      ensures BatchRan(net, pager.c, old(pager.State()), ops, pager.State())
    {
      hide Split, IsLayerMajor, Replayable, ZeroUnit, SweepTo, Losses, Follows, Quiet, WellFormed, Mean, BatchRan,
        LayerBatch, SlicePager.SlicePager.Logged;
      SplitWellFormed(net, keys, flat, resident, rng);
      ghost var start := Mem();
      loss, ops := OffloadBatch(xs, ys);
      if |xs| == 1 || Quiet(net) { ManyMicroBatches(net, start, Mem(), xs, ys); }
      LayerMajorIs(net, start, Mem(), xs, ys);
      NoGradsLeft(net, start, Mem(), xs, ys);
      MeanTimes(Losses(net, SweepTo(net, start, xs, net.n).xs, ys, |ys|), |ys|);
    }

    /** `_offload_batch`; `ops` are the calls of the pager it makes before the batch ends. */
    method OffloadBatch(xs: seq<Tensor>, ys: seq<Tensor>) returns (loss: real, ghost ops: seq<Op>)
      requires Valid() && NoneBusy(pager.State()) && resident.grads == map[] && |xs| == |ys| > 0 && ZeroUnit(net)
      requires forall i: nat | i < net.n - 1 :: Replayable(net, i, |xs|)
      requires Rooms(pager.c, pager.State(), net.n)
      modifies this, pager
      ensures Valid() && NoneBusy(pager.State()) && Rooms(pager.c, pager.State(), net.n)
      ensures IsLayerMajor(net, old(Mem()), Mem(), xs, ys)
      ensures loss == Mean(Losses(net, SweepTo(net, old(Mem()), xs, net.n).xs, ys, |ys|), |ys|)
      ensures BatchRan(net, pager.c, old(pager.State()), ops, pager.State())
    {
      hide SlicePager.SlicePager.Logged, Made, Log.Then, Begun, How, PagerSchedule.StepCall, ToCome, BackwardsBelow,
        ForwardsFrom, Mean;
      ghost var start, st := Mem(), pager.State();
      SplitWellFormed(net, keys, flat, resident, rng);
      assert FitsAt(pager.c, st, 0);
      FirstFetch();
      RoomsKept(pager.c, st, pager.State(), net.n, net.n);
      var cur, stash, rngs := ForwardSweep(xs, start, st);
      hide IsLayerMajor, Split, ZeroUnit, Replayable, SweepTo;
      ghost var mid := pager.State();
      RoomsKept(pager.c, st, mid, net.n, net.n);
      AllButLast(pager.c, mid, net.n);
      BackwardCome(net, pager.c, st, Made(), net.n - 1);
      var grads, total;
      grads, total := LastVisit(cur, ys, start, xs);
      RoomsKept(pager.c, mid, pager.State(), net.n - 1, net.n - 1);
      BackwardSweep(stash, rngs, grads, start, xs, ys, st);
      if pager.c.cpuOpt { CpuRooms(pager.c, st, pager.State()); }
      ops := pager.ops;
      BatchRuns(st, ops);
      EndBatch();
      loss := Mean(total, |ys|);
    }

    /** All calls of a batch but its end are made: what `PagerBatch` says of them holds. */
    lemma BatchRuns(st: PagerState, ops: seq<Op>)
      requires Valid() && ops == pager.ops && ToCome(net, pager.c, st, Made(), [])
      requires Coherent(pager.c, st) && NoneBusy(st) && net.n == |st.pages| && Rooms(pager.c, st, net.n)
      ensures BatchMade(net, pager.c, st, ops, pager.State())
    {
      assert Made().calls + [] == Made().calls;
      hide How, PagerSchedule.BatchCalls;
      BatchWorks(pager.c, st, net.n, How(net, pager.c), ops);
    }
  }

  /** The operations `ops` are a run of the pager from `st`, their calls are those of one batch, none
      of them fails, and `end` is where they lead. */
  ghost predicate BatchMade(net: Net, c: Config, st: PagerState, ops: seq<Op>, end: PagerState) {
    && net.n > 0 && Coherent(c, st) && LegalRun(c, st, ops) && AfterRun(c, st, ops) == end
    && Calls(ops) == PagerSchedule.BatchCalls(How(net, c), net.n) && AllWork(c, st, ops)
  }

  /** And `end_batch`, which does not fail either, leads to `end`. */
  ghost predicate BatchRan(net: Net, c: Config, st: PagerState, ops: seq<Op>, end: PagerState) {
    && Coherent(c, st) && LegalRun(c, st, ops)
    && var mid := AfterRun(c, st, ops);
       BatchMade(net, c, st, ops, mid) && Coherent(c, mid) && Pager.EndBatch(c, mid) == (Done, end)
  }

  lemma StepCallIs(net: Net, c: Config, i: nat)
    requires i < net.n
    ensures PagerSchedule.StepCall(How(net, c), i) ==
            if c.cpuOpt then PagerSchedule.CStep(i) else PagerSchedule.CRelease(i, Owned(net, i) != {})
  {
    hide Owned;
  }

  // ── lemmas for the visits ────────────────────────────────────────────────────

  lemma {:induction false} LayerPrefix(net: Net, i: nat, params: Values, buf: Tensor, rng: Tensor, xs: seq<Tensor>,
                                       k: nat, m: nat)
    requires m < k <= |xs|
    ensures var l, before := RunLayer(net, i, params, buf, rng, xs, k), RunLayer(net, i, params, buf, rng, xs, m);
      && l.tapes[m] == Tape(params, before.buf, before.rng, xs[m]) && l.ys[m] == net.run(i, l.tapes[m]).y
    ensures var after := RunLayer(net, i, params, buf, rng, xs, m + 1);
      var out := net.run(i, RunLayer(net, i, params, buf, rng, xs, k).tapes[m]);
      after.buf == out.buf && after.rng == out.rng
  {
    if m < k - 1 { LayerPrefix(net, i, params, buf, rng, xs, k - 1, m); }
  }

  lemma LayerStarts(net: Net, i: nat, params: Values, buf: Tensor, rng: Tensor, xs: seq<Tensor>)
    ensures RunLayer(net, i, params, buf, rng, xs, 0) == Layer([], [], buf, rng)
  {
  }

  lemma SameGrads(net: Net, i: nat, a: Tape, b: Tape, gm: Tensor, g: Values, ps: set<Param>, sg: Values)
    requires SameBack(net, i, a, b)
    ensures net.vjpX(i, a, gm) == net.vjpX(i, b, gm)
    ensures PageGrad(net, i, a, gm, g) == PageGrad(net, i, b, gm, g)
    ensures SharedGrad(net, i, ps, a, gm, sg) == SharedGrad(net, i, ps, b, gm, sg)
  {
    assert net.vjpX(i, a, gm) == net.vjpX(i, b, gm);
    assert forall p: Param :: net.vjpP(i, a, gm, p) == net.vjpP(i, b, gm, p);
    hide SameBack;
    SameMap(SharedGrad(net, i, ps, a, gm, sg), SharedGrad(net, i, ps, b, gm, sg));
  }

  lemma NothingShared(net: Net, keys: set<Param>, i: nat, res: Residents)
    requires Shared(net, keys) == {} && res.params.Keys == res.opt.Keys == Shared(net, keys)
    requires res.grads.Keys <= Shared(net, keys)
    ensures StepShared(net, i, res) == res
  {
    hide Shared, Owned;
    var after := StepShared(net, i, res);
    SameMap(after.params, res.params);
    SameMap(after.opt, res.opt);
    SameMap(after.grads, res.grads);
  }

  /** The pages still fit the residents after the residents' step. */
  lemma ResidentsStep(net: Net, keys: set<Param>, flat: seq<View>, res: Residents, i: nat, sg: Values)
    requires Split(net, keys, flat, res) && i < net.n && sg.Keys <= Shared(net, keys)
    ensures res.params.Keys == res.opt.Keys == Shared(net, keys)
    ensures Split(net, keys, flat, StepShared(net, i, res.(grads := sg)))
  {
    hide Shared, Owned, FirstUser, Users, Untied;
    StepKeys(net, i, flat[i], map[], res.(grads := sg));
  }

  lemma StepKeys(net: Net, i: nat, v: View, g: Values, res: Residents)
    ensures StepPage(net, v.p, v.s, g).0.Keys == v.p.Keys && StepPage(net, v.p, v.s, g).1.Keys == v.s.Keys
    ensures var after := StepShared(net, i, res);
      after.params.Keys == res.params.Keys && after.opt.Keys == res.opt.Keys && after.grads.Keys <= res.grads.Keys
  {
  }

  lemma NothingPaged(net: Net, keys: set<Param>, flat: seq<View>, res: Residents, i: nat, g: Values)
    requires Split(net, keys, flat, res) && i < net.n && Owned(net, i) == {} && g.Keys == Paged(net, i)
    ensures StepPage(net, flat[i].p, flat[i].s, g) == (flat[i].p, flat[i].s)
  {
    assert SplitAt(net, keys, flat, i);
    forall p | p in Paged(net, i) ensures p in Owned(net, i) { UntiedUser(net, p, i); }
    assert Paged(net, i) == {};
  }

  /** The tapes of slice `i`, and the buffers its forwards left. */
  ghost predicate LayerOf(net: Net, i: nat, start: Memory, buf0: Tensor, rng0: Tensor, xs: seq<Tensor>,
                          tapes: seq<Tape>, buf: Tensor) {
    var l := RunLayer(net, i, Restrict(start.params, net.uses(i)), buf0, rng0, xs, |xs|);
    tapes == l.tapes && buf == l.buf
  }

  lemma SharedKeys(net: Net, keys: set<Param>, flat: seq<View>, res: Residents, i: nat, tapes: seq<Tape>,
                   gs: seq<Tensor>, m: nat, g: Values, sg: Values)
    requires Split(net, keys, flat, res) && i < net.n && m <= |tapes| == |gs|
    requires Accumulated(net, i, tapes, gs, m, g, res.grads, sg)
    ensures sg.Keys <= Shared(net, keys)
  {
    hide Untied, FirstUser, Users, Acc, LayerAdds;
    assert SplitAt(net, keys, flat, i);
    forall p | p in sg ensures p in Shared(net, keys) {
      assert SharedSum(net, i, tapes, gs, m, res.grads, sg, p);
    }
  }

  lemma AllVisited(net: Net, keys: set<Param>, flat: seq<View>, res: Residents, rng: Tensor, start: Memory,
                   tapes: seq<seq<Tape>>, gs: seq<Tensor>, i: nat, b: Tensor, g: Values, sg: Values, flat': seq<View>,
                   res': Residents)
    requires Split(net, keys, flat, res) && Split(net, keys, flat', res') && i < net.n && WellFormed(net, start)
    requires Swept(net, tapes, gs) && |gs| > 0 && Stepped(net, i, flat, res, b, g, sg, flat', res')
    requires Accumulated(net, i, tapes[i], BackTo(net, tapes, gs, i + 1), |gs|, g, res.grads, sg)
    requires AllStanding(net, start, MemOf(net, keys, flat, res, rng), tapes, gs, i + 1)
    ensures AllStanding(net, start, MemOf(net, keys, flat', res', rng), tapes, gs, i)
  {
    hide FirstUser, Users, Untied, Owned, Acc, BackTo, LayerAdds, Accumulated, ParamOf, OptOf, Stepped, Split, Adds,
      Visited;
    forall p | p in start.params ensures Standing(net, start, MemOf(net, keys, flat', res', rng), tapes, gs, p, i) {
      assert Standing(net, start, MemOf(net, keys, flat, res, rng), tapes, gs, p, i + 1);
      StepVisits(net, keys, flat, res, rng, tapes, gs, i, b, g, sg, flat', res', rng, p);
      VisitStands(net, start, MemOf(net, keys, flat, res, rng), MemOf(net, keys, flat', res', rng), tapes, gs, p, i);
    }
  }

  lemma SameBufs(net: Net, keys: set<Param>, flat: seq<View>, res: Residents, rng: Tensor, i: nat, b: Tensor,
                 flat': seq<View>, res': Residents)
    requires Split(net, keys, flat, res) && Split(net, keys, flat', res') && i < net.n
    requires flat' == flat[i := flat'[i]] && flat'[i].b == b
    ensures MemOf(net, keys, flat', res', rng).bufs == MemOf(net, keys, flat, res, rng).bufs[i := b]
  {
  }

  lemma AllButLast(c: Config, st: PagerState, n: nat)
    requires 0 < n <= |st.pages| == |c.sizes| && Rooms(c, st, n)
    ensures Rooms(c, st, n - 1)
  {
    forall j: nat | j < n - 1 ensures FitsAt(c, st, j) { assert FitsAt(c, st, j); }
  }

  /** What the forward sweep keeps of slice `j`: its inputs, and the RNG state of each forward. */
  ghost predicate Kept(net: Net, start: Memory, xs: seq<Tensor>, j: nat, stash: seq<Tensor>, rngs: seq<Tensor>)
    requires j + 1 < net.n == |start.bufs|
  {
    && stash == SweepTo(net, start, xs, j).xs && |rngs| == |xs|
    && forall m | 0 <= m < |xs| :: rngs[m] == SweepTo(net, start, xs, j + 1).tapes[j][m].rng
  }

  lemma SweepStarts(net: Net, start: Memory, xs: seq<Tensor>)
    requires net.n == |start.bufs|
    ensures SweepTo(net, start, xs, 0) == Sweep([], xs, start.bufs, start.rng)
  {
  }

  lemma SweepNext(net: Net, start: Memory, xs: seq<Tensor>, i: nat)
    requires i < net.n == |start.bufs|
    ensures var s := SweepTo(net, start, xs, i);
      var l := RunLayer(net, i, Restrict(start.params, net.uses(i)), s.bufs[i], s.rng, s.xs, |xs|);
      SweepTo(net, start, xs, i + 1) == Sweep(s.tapes + [l.tapes], l.ys, s.bufs[i := l.buf], l.rng)
  {
  }

  lemma {:induction false} LaterSweep(net: Net, start: Memory, xs: seq<Tensor>, i: nat, k: nat)
    requires i < k <= net.n == |start.bufs|
    ensures SweepTo(net, start, xs, k).tapes[i] == SweepTo(net, start, xs, i + 1).tapes[i]
    ensures SweepTo(net, start, xs, k).bufs[i] == SweepTo(net, start, xs, i + 1).bufs[i]
  {
    hide RunLayer, Restrict;
    if i + 1 < k {
      LaterSweep(net, start, xs, i, k - 1);
      SweepNext(net, start, xs, k - 1);
      hide SweepTo;
    }
  }

  lemma KeptLayer(net: Net, start: Memory, xs: seq<Tensor>, i: nat, stash: seq<Tensor>, rngs: seq<Tensor>)
    requires i + 1 < net.n == |start.bufs| && Kept(net, start, xs, i, stash, rngs)
    ensures var s, before := SweepTo(net, start, xs, net.n), SweepTo(net, start, xs, i);
      && LayerOf(net, i, start, before.bufs[i], before.rng, stash, s.tapes[i], s.bufs[i])
      && |stash| == |rngs| == |xs| && forall m | 0 <= m < |xs| :: rngs[m] == s.tapes[i][m].rng
  {
    SweepNext(net, start, xs, i);
    LaterSweep(net, start, xs, i, net.n);
    hide SweepTo, RunLayer;
  }

  lemma LayerMajorHolds(net: Net, start: Memory, mem: Memory, xs: seq<Tensor>, ys: seq<Tensor>)
    requires WellFormed(net, start) && |xs| == |ys| > 0 && WellFormed(net, mem)
    requires var s := SweepTo(net, start, xs, net.n);
      var gs := LossGrads(net, s.xs, ys);
      Swept(net, s.tapes, gs) && AllStanding(net, start, mem, s.tapes, gs, 0) && mem.bufs == s.bufs && mem.rng == s.rng
    ensures IsLayerMajor(net, start, mem, xs, ys)
  {
  }

  lemma LastSweep(net: Net, start: Memory, xs: seq<Tensor>)
    requires 0 < net.n == |start.bufs|
    ensures var before, after := SweepTo(net, start, xs, net.n - 1), SweepTo(net, start, xs, net.n);
      var l := RunLayer(net, net.n - 1, Restrict(start.params, net.uses(net.n - 1)), before.bufs[net.n - 1],
                        before.rng, before.xs, |xs|);
      && after.tapes[net.n - 1] == l.tapes && after.xs == l.ys && after.bufs == before.bufs[net.n - 1 := l.buf]
      && after.rng == l.rng
  {
  }

  lemma RngIsNotStanding(net: Net, keys: set<Param>, flat: seq<View>, res: Residents, rng: Tensor, rng': Tensor,
                         start: Memory, tapes: seq<seq<Tape>>, gs: seq<Tensor>, i: nat)
    requires Split(net, keys, flat, res) && Swept(net, tapes, gs) && i <= net.n && start.opt.Keys == start.params.Keys
    requires AllStanding(net, start, MemOf(net, keys, flat, res, rng), tapes, gs, i)
    ensures AllStanding(net, start, MemOf(net, keys, flat, res, rng'), tapes, gs, i)
  {
    hide FirstUser, Users, Adds, Acc;
    var a, b := MemOf(net, keys, flat, res, rng), MemOf(net, keys, flat, res, rng');
    forall p | p in start.params ensures Standing(net, start, b, tapes, gs, p, i) {
      assert Standing(net, start, a, tapes, gs, p, i);
    }
  }

  /** One batch, a layer at a time: every parameter stepped once on everything the schedule adds to
      it, no gradient left. */
  ghost predicate IsLayerMajor(net: Net, start: Memory, mem: Memory, xs: seq<Tensor>, ys: seq<Tensor>) {
    && WellFormed(net, start) && |xs| == |ys| > 0
    && var s := SweepTo(net, start, xs, net.n);
       var gs := LossGrads(net, s.xs, ys);
       && Swept(net, s.tapes, gs) && AllStanding(net, start, mem, s.tapes, gs, 0)
       && mem.bufs == s.bufs && mem.rng == s.rng && WellFormed(net, mem)
  }

  // ── the offload batch is the plain one ───────────────────────────────────────

  lemma StandsAfter(net: Net, start: Memory, mem: Memory, xs: seq<Tensor>, ys: seq<Tensor>, p: Param)
    requires IsLayerMajor(net, start, mem, xs, ys) && p in start.params
    ensures var s := SweepTo(net, start, xs, net.n);
      var gs := LossGrads(net, s.xs, ys);
      && p in mem.params && p in mem.opt && p !in mem.grads
      && (mem.params[p], mem.opt[p]) == After(net, start, p, Adds(net, s.tapes, gs, p, 0))
  {
    hide SweepTo, Adds, After;
    var s := SweepTo(net, start, xs, net.n);
    assert Standing(net, start, mem, s.tapes, LossGrads(net, s.xs, ys), p, 0);
  }

  lemma NoGradsLeft(net: Net, start: Memory, mem: Memory, xs: seq<Tensor>, ys: seq<Tensor>)
    requires IsLayerMajor(net, start, mem, xs, ys)
    ensures mem.grads == map[] && mem.params.Keys == mem.opt.Keys == start.params.Keys
  {
    hide SweepTo, Adds, After;
    forall p | p in start.params ensures p !in mem.grads { StandsAfter(net, start, mem, xs, ys, p); }
  }

  /** With one micro-batch the offload batch leaves parameters, optimizer state, buffers, RNG state
      and loss as the plain batch does, random slices, shared parameters and any `add` included. */
  lemma OneMicroBatch(net: Net, start: Memory, mem: Memory, x: Tensor, y: Tensor)
    requires IsLayerMajor(net, start, mem, [x], [y])
    ensures mem == Central(net, start, [x], [y])
    ensures Losses(net, SweepTo(net, start, [x], net.n).xs, [y], 1) ==
        Losses(net, Forwards(net, start, [x], 1).outs, [y], 1)
  {
    var one := ForwardTo(net, start.params, start.bufs, start.rng, x, net.n);
    var f := Forwards(net, start, [x], 1);
    assert Forwards(net, start, [x], 0) == Passes([], [], start.bufs, start.rng);
    assert f == Passes([one.tapes], [one.x], one.bufs, one.rng);
    OneSweep(net, start, x, net.n);
    NoGradsLeft(net, start, mem, [x], [y]);
    forall p | p in start.params
      ensures (mem.params[p], mem.opt[p]) == After(net, start, p, AllContribs(net, f, [y], p, 1))
    {
      OneSame(net, start, mem, x, y, p);
    }
    IsCentral(net, start, mem, [x], [y]);
  }

  lemma OneSame(net: Net, start: Memory, mem: Memory, x: Tensor, y: Tensor, p: Param)
    requires IsLayerMajor(net, start, mem, [x], [y]) && p in start.params
    ensures var one := ForwardTo(net, start.params, start.bufs, start.rng, x, net.n);
      (mem.params[p], mem.opt[p]) ==
        After(net, start, p, AllContribs(net, Passes([one.tapes], [one.x], one.bufs, one.rng), [y], p, 1))
  {
    hide After, Contribs, ForwardTo, SweepTo, Adds;
    var one := ForwardTo(net, start.params, start.bufs, start.rng, x, net.n);
    var f := Passes([one.tapes], [one.x], one.bufs, one.rng);
    var g := net.lossGrad(one.x, y, 1);
    OneSweep(net, start, x, net.n);
    StandsAfter(net, start, mem, [x], [y], p);
    var s := SweepTo(net, start, [x], net.n);
    assert LossGrads(net, s.xs, [y]) == [g];
    OneAdds(net, s.tapes, one.tapes, g, p, 0);
    assert AllContribs(net, f, [y], p, 0) == [];
    assert AllContribs(net, f, [y], p, 1) == [] + Contribs(net, one.tapes, g, p, 0);
    assert [] + Contribs(net, one.tapes, g, p, 0) == Contribs(net, one.tapes, g, p, 0);
  }

  lemma SweepOnGrid(net: Net, start: Memory, xs: seq<Tensor>, ys: seq<Tensor>)
    requires Quiet(net) && 0 < |xs| == |ys| && 0 < net.n == |start.bufs|
    ensures var s := SweepTo(net, start, xs, net.n);
      && OnGrid(net, start, xs, ys, s.tapes, LossGrads(net, s.xs, ys)) && s.rng == start.rng
      && (forall i: nat | i < net.n :: s.bufs[i] == BufAt(net, start, xs, |xs|, i))
      && (forall m: nat | m < |xs| :: s.xs[m] == Output(net, start, xs, m, net.n - 1))
  {
    hide SweepTo, Cell, BufAt, Output, Quiet;
    SweepIsGrid(net, start, xs, net.n);
    var s := SweepTo(net, start, xs, net.n);
    var gs := LossGrads(net, s.xs, ys);
    forall m: nat | m < |xs| ensures gs[m] == GradIn(net, start, xs, ys, m, net.n) {
      assert s.xs[m] == Output(net, start, xs, m, net.n - 1);
    }
    hide GradIn, LossGrads;
  }

  /** With several micro-batches and slices that draw nothing: parameter by parameter what the
      uncut network leaves, for any `add` if one slice uses it, else if the order of a sum does
      not matter. */
  lemma SameParam(net: Net, start: Memory, mem: Memory, xs: seq<Tensor>, ys: seq<Tensor>, p: Param)
    requires Quiet(net) && IsLayerMajor(net, start, mem, xs, ys) && p in start.params
    requires (Commutes(net) || Untied(net, p))
    ensures p in mem.params && p in mem.opt
    ensures (mem.params[p], mem.opt[p]) ==
        After(net, start, p, AllContribs(net, Forwards(net, start, xs, |xs|), ys, p, |ys|))
  {
    hide SweepTo, Adds, Forwards, AllContribs, GridContribs, Commutes, Untied, OnGrid, Acc, IsLayerMajor, LossGrads;
    LayerMajorFits(net, start, mem, xs, ys);
    var s := SweepTo(net, start, xs, net.n);
    SweepOnGrid(net, start, xs, ys);
    StandsAfter(net, start, mem, xs, ys, p);
    SameSum(net, start, xs, ys, s.tapes, LossGrads(net, s.xs, ys), p);
    ContribsAreGrid(net, start, xs, ys, p, |xs|);
  }

  lemma LayerMajorFits(net: Net, start: Memory, mem: Memory, xs: seq<Tensor>, ys: seq<Tensor>)
    requires IsLayerMajor(net, start, mem, xs, ys)
    ensures WellFormed(net, start) && 0 < |xs| == |ys| && 0 < net.n == |start.bufs|
    ensures var s := SweepTo(net, start, xs, net.n);
      Swept(net, s.tapes, LossGrads(net, s.xs, ys)) && mem.bufs == s.bufs && mem.rng == s.rng
  {
  }

  /** What the schedule leaves is the calculation of `LayerMajor`. */
  lemma LayerMajorIs(net: Net, start: Memory, mem: Memory, xs: seq<Tensor>, ys: seq<Tensor>)
    requires IsLayerMajor(net, start, mem, xs, ys)
    ensures WellFormed(net, start) && mem == LayerBatch(net, start, xs, ys)
  {
    var b := LayerBatch(net, start, xs, ys);
    NoGradsLeft(net, start, mem, xs, ys);
    forall p | p in start.params
      ensures p in mem.params && p in mem.opt && mem.params[p] == b.params[p] && mem.opt[p] == b.opt[p]
    {
      StandsAfter(net, start, mem, xs, ys, p);
    }
    hide SweepTo, Adds, After;
    SameMap(mem.params, b.params);
    SameMap(mem.opt, b.opt);
  }

  /** In a batch of `k` micro-batches it makes no difference to `p` whether gradients are added slice by
      slice or micro-batch by micro-batch: there is one micro-batch, or one slice uses `p`, or sums do
      not depend on their order. */
  ghost predicate LayerFree(net: Net, k: nat, p: Param) {
    k == 1 || Untied(net, p) || Commutes(net)
  }

  /** `mem` is what the uncut network leaves, but perhaps for parameters whose gradients it adds in an
      order that matters. */
  ghost predicate Follows(net: Net, start: Memory, mem: Memory, xs: seq<Tensor>, ys: seq<Tensor>)
    requires WellFormed(net, start) && |xs| == |ys| > 0
  {
    var c := Central(net, start, xs, ys);
    && mem.params.Keys == c.params.Keys == start.params.Keys && mem.opt.Keys == c.opt.Keys == start.params.Keys
    && mem.grads == c.grads && mem.bufs == c.bufs && mem.rng == c.rng
    && forall p | p in start.params && LayerFree(net, |xs|, p) :: mem.params[p] == c.params[p] && mem.opt[p] == c.opt[p]
  }

  lemma AllFollow(net: Net, start: Memory, mem: Memory, xs: seq<Tensor>, ys: seq<Tensor>)
    requires WellFormed(net, start) && |xs| == |ys| > 0 && Follows(net, start, mem, xs, ys)
    requires forall p | p in start.params :: LayerFree(net, |xs|, p)
    ensures mem == Central(net, start, xs, ys)
  {
    hide Central, LayerFree;
    var c := Central(net, start, xs, ys);
    SameMap(mem.params, c.params);
    SameMap(mem.opt, c.opt);
  }

  /** With one micro-batch, or slices that draw nothing: the uncut network's batch, parameter by
      parameter wherever the order of the sum makes no difference. */
  lemma ManyMicroBatches(net: Net, start: Memory, mem: Memory, xs: seq<Tensor>, ys: seq<Tensor>)
    requires (|xs| == 1 || Quiet(net)) && IsLayerMajor(net, start, mem, xs, ys)
    ensures WellFormed(net, start) && |xs| == |ys| > 0 && Follows(net, start, mem, xs, ys)
    ensures Losses(net, SweepTo(net, start, xs, net.n).xs, ys, |ys|) ==
        Losses(net, Forwards(net, start, xs, |xs|).outs, ys, |ys|)
  {
    hide SweepTo, Adds, Forwards, AllContribs, Commutes, Untied, IsLayerMajor, BufAt, Output, Losses, OnGrid, Cell,
      After;
    LayerMajorFits(net, start, mem, xs, ys);
    NoGradsLeft(net, start, mem, xs, ys);
    CentralHolds(net, start, xs, ys);
    if |xs| == 1 {
      assert xs == [xs[0]] && ys == [ys[0]];
      OneMicroBatch(net, start, mem, xs[0], ys[0]);
    } else {
      var s, f := SweepTo(net, start, xs, net.n), Forwards(net, start, xs, |xs|);
      SweepOnGrid(net, start, xs, ys);
      PassesAreGrid(net, start, xs, |xs|);
      assert mem.bufs == f.bufs && s.xs == f.outs;
      hide Central;
      forall p | p in start.params && LayerFree(net, |xs|, p)
        ensures mem.params[p] == Central(net, start, xs, ys).params[p]
        ensures mem.opt[p] == Central(net, start, xs, ys).opt[p]
      {
        SameParam(net, start, mem, xs, ys, p);
        CentralAt(net, start, xs, ys, p);
      }
    }
  }

  lemma CentralHolds(net: Net, start: Memory, xs: seq<Tensor>, ys: seq<Tensor>)
    requires WellFormed(net, start) && |xs| == |ys| > 0
    ensures var c, f := Central(net, start, xs, ys), Forwards(net, start, xs, |xs|);
      && c.params.Keys == c.opt.Keys == start.params.Keys && c.grads == map[] && c.bufs == f.bufs && c.rng == f.rng
  {
    hide Forwards, AllContribs, After;
  }

  lemma CentralAt(net: Net, start: Memory, xs: seq<Tensor>, ys: seq<Tensor>, p: Param)
    requires WellFormed(net, start) && |xs| == |ys| > 0 && p in start.params
    ensures var c := Central(net, start, xs, ys);
      && p in c.params && p in c.opt
      && (c.params[p], c.opt[p]) == After(net, start, p, AllContribs(net, Forwards(net, start, xs, |xs|), ys, p, |ys|))
  {
    hide Forwards, AllContribs, After;
  }
}
