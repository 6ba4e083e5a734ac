/** The optimizer step of a slice: its wait for replica gradients never blocks, it steps on the sum
    over all uses and micro-batches, and pushing the values keeps the invariant. */
module PipelineOptimize {
  import opened Network
  import opened Wavefront
  import opened Protocol
  import opened PipelineInvariant
  import opened PipelineFrames
  import opened Sequences
  import opened PipelineSync

  // ── the wait for the replicas ────────────────────────────────────────────────

  lemma {:induction false} EveryoneSent(d: Data, s: System, pos: seq<Pos>, p: Param, k: nat)
    requires Good(d) && |s.ws| == |pos| == d.net.n == |d.mem.bufs| && k <= d.net.n && 0 < K(d) == |d.batch.ys|
    requires forall j: nat | k <= j < d.net.n :: Posted(d, s.ws[j], pos[j], p)
    ensures PostedGrads(d, s, pos, p, k) ==
            GradsOf(d.net, d.mem, d.batch.xs, d.batch.ys, Users(d.net, p, k), p)
    decreases d.net.n - k
  {
    hide Good, LocalGrad, Posted;
    if k < d.net.n {
      EveryoneSent(d, s, pos, p, k + 1);
      var us := Users(d.net, p, k + 1);
      assert us + [] == us && (us + [k])[..|us|] == us;
    }
  }

  lemma {:induction false} CountIsUsers(net: Net, p: Param, k: nat)
    requires k <= net.n
    ensures CountUsers(net, p, k) == |Users(net, p, k)|
    decreases net.n - k
  {
    if k < net.n { CountIsUsers(net, p, k + 1); }
  }

  /** What the replicas above slice `i` add to `p`, in the order the owner receives it. */
  ghost function Rest(d: Data, i: nat, p: Param): (gs: seq<Tensor>)
    requires Good(d) && i < d.net.n
    ensures |gs| == ReplicaCount(d.net, p, i)
  {
    CountIsUsers(d.net, p, i + 1);
    GradsOf(d.net, d.mem, d.batch.xs, d.batch.ys, Users(d.net, p, i + 1), p)
  }

  /** All of it is there by the time slice `i` has finished its backwards. */
  lemma AllSentTo(d: Data, s: System, pos: seq<Pos>, i: nat, p: Param)
    requires Inv(d, s, pos) && i < d.net.n && s.ws[i].phase.Syncing? && pos[i].b == K(d) && p in Owned(d.net, i)
    ensures TiedList(s.ws[i], (p, d.batch.id)) == Rest(d, i, p)
  {
    hide Good, LocalAt, HistoryAt, LinkAt, ParamsOk, DriverOk, PostedGrads, LocalGrad, Owned, CountUsers, GradsOf,
      Users;
    GoodFacts(d);
    assert TiedOk(d, s, pos, i);
    forall j: nat | i + 1 <= j < d.net.n ensures Posted(d, s.ws[j], pos[j], p) {
      AbovePosted(d, s, pos, i, j, p);
    }
    EveryoneSent(d, s, pos, p, i + 1);
  }

  lemma SyncingAt(d: Data, s: System, pos: seq<Pos>, i: nat)
    requires Inv(d, s, pos) && i < d.net.n && s.ws[i].phase.Syncing?
    ensures pos[i].b == K(d) && d.ids.full(s.ws[i].phase.id) == d.batch.id
    ensures LocalOk(d, i, s.ws[i], pos[i]) && HistoryOk(d, i, s.ws[i], pos[i])
  {
    hide Quiet, WellFormed, MemAfter, Cell, GradIn, HistoryOk, LinkAt, ParamsOk, TiedOk, DriverOk;
    assert LocalAt(d, s, pos, i) && HistoryAt(d, s, pos, i);
  }

  /** The owner's wait never blocks: when it reaches its step, every replica's gradient for this
      batch is already queued. */
  lemma NeverBlocks(d: Data, s: System, pos: seq<Pos>, i: nat)
    requires Inv(d, s, pos) && i < d.net.n && s.ws[i].phase.Syncing?
    ensures TiedReady(d.net, i, s.ws[i], d.ids.full(s.ws[i].phase.id))
  {
    hide Good, LocalAt, HistoryAt, LinkAt, ParamsOk, DriverOk, TiedOk, LocalOk, HistoryOk, Owned, CountUsers;
    SyncingAt(d, s, pos, i);
    forall p | p in Owned(d.net, i) ensures TiedList(s.ws[i], (p, d.batch.id)) == Rest(d, i, p) {
      AllSentTo(d, s, pos, i, p);
    }
  }

  // ── the step ─────────────────────────────────────────────────────────────────

  /** The gradient the owner steps on is the sum over all uses of the parameter. */
  lemma StepsOnAll(d: Data, i: nat, w: Worker, p: Param)
    requires Good(d) && i < d.net.n && p in Owned(d.net, i)
    requires w.grads == GradMap(d, i, Owned(d.net, i), K(d))
    requires TiedList(w, (p, d.batch.id)) == Rest(d, i, p)
    ensures p in WithReplicas(d.net, i, w, d.batch.id)
    ensures Owner(d.net, p) < d.net.n == |d.mem.bufs| && 0 < K(d) == |d.batch.ys|
    ensures WithReplicas(d.net, i, w, d.batch.id)[p] == SyncedGrad(d.net, d.mem, d.batch.xs, d.batch.ys, p)
  {
    hide Sound, Quiet, MemAfter, LocalGrad, GradsOf, Users, CountUsers, Acc;
  }

  /** Slice `i` after its step. */
  ghost function Optimized(d: Data, i: nat, w: Worker): Worker
    requires Good(d) && i < d.net.n && w.phase.Syncing?
  {
    w.(params := map p | p in w.params ::
         if p in Owned(d.net, i) && p in d.mem.params then SyncedStep(d.net, d.mem, d.batch.xs, d.batch.ys, p).0
         else w.params[p],
       opt := OptOf(d, i, true), grads := map[], tied := map[], stepped := w.stepped + [d.batch.id],
       phase := Pushing(w.phase.id, w.phase.g, Copies(d.net, i)))
  }

  /** Slice `i` about to step: its parameters and optimizer state are the old ones, its gradients
      complete, and every replica's gradient is there. */
  ghost predicate Ready(d: Data, i: nat, w: Worker)
    requires Good(d) && i < d.net.n
  {
    && w.phase.Syncing? && d.ids.full(w.phase.id) == d.batch.id
    && w.params.Keys == d.net.uses(i) && w.opt == OptOf(d, i, false)
    && (forall p | p in Owned(d.net, i) :: p in w.params && p in d.mem.params && w.params[p] == d.mem.params[p])
    && w.grads == GradMap(d, i, Owned(d.net, i), K(d))
    && (forall p | p in Owned(d.net, i) :: TiedList(w, (p, d.batch.id)) == Rest(d, i, p))
    && (forall q | q in w.tied :: q.0 in Owned(d.net, i) && q.1 == d.batch.id)
  }

  lemma IsReady(d: Data, s: System, pos: seq<Pos>, i: nat)
    requires Inv(d, s, pos) && i < d.net.n && s.ws[i].phase.Syncing? && s.ws[i].phase.left == {}
    ensures Ready(d, i, s.ws[i])
  {
    hide Good, LocalAt, HistoryAt, LinkAt, DriverOk, HistoryOk, Rest, MemAfter;
    GoodFacts(d);
    SyncingAt(d, s, pos, i);
    forall p | p in Owned(d.net, i) ensures TiedList(s.ws[i], (p, d.batch.id)) == Rest(d, i, p) {
      AllSentTo(d, s, pos, i, p);
    }
    assert ParamsOk(d, s, pos, i) && TiedOk(d, s, pos, i);
    assert Holding(d, i, s.ws[i], pos[i]) == Owned(d.net, i);
  }

  lemma StepParam(d: Data, i: nat, w: Worker, p: Param)
    requires Good(d) && i < d.net.n && Ready(d, i, w) && p in Owned(d.net, i)
    ensures p in w.params && p in w.opt && p in w.grads && p in d.mem.params
    ensures p in WithReplicas(d.net, i, w, d.batch.id)
    ensures d.net.step(p, w.params[p], w.opt[p], WithReplicas(d.net, i, w, d.batch.id)[p]) ==
            SyncedStep(d.net, d.mem, d.batch.xs, d.batch.ys, p)
  {
    hide Sound, Quiet, MemAfter, LocalGrad, Rest, WithReplicas, SyncedGrad;
    StepsOnAll(d, i, w, p);
  }

  lemma StepIs(d: Data, i: nat, w: Worker)
    requires Good(d) && i < d.net.n && Ready(d, i, w)
    ensures OptimizeStep(d.net, i, d.ids, w) == Optimized(d, i, w)
  {
    hide Sound, Quiet, MemAfter, LocalGrad, Rest, WithReplicas, SyncedGrad, SyncedStep;
    var w', v := OptimizeStep(d.net, i, d.ids, w), Optimized(d, i, w);
    forall p | p in Owned(d.net, i)
      ensures p in w'.params && p in v.params && w'.params[p] == v.params[p]
      ensures p in w'.opt && p in v.opt && w'.opt[p] == v.opt[p]
    {
      StepParam(d, i, w, p);
    }
    SameMap(w'.params, v.params);
    SameMap(w'.opt, v.opt);
    StepClears(d, i, w);
  }

  /** No gradient, own or sent by a replica, is left for the next batch. */
  lemma StepClears(d: Data, i: nat, w: Worker)
    requires Good(d) && i < d.net.n && Ready(d, i, w)
    ensures OptimizeStep(d.net, i, d.ids, w).grads == map[]
    ensures OptimizeStep(d.net, i, d.ids, w).tied == map[]
  {
    hide Sound, Quiet, MemAfter, LocalGrad, Rest, Owned;
    assert WithReplicas(d.net, i, w, d.batch.id).Keys <= Owned(d.net, i);
  }

  // ── the step keeps the invariant ─────────────────────────────────────────────

  lemma OptimizedLocal(d: Data, i: nat, w: Worker, p: Pos)
    requires Good(d) && i < d.net.n && LocalOk(d, i, w, p) && HistoryOk(d, i, w, p)
    requires Ready(d, i, w) && p.b == K(d)
    ensures LocalOk(d, i, Optimized(d, i, w), p) && HistoryOk(d, i, Optimized(d, i, w), p)
    ensures Returned(Optimized(d, i, w), p) == Returned(w, p)
  {
    hide Sound, Quiet, WellFormed, MemAfter, Cell, Output, GradIn, LocalGrad, SyncedStep, Owned, Copies;
    var w' := Optimized(d, i, w);
    assert Holding(d, i, w', p) == {};
    assert w'.grads == GradMap(d, i, {}, p.b);
    assert w'.params.Keys == w.params.Keys;
    AppendAssoc(BatchIds(d.past), [], [d.batch.id]);
  }

  /** The values slice `i` owns are new on slice `i`, and nowhere else yet. */
  lemma OptimizedParams(d: Data, s: System, pos: seq<Pos>, i: nat, j: nat)
    requires Inv(d, s, pos) && i < d.net.n && j < d.net.n && Ready(d, i, s.ws[i]) && pos[i].b == K(d)
    ensures ParamsOk(d, s.(ws := s.ws[i := Optimized(d, i, s.ws[i])]), pos, j)
  {
    hide Sound, Quiet, MemAfter, SyncedStep, LocalAt, HistoryAt, LinkAt, TiedOk, DriverOk, Rest, GradMap, OptOf;
    var s' := s.(ws := s.ws[i := Optimized(d, i, s.ws[i])]);
    assert ParamsOk(d, s, pos, j);
    forall q | q in d.net.uses(j)
      ensures Owner(d.net, q) <= j
      ensures New(d, s', pos, q, j) == (New(d, s, pos, q, j) || (j == i && q in Owned(d.net, i)))
    {
      OptimizedNew(d, s, pos, i, j, q);
    }
  }

  lemma OptimizedNew(d: Data, s: System, pos: seq<Pos>, i: nat, j: nat, q: Param)
    requires Good(d) && |s.ws| == |pos| == d.net.n && i < d.net.n && j < d.net.n && s.ws[i].phase.Syncing?
    requires pos[i].b == K(d)
    requires q in d.net.uses(j) && Owner(d.net, q) <= j
    ensures New(d, s.(ws := s.ws[i := Optimized(d, i, s.ws[i])]), pos, q, j) ==
            (New(d, s, pos, q, j) || (j == i && q in Owned(d.net, i)))
  {
    hide Good;
  }

  lemma OptimizedTied(d: Data, s: System, pos: seq<Pos>, i: nat, o: nat)
    requires Inv(d, s, pos) && i < d.net.n && o < d.net.n
    requires s.ws[i].phase.Syncing? && s.ws[i].phase.left == {} && pos[i].b == K(d)
    ensures TiedOk(d, s.(ws := s.ws[i := Optimized(d, i, s.ws[i])]), pos, o)
  {
    hide Good, LocalAt, HistoryAt, LinkAt, ParamsOk, DriverOk, OptOf, PostedGrads;
    var s' := s.(ws := s.ws[i := Optimized(d, i, s.ws[i])]);
    assert TiedOk(d, s, pos, o);
    forall q | q in Owned(d.net, o)
      ensures PostedGrads(d, s', pos, q, o + 1) == PostedGrads(d, s, pos, q, o + 1)
    {
      PostedSame(d, s, pos, s', pos, q, o + 1);
    }
  }

  lemma OptimizedLinks(d: Data, s: System, pos: seq<Pos>, i: nat, j: nat)
    requires Inv(d, s, pos) && i < d.net.n && j < d.net.n && s.ws[i].phase.Syncing?
    ensures LinkAt(d, s.(ws := s.ws[i := Optimized(d, i, s.ws[i])]), pos, j)
  {
    hide Good, LocalAt, HistoryAt, TiedOk, ParamsOk, DriverOk, OptOf, LinkOk;
    var s' := s.(ws := s.ws[i := Optimized(d, i, s.ws[i])]);
    assert LinkAt(d, s, pos, j);
    LinkSame(d, j, s.ws[j], s'.ws[j], pos[j], SentF(s, pos, j), SentB(s, pos, j), SentL(s, j));
  }

  lemma OptimizeOk(d: Data, s: System, pos: seq<Pos>, i: nat)
    requires Inv(d, s, pos) && Enabled(d.net, d.ids, s, Optimize(i))
    ensures Inv(d, Apply(d.net, d.ids, s, Optimize(i)), pos)
  {
    hide Good, LocalOk, HistoryOk, LinkAt, TiedOk, ParamsOk, Ready;
    var s' := s.(ws := s.ws[i := Optimized(d, i, s.ws[i])]);
    SyncingAt(d, s, pos, i);
    IsReady(d, s, pos, i);
    StepIs(d, i, s.ws[i]);
    OptimizedLocal(d, i, s.ws[i], pos[i]);
    forall j: nat | j < d.net.n
      ensures LocalAt(d, s', pos, j) && HistoryAt(d, s', pos, j) && LinkAt(d, s', pos, j)
      ensures ParamsOk(d, s', pos, j) && TiedOk(d, s', pos, j)
    {
      assert LocalAt(d, s, pos, j) && HistoryAt(d, s, pos, j);
      OptimizedParams(d, s, pos, i, j);
      OptimizedTied(d, s, pos, i, j);
      OptimizedLinks(d, s, pos, i, j);
    }
  }

  // ── pushing a value to a copy ────────────────────────────────────────────────

  /** Slice `i` pushed the new value `v` of `p` to slice `j`. */
  ghost predicate Pushed(d: Data, s: System, s': System, i: nat, p: Param, j: nat)
    requires |s.ws| == d.net.n
  {
    && i < j < d.net.n == |s'.ws| && s'.driver == s.driver
    && s.ws[i].phase.Pushing? && (p, j) in s.ws[i].phase.copies && p in d.net.uses(j) && Owner(d.net, p) == i
    && p in s.ws[i].params
    && s'.ws[i] == s.ws[i].(phase := s.ws[i].phase.(copies := s.ws[i].phase.copies - {(p, j)}))
    && s'.ws[j] == s.ws[j].(params := s.ws[j].params[p := s.ws[i].params[p]])
    && (forall k | 0 <= k < d.net.n && k != i && k != j :: s'.ws[k] == s.ws[k])
  }

  lemma PushLocal(d: Data, i: nat, w: Worker, q: Pos, p: Param, j: nat)
    requires Good(d) && i < d.net.n && LocalOk(d, i, w, q) && HistoryOk(d, i, w, q)
    requires w.phase.Pushing? && (p, j) in w.phase.copies
    ensures q.b == K(d) && i < j < d.net.n && p in d.net.uses(j) && p in d.net.uses(i) && Owner(d.net, p) == i
    ensures var w' := w.(phase := w.phase.(copies := w.phase.copies - {(p, j)}));
            LocalOk(d, i, w', q) && HistoryOk(d, i, w', q)
  {
    hide Sound, Quiet, WellFormed, MemAfter, Cell, Output, GradIn, LocalGrad, FirstUser;
  }

  lemma CopyIsNotLocal(d: Data, i: nat, w: Worker, p: Pos, q: Param, v: Tensor)
    requires Good(d) && i < d.net.n && LocalOk(d, i, w, p) && HistoryOk(d, i, w, p) && q in d.net.uses(i)
    ensures var w' := w.(params := w.params[q := v]); LocalOk(d, i, w', p) && HistoryOk(d, i, w', p)
  {
    hide Sound, Quiet, WellFormed, MemAfter, Cell, Output, GradIn, LocalGrad;
    assert w.params[q := v].Keys == w.params.Keys;
  }

  lemma PushPushes(d: Data, s: System, pos: seq<Pos>, i: nat, p: Param, j: nat)
    requires Inv(d, s, pos) && Enabled(d.net, d.ids, s, Push(i, p, j))
    ensures Pushed(d, s, PushOne(s, i, p, j), i, p, j) && pos[i].b == K(d) && p in d.net.uses(i)
  {
    hide Good, LocalOk, HistoryOk, LinkAt, TiedOk, ParamsOk, DriverOk, FirstUser;
    assert LocalAt(d, s, pos, i) && HistoryAt(d, s, pos, i);
    PushLocal(d, i, s.ws[i], pos[i], p, j);
  }

  lemma PushedLocal(d: Data, s: System, pos: seq<Pos>, s': System, i: nat, p: Param, j: nat, k: nat)
    requires Inv(d, s, pos) && Pushed(d, s, s', i, p, j) && k < d.net.n
    ensures LocalAt(d, s', pos, k) && HistoryAt(d, s', pos, k)
    ensures Returned(s'.ws[k], pos[k]) == Returned(s.ws[k], pos[k])
  {
    hide Good, LocalOk, HistoryOk, LinkAt, TiedOk, ParamsOk, DriverOk, FirstUser;
    assert LocalAt(d, s, pos, k) && HistoryAt(d, s, pos, k);
    if k == i { PushLocal(d, i, s.ws[i], pos[i], p, j); }
    if k == j { CopyIsNotLocal(d, j, s.ws[j], pos[j], p, s.ws[i].params[p]); }
  }

  lemma PushedNew(d: Data, s: System, pos: seq<Pos>, s': System, i: nat, p: Param, j: nat, k: nat, q: Param)
    requires |s.ws| == |pos| == d.net.n && k < d.net.n && Pushed(d, s, s', i, p, j) && pos[i].b == K(d)
    requires q in d.net.uses(k) && Owner(d.net, q) <= k
    ensures New(d, s', pos, q, k) == (New(d, s, pos, q, k) || (k == j && q == p))
  {
    hide FirstUser;
  }

  lemma PushedValue(d: Data, s: System, pos: seq<Pos>, s': System, i: nat, p: Param, j: nat)
    requires Inv(d, s, pos) && Pushed(d, s, s', i, p, j) && pos[i].b == K(d) && p in d.net.uses(i)
    ensures WellFormed(d.net, d.mem) && 0 < |d.batch.xs| == |d.batch.ys| && p in d.mem.params
    ensures s.ws[i].params[p] == SyncedStep(d.net, d.mem, d.batch.xs, d.batch.ys, p).0
  {
    hide Good, LocalAt, HistoryAt, LinkAt, TiedOk, DriverOk, SyncedStep, FirstUser;
    GoodFacts(d);
    assert ParamsOk(d, s, pos, i);
    assert New(d, s, pos, p, i);
  }

  lemma PushedParams(d: Data, s: System, pos: seq<Pos>, s': System, i: nat, p: Param, j: nat, k: nat)
    requires Inv(d, s, pos) && Pushed(d, s, s', i, p, j) && pos[i].b == K(d) && p in d.net.uses(i) && k < d.net.n
    ensures ParamsOk(d, s', pos, k)
  {
    hide Good, LocalAt, HistoryAt, LinkAt, TiedOk, DriverOk, SyncedStep, New;
    GoodFacts(d);
    PushedValue(d, s, pos, s', i, p, j);
    assert ParamsOk(d, s, pos, k);
    forall q | q in d.net.uses(k)
      ensures Owner(d.net, q) <= k
      ensures New(d, s', pos, q, k) == (New(d, s, pos, q, k) || (k == j && q == p))
    {
      PushedNew(d, s, pos, s', i, p, j, k, q);
    }
  }

  lemma PushedTied(d: Data, s: System, pos: seq<Pos>, s': System, i: nat, p: Param, j: nat, o: nat)
    requires Inv(d, s, pos) && Pushed(d, s, s', i, p, j) && o < d.net.n
    ensures TiedOk(d, s', pos, o)
  {
    hide Good, LocalAt, HistoryAt, LinkAt, ParamsOk, DriverOk, PostedGrads;
    assert TiedOk(d, s, pos, o);
    forall q | q in Owned(d.net, o)
      ensures PostedGrads(d, s', pos, q, o + 1) == PostedGrads(d, s, pos, q, o + 1)
    {
      PostedSame(d, s, pos, s', pos, q, o + 1);
    }
  }

  lemma PushedLink(d: Data, s: System, pos: seq<Pos>, s': System, i: nat, p: Param, j: nat, k: nat)
    requires Inv(d, s, pos) && Pushed(d, s, s', i, p, j) && k < d.net.n
    ensures LinkAt(d, s', pos, k)
  {
    hide Good, LocalAt, HistoryAt, ParamsOk, DriverOk, TiedOk, LinkOk;
    assert LinkAt(d, s, pos, k);
    LinkSame(d, k, s.ws[k], s'.ws[k], pos[k], SentF(s, pos, k), SentB(s, pos, k), SentL(s, k));
  }

  lemma PushedDriver(d: Data, s: System, pos: seq<Pos>, s': System, i: nat, p: Param, j: nat)
    requires Inv(d, s, pos) && Pushed(d, s, s', i, p, j)
    ensures DriverOk(d, s', pos)
  {
    GoodFacts(d);
    hide Good, LocalAt, HistoryAt, LinkAt, TiedOk, ParamsOk;
    PushedLocal(d, s, pos, s', i, p, j, 0);
  }

  lemma PushKeeps(d: Data, s: System, pos: seq<Pos>, s': System, i: nat, p: Param, j: nat)
    requires Inv(d, s, pos) && Pushed(d, s, s', i, p, j) && pos[i].b == K(d) && p in d.net.uses(i)
    ensures Inv(d, s', pos)
  {
    hide Good, LocalAt, HistoryAt, LinkAt, TiedOk, ParamsOk, DriverOk, Returned;
    PushedDriver(d, s, pos, s', i, p, j);
    forall k: nat | k < d.net.n
      ensures LocalAt(d, s', pos, k) && HistoryAt(d, s', pos, k) && LinkAt(d, s', pos, k)
      ensures ParamsOk(d, s', pos, k) && TiedOk(d, s', pos, k)
    {
      PushedLocal(d, s, pos, s', i, p, j, k);
      PushedParams(d, s, pos, s', i, p, j, k);
      PushedTied(d, s, pos, s', i, p, j, k);
      PushedLink(d, s, pos, s', i, p, j, k);
    }
  }

  lemma PushOk(d: Data, s: System, pos: seq<Pos>, i: nat, p: Param, j: nat)
    requires Inv(d, s, pos) && Enabled(d.net, d.ids, s, Push(i, p, j))
    ensures Inv(d, Apply(d.net, d.ids, s, Push(i, p, j)), pos)
  {
    PushPushes(d, s, pos, i, p, j);
    PushKeeps(d, s, pos, PushOne(s, i, p, j), i, p, j);
  }
}
