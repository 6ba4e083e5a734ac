/** The end of a batch keeps the invariant: replicas send their gradients to the owner of a tied
    parameter, the owner steps once it has them all, and pushes the new value back. */
module PipelineSync {
  import opened Network
  import opened Wavefront
  import opened Protocol
  import opened PipelineInvariant
  import opened PipelineFrames

  // ── where the slices are when one of them synchronises ──────────────────────

  /** Every slice above a slice that finished its backwards has sent all its gradients. */
  lemma AbovePosted(d: Data, s: System, pos: seq<Pos>, i: nat, j: nat, p: Param)
    requires Inv(d, s, pos) && i < j < d.net.n && pos[i].b == K(d)
    ensures Posted(d, s.ws[j], pos[j], p) && pos[j].b == K(d)
  {
    hide Good, LocalAt, HistoryAt, LinkAt, ParamsOk, TiedOk, DriverOk;
    AllCounts(d, s, pos);
    Chain(d, s, pos, i, j);
    assert CountsAt(d, s, pos, j);
  }

  /** No slice below a slice that is still synchronising has finished its backwards. */
  lemma BelowUnposted(d: Data, s: System, pos: seq<Pos>, j: nat, i: nat, p: Param)
    requires Inv(d, s, pos) && j < i < d.net.n && s.ws[i].phase.Syncing?
    ensures !Posted(d, s.ws[j], pos[j], p) && !Stepped(d, s.ws[j], pos[j])
  {
    hide Good, LocalAt, HistoryAt, LinkAt, ParamsOk, TiedOk, DriverOk;
    AllCounts(d, s, pos);
    Chain(d, s, pos, j, i);
    assert CountsAt(d, s, pos, i);
  }

  lemma {:induction false} SkipBelow(d: Data, s: System, pos: seq<Pos>, p: Param, k: nat, i: nat)
    requires Good(d) && |s.ws| == |pos| == d.net.n && k <= i <= d.net.n
    requires forall j: nat | k <= j < i :: !Posted(d, s.ws[j], pos[j], p)
    ensures PostedGrads(d, s, pos, p, k) == PostedGrads(d, s, pos, p, i)
    decreases i - k
  {
    hide Good, Posted;
    if k < i {
      SkipBelow(d, s, pos, p, k + 1, i);
      assert PostedGrads(d, s, pos, p, k) == PostedGrads(d, s, pos, p, k + 1) + [];
    }
  }

  // ── a replica sends its gradient ─────────────────────────────────────────────

  lemma GradMapLess(d: Data, i: nat, ps: set<Param>, p: Param, b: nat)
    requires Good(d) && i < d.net.n && b <= K(d)
    ensures GradMap(d, i, ps, b) - {p} == GradMap(d, i, ps - {p}, b)
  {
    hide Sound, Quiet, MemAfter, LocalGrad;
  }

  lemma PostLocal(d: Data, i: nat, w: Worker, q: Pos, p: Param)
    requires Good(d) && i < d.net.n && LocalOk(d, i, w, q) && HistoryOk(d, i, w, q)
    requires w.phase.Syncing? && p in w.phase.left
    ensures var w' := w.(grads := w.grads - {p}, phase := w.phase.(left := w.phase.left - {p}));
            LocalOk(d, i, w', q) && HistoryOk(d, i, w', q)
    ensures p in w.grads && w.grads[p] == LocalGrad(d.net, d.mem, d.batch.xs, d.batch.ys, K(d), i, p)
    ensures q.b == K(d) && d.ids.full(w.phase.id) == d.batch.id && p in d.net.uses(i) && Owner(d.net, p) < i
  {
    hide Quiet, MemAfter, LocalGrad, Cell, Output, GradIn, FirstUser;
    var w' := w.(grads := w.grads - {p}, phase := w.phase.(left := w.phase.left - {p}));
    GradMapLess(d, i, Holding(d, i, w, q), p, q.b);
    assert Holding(d, i, w', q) == Holding(d, i, w, q) - {p};
    OwnerAtMost(d.net, p, i);
  }

  lemma OwnerAtMost(net: Net, p: Param, i: nat)
    requires i < net.n && p in net.uses(i)
    ensures Owner(net, p) <= i
  {
  }

  /** Worker `i` and the owner of `p` after the replica's gradient `g` has been sent. */
  ghost predicate Sent(d: Data, s: System, s': System, i: nat, p: Param, g: Tensor)
    requires |s.ws| == d.net.n
  {
    var o := Owner(d.net, p);
    && o < i < d.net.n == |s'.ws| && s.ws[i].phase.Syncing? && p in s.ws[i].phase.left && p in d.net.uses(i)
    && s'.ws[i] == s.ws[i].(grads := s.ws[i].grads - {p}, phase := s.ws[i].phase.(left := s.ws[i].phase.left - {p}))
    && s'.ws[o] == s.ws[o].(tied := s.ws[o].tied[(p, d.batch.id) := TiedList(s.ws[o], (p, d.batch.id)) + [g]])
    && (forall j | 0 <= j < d.net.n && j != i && j != o :: s'.ws[j] == s.ws[j])
  }

  lemma PostSends(d: Data, s: System, pos: seq<Pos>, i: nat, p: Param)
    requires Inv(d, s, pos) && Enabled(d.net, d.ids, s, Post(i, p))
    ensures Sent(d, s, PostOne(d.net, d.ids, s, i, p), i, p,
                 LocalGrad(d.net, d.mem, d.batch.xs, d.batch.ys, K(d), i, p))
  {
    hide Good, LinkAt, ParamsOk, TiedOk, DriverOk, LocalOk, HistoryOk, LocalGrad, FirstUser;
    GoodFacts(d);
    assert LocalAt(d, s, pos, i) && HistoryAt(d, s, pos, i);
    PostLocal(d, i, s.ws[i], pos[i], p);
  }

  /** The owner's list after the slices down to `i + 1` have sent theirs and `i` sends its own. */
  lemma PostedNext(d: Data, s: System, pos: seq<Pos>, s': System, i: nat, p: Param, g: Tensor)
    requires Inv(d, s, pos) && Sent(d, s, s', i, p, g) && pos[i].b == K(d)
    requires g == LocalGrad(d.net, d.mem, d.batch.xs, d.batch.ys, K(d), i, p)
    ensures PostedGrads(d, s', pos, p, Owner(d.net, p) + 1) == PostedGrads(d, s, pos, p, Owner(d.net, p) + 1) + [g]
  {
    hide LocalAt, HistoryAt, LinkAt, ParamsOk, TiedOk, DriverOk, Good, LocalGrad, FirstUser;
    var o := Owner(d.net, p);
    forall j: nat | o + 1 <= j < i ensures !Posted(d, s.ws[j], pos[j], p) && !Posted(d, s'.ws[j], pos[j], p) {
      BelowUnposted(d, s, pos, j, i, p);
    }
    SkipBelow(d, s, pos, p, o + 1, i);
    SkipBelow(d, s', pos, p, o + 1, i);
    PostedSame(d, s, pos, s', pos, p, i + 1);
    assert PostedGrads(d, s, pos, p, i) == PostedGrads(d, s, pos, p, i + 1) + [];
  }

  lemma OthersPosted(d: Data, s: System, pos: seq<Pos>, s': System, i: nat, p: Param, g: Tensor, p': Param, o: nat)
    requires Inv(d, s, pos) && Sent(d, s, s', i, p, g) && p' != p && o < d.net.n
    ensures PostedGrads(d, s', pos, p', o + 1) == PostedGrads(d, s, pos, p', o + 1)
  {
    hide LocalAt, HistoryAt, LinkAt, ParamsOk, TiedOk, DriverOk, Good, LocalGrad, FirstUser, PostedGrads;
    PostedSame(d, s, pos, s', pos, p', o + 1);
  }

  lemma PostTied(d: Data, s: System, pos: seq<Pos>, s': System, i: nat, p: Param, g: Tensor, o: nat)
    requires Inv(d, s, pos) && Sent(d, s, s', i, p, g) && pos[i].b == K(d) && o < d.net.n
    requires g == LocalGrad(d.net, d.mem, d.batch.xs, d.batch.ys, K(d), i, p)
    ensures TiedOk(d, s', pos, o)
  {
    hide HistoryAt, LinkAt, ParamsOk, DriverOk, LocalAt, Good, LocalGrad, FirstUser, PostedGrads;
    assert TiedOk(d, s, pos, o);
    forall p' | p' in Owned(d.net, o) && p' != p
      ensures PostedGrads(d, s', pos, p', o + 1) == PostedGrads(d, s, pos, p', o + 1)
    {
      OthersPosted(d, s, pos, s', i, p, g, p', o);
    }
    if o == Owner(d.net, p) {
      PostedNext(d, s, pos, s', i, p, g);
      BelowUnposted(d, s, pos, o, i, p);
    }
  }

  /** A replica's shares with everyone but the owner of `p` stay what they were. */
  lemma PostParams(d: Data, s: System, pos: seq<Pos>, s': System, i: nat, p: Param, g: Tensor, j: nat)
    requires Inv(d, s, pos) && Sent(d, s, s', i, p, g) && j < d.net.n
    ensures ParamsOk(d, s', pos, j)
  {
    hide HistoryAt, LinkAt, TiedOk, DriverOk, LocalAt, Sound, Quiet, MemAfter, SyncedStep;
    assert ParamsOk(d, s, pos, j);
    forall q | q in d.net.uses(j) ensures New(d, s', pos, q, j) == New(d, s, pos, q, j) {
      assert Owner(d.net, q) <= j;
    }
  }

  /** Replica gradients are no part of what is about one worker alone. */
  lemma TiedIsNotLocal(d: Data, i: nat, w: Worker, w': Worker, p: Pos)
    requires Good(d) && i < d.net.n && LocalOk(d, i, w, p) && HistoryOk(d, i, w, p) && w' == w.(tied := w'.tied)
    ensures LocalOk(d, i, w', p) && HistoryOk(d, i, w', p)
  {
    hide Sound, Quiet, WellFormed, MemAfter, Cell, GradIn;
  }

  lemma PostRest(d: Data, s: System, pos: seq<Pos>, s': System, i: nat, p: Param, g: Tensor, j: nat)
    requires Inv(d, s, pos) && Sent(d, s, s', i, p, g) && s'.driver == s.driver && j < d.net.n
    ensures LocalAt(d, s', pos, j) && HistoryAt(d, s', pos, j)
  {
    hide Good, ParamsOk, TiedOk, DriverOk, LocalOk, HistoryOk, LinkAt, FirstUser;
    assert LocalAt(d, s, pos, j) && HistoryAt(d, s, pos, j);
    if j == i {
      PostLocal(d, i, s.ws[i], pos[i], p);
    } else {
      TiedIsNotLocal(d, j, s.ws[j], s'.ws[j], pos[j]);
    }
  }

  lemma PostLink(d: Data, s: System, pos: seq<Pos>, s': System, i: nat, p: Param, g: Tensor, j: nat)
    requires Inv(d, s, pos) && Sent(d, s, s', i, p, g) && s'.driver == s.driver && j < d.net.n
    ensures LinkAt(d, s', pos, j)
  {
    hide Good, ParamsOk, TiedOk, DriverOk, LocalAt, HistoryAt, LinkOk, FirstUser;
    assert LinkAt(d, s, pos, j);
    LinkSame(d, j, s.ws[j], s'.ws[j], pos[j], SentF(s, pos, j), SentB(s, pos, j), SentL(s, j));
  }

  lemma PostKeeps(d: Data, s: System, pos: seq<Pos>, s': System, i: nat, p: Param, g: Tensor)
    requires Inv(d, s, pos) && Sent(d, s, s', i, p, g) && s'.driver == s.driver && pos[i].b == K(d)
    requires g == LocalGrad(d.net, d.mem, d.batch.xs, d.batch.ys, K(d), i, p)
    ensures Inv(d, s', pos)
  {
    assert DriverOk(d, s', pos);
    hide Good, ParamsOk, TiedOk, LocalAt, HistoryAt, LinkAt, LocalGrad, FirstUser, DriverOk;
    forall j: nat | j < d.net.n
      ensures LocalAt(d, s', pos, j) && HistoryAt(d, s', pos, j) && LinkAt(d, s', pos, j)
      ensures ParamsOk(d, s', pos, j) && TiedOk(d, s', pos, j)
    {
      PostRest(d, s, pos, s', i, p, g, j);
      PostLink(d, s, pos, s', i, p, g, j);
      PostParams(d, s, pos, s', i, p, g, j);
      PostTied(d, s, pos, s', i, p, g, j);
    }
  }

  lemma PostOk(d: Data, s: System, pos: seq<Pos>, i: nat, p: Param)
    requires Inv(d, s, pos) && Enabled(d.net, d.ids, s, Post(i, p))
    ensures Inv(d, Apply(d.net, d.ids, s, Post(i, p)), pos)
  {
    hide Good, ParamsOk, TiedOk, LocalOk, HistoryOk, LinkAt, LocalGrad, FirstUser, DriverOk, Sent;
    GoodFacts(d);
    assert LocalAt(d, s, pos, i) && HistoryAt(d, s, pos, i);
    PostLocal(d, i, s.ws[i], pos[i], p);
    PostSends(d, s, pos, i, p);
    PostKeeps(d, s, pos, PostOne(d.net, d.ids, s, i, p), i, p,
              LocalGrad(d.net, d.mem, d.batch.xs, d.batch.ys, K(d), i, p));
  }
}
