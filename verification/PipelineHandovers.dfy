/** The actions that put a message on a link keep the invariant: the driver's sends, activations on
    their way up, gradients on their way down, and `batch_done`. */
module PipelineHandovers {
  import opened Network
  import opened Wavefront
  import opened Protocol
  import opened PipelineInvariant
  import opened PipelineFrames

  // ── one more message on a link ───────────────────────────────────────────────

  lemma InputSent(d: Data, i: nat, w: Worker, p: Pos, f: int, b: int, l: int)
    requires Good(d) && i < d.net.n && LinkOk(d, i, w, p, f, b, l) && f < K(d)
    ensures LinkOk(d, i, w.(fromPrev := w.fromPrev + [Input(Id(d, f), Cell(d.net, d.mem, d.batch.xs, f, i).x)]),
                   p, f + 1, b, l)
  {
    hide Sound, Quiet, WellFormed, MemAfter, Cell, GradIn;
  }

  lemma GradientSent(d: Data, i: nat, w: Worker, p: Pos, f: int, b: int, l: int)
    requires Good(d) && i < d.net.n && LinkOk(d, i, w, p, f, b, l) && b < K(d)
    ensures LinkOk(d, i, w.(fromNext := w.fromNext + [Gradient(Id(d, b),
                                                              GradIn(d.net, d.mem, d.batch.xs, d.batch.ys, b, i + 1))]),
                   p, f, b + 1, l)
  {
    hide Sound, Quiet, WellFormed, MemAfter, Cell, GradIn;
  }

  lemma LabelSent(d: Data, i: nat, w: Worker, p: Pos, f: int, b: int, l: int)
    requires Good(d) && i < d.net.n && LinkOk(d, i, w, p, f, b, l) && l < K(d)
    ensures LinkOk(d, i, w.(fromDriver := w.fromDriver + [Target(Id(d, l), d.batch.ys[l])]), p, f, b, l + 1)
  {
    hide Sound, Quiet, WellFormed, MemAfter, Cell, GradIn;
  }

  /** `w'` differs from `w` in the messages on its links only. */
  predicate OnlyLinks(w: Worker, w': Worker) {
    w' == w.(fromPrev := w'.fromPrev, fromNext := w'.fromNext, fromDriver := w'.fromDriver)
  }

  lemma LinksAreNotLocal(d: Data, i: nat, w: Worker, w': Worker, p: Pos)
    requires Good(d) && i < d.net.n && LocalOk(d, i, w, p) && HistoryOk(d, i, w, p) && OnlyLinks(w, w')
    ensures LocalOk(d, i, w', p) && HistoryOk(d, i, w', p) && SharesSame(d, i, w, p, w', p)
    ensures Shipped(w', p) == Shipped(w, p) && Returned(w', p) == Returned(w, p)
  {
    hide Sound, Quiet, WellFormed, MemAfter, Cell, GradIn;
  }

  /** A task that has nothing left to do ends. */
  lemma GoIdle(d: Data, i: nat, w: Worker, p: Pos)
    requires Good(d) && i < d.net.n && LocalOk(d, i, w, p) && HistoryOk(d, i, w, p)
    requires w.phase.Activating? || (w.phase.Pushing? && w.phase.copies == {})
    ensures var w' := w.(phase := Idle);
            LocalOk(d, i, w', p) && HistoryOk(d, i, w', p) && SharesSame(d, i, w, p, w', p)
  {
    hide Sound, Quiet, WellFormed, MemAfter, Cell, GradIn;
  }

  // ── the driver's sends ───────────────────────────────────────────────────────

  lemma SendFits(d: Data, s: System, pos: seq<Pos>)
    requires Inv(d, s, pos) && Enabled(d.net, d.ids, s, Send)
    ensures var m := s.driver.sent / 2;
      && m < K(d) && d.ids.k == K(d) && 0 < d.net.n == |d.mem.bufs|
      && d.batch == s.driver.batch && Cell(d.net, d.mem, d.batch.xs, m, 0).x == d.batch.xs[m]
  {
    hide Sound, Quiet, MemAfter;
  }

  lemma SendLinks(d: Data, s: System, pos: seq<Pos>, j: nat)
    requires Inv(d, s, pos) && Enabled(d.net, d.ids, s, Send) && j < d.net.n
    ensures LinkAt(d, SendOne(d.ids, s), pos, j)
  {
    hide Good, LinkOk, Cell;
    SendFits(d, s, pos);
    var m := s.driver.sent / 2;
    assert LinkAt(d, s, pos, j);
    if s.driver.sent % 2 == 0 && j + 1 == d.net.n {
      LabelSent(d, j, s.ws[j], pos[j], SentF(s, pos, j), SentB(s, pos, j), m);
    }
    if s.driver.sent % 2 == 1 && j == 0 {
      InputSent(d, j, s.ws[j], pos[j], m, SentB(s, pos, j), SentL(s, j));
    }
  }

  lemma SendOk(d: Data, s: System, pos: seq<Pos>)
    requires Inv(d, s, pos) && Enabled(d.net, d.ids, s, Send)
    ensures Inv(d, Apply(d.net, d.ids, s, Send), pos)
  {
    hide Sound, Quiet, WellFormed, MemAfter, LocalOk, HistoryOk, LinkOk, SharesSame;
    var s' := SendOne(d.ids, s);
    forall j: nat | j < d.net.n
      ensures LocalAt(d, s', pos, j) && HistoryAt(d, s', pos, j) && SharesAt(d, s, pos, s', pos, j)
      ensures LinkAt(d, s', pos, j)
    {
      assert LocalAt(d, s, pos, j) && HistoryAt(d, s, pos, j);
      LinksAreNotLocal(d, j, s.ws[j], s'.ws[j], pos[j]);
      SendLinks(d, s, pos, j);
    }
    ShareAll(d, s, pos, s', pos);
  }

  // ── an activation on its way up ──────────────────────────────────────────────

  lemma ActivateLinks(d: Data, s: System, pos: seq<Pos>, i: nat, j: nat)
    requires Inv(d, s, pos) && Enabled(d.net, d.ids, s, Activate(i)) && j < d.net.n
    ensures LinkAt(d, Apply(d.net, d.ids, s, Activate(i)), pos, j)
  {
    hide Good, LinkOk, LocalOk, Cell, GradIn;
    assert LinkAt(d, s, pos, j) && LocalAt(d, s, pos, i);
    if j == i {
      LinkSame(d, i, s.ws[i], s.ws[i].(phase := Idle), pos[i], SentF(s, pos, i), SentB(s, pos, i), SentL(s, i));
    }
    if j == i + 1 {
      SentUp(d, i, s.ws[i], pos[i]);
      InputSent(d, j, s.ws[j], pos[j], pos[i].f - 1, SentB(s, pos, j), SentL(s, j));
    }
  }

  /** What a slice sends up is the input of the next slice. */
  lemma SentUp(d: Data, i: nat, w: Worker, p: Pos)
    requires Good(d) && i + 1 < d.net.n && LocalOk(d, i, w, p) && w.phase.Activating?
    ensures 0 < p.f <= K(d) && d.net.n == |d.mem.bufs|
    ensures Input(w.phase.id, w.phase.y) == Input(Id(d, p.f - 1), Cell(d.net, d.mem, d.batch.xs, p.f - 1, i + 1).x)
  {
    hide Sound, Quiet, MemAfter, GradIn;
  }

  lemma ActivateOk(d: Data, s: System, pos: seq<Pos>, i: nat)
    requires Inv(d, s, pos) && Enabled(d.net, d.ids, s, Activate(i))
    ensures Inv(d, Apply(d.net, d.ids, s, Activate(i)), pos)
  {
    hide Sound, Quiet, WellFormed, MemAfter, LocalOk, HistoryOk, LinkOk, SharesSame;
    var s' := Apply(d.net, d.ids, s, Activate(i));
    forall j: nat | j < d.net.n
      ensures LocalAt(d, s', pos, j) && HistoryAt(d, s', pos, j) && SharesAt(d, s, pos, s', pos, j)
      ensures LinkAt(d, s', pos, j)
    {
      assert LocalAt(d, s, pos, j) && HistoryAt(d, s, pos, j);
      if j == i { GoIdle(d, j, s.ws[j], pos[j]); } else { LinksAreNotLocal(d, j, s.ws[j], s'.ws[j], pos[j]); }
      ActivateLinks(d, s, pos, i, j);
    }
    ShareAll(d, s, pos, s', pos);
  }

  // ── a gradient on its way down ───────────────────────────────────────────────

  lemma SentDown(d: Data, i: nat, w: Worker, p: Pos)
    requires Good(d) && i < d.net.n && LocalOk(d, i, w, p) && w.phase.Pushing?
    ensures 0 < p.b <= K(d) && 0 < d.net.n == |d.mem.bufs| && |d.batch.xs| == |d.batch.ys|
    ensures Gradient(w.phase.id, w.phase.g) ==
            Gradient(Id(d, p.b - 1), GradIn(d.net, d.mem, d.batch.xs, d.batch.ys, p.b - 1, i))
  {
    hide Sound, Quiet, MemAfter, GradIn, Cell;
  }

  lemma ReturnLinks(d: Data, s: System, pos: seq<Pos>, i: nat, j: nat)
    requires Inv(d, s, pos) && Enabled(d.net, d.ids, s, Return(i)) && j < d.net.n
    ensures LinkAt(d, Apply(d.net, d.ids, s, Return(i)), pos, j)
  {
    hide Good, LinkOk, LocalOk, Cell, GradIn;
    assert LinkAt(d, s, pos, j) && LocalAt(d, s, pos, i);
    SentDown(d, i, s.ws[i], pos[i]);
    if j == i {
      LinkSame(d, i, s.ws[i], s.ws[i].(phase := Idle), pos[i], SentF(s, pos, i), SentB(s, pos, i), SentL(s, i));
    }
    if j + 1 == i {
      GradientSent(d, j, s.ws[j], pos[j], SentF(s, pos, j), pos[i].b - 1, SentL(s, j));
    }
  }

  lemma ReturnDriver(d: Data, s: System, pos: seq<Pos>, i: nat)
    requires Inv(d, s, pos) && Enabled(d.net, d.ids, s, Return(i))
    ensures DriverOk(d, Apply(d.net, d.ids, s, Return(i)), pos)
  {
    hide Quiet, WellFormed, MemAfter, GradIn, Cell;
    assert LocalAt(d, s, pos, 0);
    assert (d.past + [d.batch])[..|d.past|] == d.past;
  }

  lemma ReturnOk(d: Data, s: System, pos: seq<Pos>, i: nat)
    requires Inv(d, s, pos) && Enabled(d.net, d.ids, s, Return(i))
    ensures Inv(d, Apply(d.net, d.ids, s, Return(i)), pos)
  {
    hide Sound, Quiet, WellFormed, MemAfter, LocalOk, HistoryOk, LinkOk, SharesSame, DriverOk;
    var s' := Apply(d.net, d.ids, s, Return(i));
    forall j: nat | j < d.net.n
      ensures LocalAt(d, s', pos, j) && HistoryAt(d, s', pos, j) && SharesAt(d, s, pos, s', pos, j)
      ensures LinkAt(d, s', pos, j)
    {
      assert LocalAt(d, s, pos, j) && HistoryAt(d, s, pos, j);
      if j == i { GoIdle(d, j, s.ws[j], pos[j]); } else { LinksAreNotLocal(d, j, s.ws[j], s'.ws[j], pos[j]); }
      ReturnLinks(d, s, pos, i, j);
    }
    ReturnDriver(d, s, pos, i);
    ShareAll(d, s, pos, s', pos);
  }
}
