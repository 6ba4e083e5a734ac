/** What a step of one worker leaves alone: the parts of the invariant that look at several
    workers depend on what each of them shares with the others, and on nothing else. */
module PipelineFrames {
  import opened Network
  import opened Wavefront
  import opened Protocol
  import opened PipelineInvariant

  function CopiesLeft(w: Worker): set<(Param, nat)> {
    if w.phase.Pushing? then w.phase.copies else {}
  }

  /** `(w, p)` and `(w', p')` hold the same parameters and the same replica gradients, and stand at
      the same point of handing them on. */
  ghost predicate SharesSame(d: Data, i: nat, w: Worker, p: Pos, w': Worker, p': Pos) {
    && w'.params == w.params && w'.tied == w.tied
    && Stepped(d, w', p') == Stepped(d, w, p)
    && (Stepped(d, w, p) ==> CopiesLeft(w') == CopiesLeft(w))
    && (forall q | q in Replicas(d.net, i) :: Posted(d, w', p', q) == Posted(d, w, p, q))
  }

  ghost predicate SharesAt(d: Data, s: System, pos: seq<Pos>, s': System, pos': seq<Pos>, j: nat)
    requires |s.ws| == |pos| == |s'.ws| == |pos'| == d.net.n && j < d.net.n
  {
    SharesSame(d, j, s.ws[j], pos[j], s'.ws[j], pos'[j])
  }

  ghost predicate AllShare(d: Data, s: System, pos: seq<Pos>, s': System, pos': seq<Pos>) {
    && |s.ws| == |pos| == |s'.ws| == |pos'| == d.net.n
    && forall j: nat | j < d.net.n :: SharesAt(d, s, pos, s', pos', j)
  }

  lemma ShareParams(d: Data, s: System, pos: seq<Pos>, s': System, pos': seq<Pos>, j: nat)
    requires Inv(d, s, pos) && AllShare(d, s, pos, s', pos') && j < d.net.n
    ensures ParamsOk(d, s', pos', j)
  {
    hide Sound, Quiet, MemAfter, Cell, SyncedStep;
    assert ParamsOk(d, s, pos, j) && SharesAt(d, s, pos, s', pos', j);
    forall q | q in d.net.uses(j) ensures New(d, s', pos', q, j) == New(d, s, pos, q, j) {
      assert Owner(d.net, q) <= j;
      assert SharesAt(d, s, pos, s', pos', Owner(d.net, q));
    }
  }

  lemma {:induction false} PostedSame(d: Data, s: System, pos: seq<Pos>, s': System, pos': seq<Pos>, p: Param, k: nat)
    requires Good(d) && |s.ws| == |pos| == |s'.ws| == |pos'| == d.net.n && k <= d.net.n
    requires forall j: nat | k <= j < d.net.n && p in d.net.uses(j) ::
               Posted(d, s'.ws[j], pos'[j], p) == Posted(d, s.ws[j], pos[j], p)
    ensures PostedGrads(d, s', pos', p, k) == PostedGrads(d, s, pos, p, k)
    decreases d.net.n - k
  {
    hide Good;
    if k < d.net.n { PostedSame(d, s, pos, s', pos', p, k + 1); }
  }

  lemma SharePosted(d: Data, s: System, pos: seq<Pos>, s': System, pos': seq<Pos>, o: nat, q: Param)
    requires Good(d) && AllShare(d, s, pos, s', pos') && o < d.net.n && q in Owned(d.net, o)
    ensures PostedGrads(d, s', pos', q, o + 1) == PostedGrads(d, s, pos, q, o + 1)
  {
    hide Good, PostedGrads, Stepped, CopiesLeft;
    forall j: nat | o + 1 <= j < d.net.n && q in d.net.uses(j)
      ensures Posted(d, s'.ws[j], pos'[j], q) == Posted(d, s.ws[j], pos[j], q)
    {
      assert SharesAt(d, s, pos, s', pos', j);
      assert q in Replicas(d.net, j);
    }
    PostedSame(d, s, pos, s', pos', q, o + 1);
  }

  lemma ShareTied(d: Data, s: System, pos: seq<Pos>, s': System, pos': seq<Pos>, o: nat)
    requires Inv(d, s, pos) && AllShare(d, s, pos, s', pos') && o < d.net.n
    ensures TiedOk(d, s', pos', o)
  {
    hide Sound, Quiet, WellFormed, MemAfter, Cell, LocalGrad, SyncedStep;
    assert TiedOk(d, s, pos, o) && SharesAt(d, s, pos, s', pos', o);
    forall q | q in Owned(d.net, o)
      ensures PostedGrads(d, s', pos', q, o + 1) == PostedGrads(d, s, pos, q, o + 1)
    {
      SharePosted(d, s, pos, s', pos', o, q);
    }
  }

  /** A step that changes nothing shared keeps the invariant if it keeps what is about single
      workers, their links and the driver. */
  lemma ShareAll(d: Data, s: System, pos: seq<Pos>, s': System, pos': seq<Pos>)
    requires Inv(d, s, pos) && AllShare(d, s, pos, s', pos') && DriverOk(d, s', pos')
    requires forall j: nat | j < d.net.n :: LocalAt(d, s', pos', j)
    requires forall j: nat | j < d.net.n :: HistoryAt(d, s', pos', j)
    requires forall j: nat | j < d.net.n :: LinkAt(d, s', pos', j)
    ensures Inv(d, s', pos')
  {
    hide Good, ParamsOk, TiedOk, LocalAt, HistoryAt, LinkAt, SharesAt, DriverOk;
    forall j: nat | j < d.net.n ensures ParamsOk(d, s', pos', j) && TiedOk(d, s', pos', j) {
      ShareParams(d, s, pos, s', pos', j);
      ShareTied(d, s, pos, s', pos', j);
    }
  }

  lemma LinkSame(d: Data, i: nat, w: Worker, w': Worker, p: Pos, f: int, b: int, l: int)
    requires Good(d) && i < d.net.n && LinkOk(d, i, w, p, f, b, l)
    requires w'.queue == w.queue && w'.fromPrev == w.fromPrev && w'.fromNext == w.fromNext
    requires w'.fromDriver == w.fromDriver
    ensures LinkOk(d, i, w', p, f, b, l)
  {
  }

  // ── replacing one worker ─────────────────────────────────────────────────────

  /** What the other workers can tell about worker `i` is the same for `(w, p)` and `(w', p')`. */
  ghost predicate LooksSame(d: Data, i: nat, w: Worker, p: Pos, w': Worker, p': Pos) {
    && SharesSame(d, i, w, p, w', p')
    && (i + 1 < d.net.n ==> Shipped(w', p') == Shipped(w, p)) && Returned(w', p') == Returned(w, p)
  }

  lemma ReplaceLink(d: Data, s: System, pos: seq<Pos>, i: nat, w: Worker, p: Pos, j: nat)
    requires Inv(d, s, pos) && i < d.net.n && j < d.net.n
    requires LooksSame(d, i, s.ws[i], pos[i], w, p)
    requires LinkOk(d, i, w, p, SentF(s, pos, i), if i + 1 == d.net.n then p.b else SentB(s, pos, i), SentL(s, i))
    ensures LinkAt(d, s.(ws := s.ws[i := w]), pos[i := p], j)
  {
    hide Sound, Quiet, WellFormed, MemAfter, Cell, GradIn, SharesSame;
    var s', pos' := s.(ws := s.ws[i := w]), pos[i := p];
    assert LinkAt(d, s, pos, j);
    assert SentF(s', pos', j) == SentF(s, pos, j);
    assert SentL(s', j) == SentL(s, j);
    if j != i { assert SentB(s', pos', j) == SentB(s, pos, j); }
  }

  lemma ReplaceLocal(d: Data, s: System, pos: seq<Pos>, i: nat, w: Worker, p: Pos, j: nat)
    requires Inv(d, s, pos) && i < d.net.n && j < d.net.n
    requires LocalOk(d, i, w, p) && HistoryOk(d, i, w, p)
    ensures LocalAt(d, s.(ws := s.ws[i := w]), pos[i := p], j)
    ensures HistoryAt(d, s.(ws := s.ws[i := w]), pos[i := p], j)
  {
    assert LocalAt(d, s, pos, j) && HistoryAt(d, s, pos, j);
  }

  /** A worker may change in any way that keeps its own part of the invariant and that the others
      cannot tell. */
  lemma ReplaceOne(d: Data, s: System, pos: seq<Pos>, i: nat, w: Worker, p: Pos)
    requires Inv(d, s, pos) && i < d.net.n
    requires LooksSame(d, i, s.ws[i], pos[i], w, p)
    requires LocalOk(d, i, w, p) && HistoryOk(d, i, w, p)
    requires LinkOk(d, i, w, p, SentF(s, pos, i), if i + 1 == d.net.n then p.b else SentB(s, pos, i), SentL(s, i))
    ensures Inv(d, s.(ws := s.ws[i := w]), pos[i := p])
  {
    hide Good, LocalOk, HistoryOk, LinkOk;
    var s', pos' := s.(ws := s.ws[i := w]), pos[i := p];
    forall j: nat | j < d.net.n
      ensures LocalAt(d, s', pos', j) && HistoryAt(d, s', pos', j) && LinkAt(d, s', pos', j)
      ensures SharesAt(d, s, pos, s', pos', j)
    {
      ReplaceLocal(d, s, pos, i, w, p, j);
      ReplaceLink(d, s, pos, i, w, p, j);
    }
    ShareAll(d, s, pos, s', pos');
  }
}
