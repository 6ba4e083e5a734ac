/** Every action of the worker pipeline keeps the invariant. */
module PipelineSteps {
  import opened Network
  import opened Wavefront
  import opened Protocol
  import opened PipelineInvariant
  import opened PipelineFrames
  import opened Sequences

  // ── delivering a message ─────────────────────────────────────────────────────

  lemma {:induction false} InputSeqKind(d: Data, i: nat, lo: nat, hi: nat)
    requires Good(d) && i < d.net.n && hi <= K(d)
    ensures forall t | t in InputSeq(d, i, lo, hi) :: t.Input?
    decreases hi
  {
    if lo < hi { InputSeqKind(d, i, lo, hi - 1); }
  }

  lemma {:induction false} GradSeqKind(d: Data, i: nat, lo: nat, hi: nat)
    requires Good(d) && i < d.net.n && hi <= K(d)
    ensures forall t | t in GradSeq(d, i, lo, hi) :: t.Gradient?
    decreases hi
  {
    if lo < hi { GradSeqKind(d, i, lo, hi - 1); }
  }

  lemma {:induction false} LabelSeqKind(d: Data, lo: nat, hi: nat)
    requires Good(d) && hi <= K(d)
    ensures forall t | t in LabelSeq(d, lo, hi) :: t.Target?
    decreases hi
  {
    if lo < hi { LabelSeqKind(d, lo, hi - 1); }
  }

  lemma MoveOver(a: seq<Task>, a': seq<Task>, b: seq<Task>, t: Task)
    requires b != [] && b[0] == t && a' == a + [t]
    ensures a' + b[1..] == a + b
  {
  }

  lemma PrevLink(d: Data, i: nat, w: Worker, p: Pos, f: int, b: int, l: int)
    requires Good(d) && i < d.net.n && LinkOk(d, i, w, p, f, b, l) && w.fromPrev != []
    ensures LinkOk(d, i, w.(queue := w.queue + [w.fromPrev[0]], fromPrev := w.fromPrev[1..]), p, f, b, l)
  {
    hide Sound, Quiet, WellFormed, MemAfter, Cell, GradIn;
    var t := w.fromPrev[0];
    InputSeqKind(d, i, p.f, f);
    assert t == (Inputs(w.queue) + w.fromPrev)[|Inputs(w.queue)|];
    InputsSnoc(w.queue, t);
    TargetsSnoc(w.queue, t);
    GradientsSnoc(w.queue, t);
    MoveOver(Inputs(w.queue), Inputs(w.queue + [t]), w.fromPrev, t);
  }

  lemma NextLink(d: Data, i: nat, w: Worker, p: Pos, f: int, b: int, l: int)
    requires Good(d) && i < d.net.n && LinkOk(d, i, w, p, f, b, l) && w.fromNext != []
    ensures LinkOk(d, i, w.(queue := w.queue + [w.fromNext[0]], fromNext := w.fromNext[1..]), p, f, b, l)
  {
    hide Sound, Quiet, WellFormed, MemAfter, Cell, GradIn;
    var t := w.fromNext[0];
    GradSeqKind(d, i, p.b, b);
    assert t == (Gradients(w.queue) + w.fromNext)[|Gradients(w.queue)|];
    InputsSnoc(w.queue, t);
    TargetsSnoc(w.queue, t);
    GradientsSnoc(w.queue, t);
    MoveOver(Gradients(w.queue), Gradients(w.queue + [t]), w.fromNext, t);
  }

  lemma LabelLink(d: Data, i: nat, w: Worker, p: Pos, f: int, b: int, l: int)
    requires Good(d) && i < d.net.n && LinkOk(d, i, w, p, f, b, l) && w.fromDriver != []
    ensures LinkOk(d, i, w.(queue := w.queue + [w.fromDriver[0]], fromDriver := w.fromDriver[1..]), p, f, b, l)
  {
    hide Sound, Quiet, WellFormed, MemAfter, Cell, GradIn;
    var t := w.fromDriver[0];
    LabelSeqKind(d, p.l, l);
    assert t == (Targets(w.queue) + w.fromDriver)[|Targets(w.queue)|];
    InputsSnoc(w.queue, t);
    TargetsSnoc(w.queue, t);
    GradientsSnoc(w.queue, t);
    MoveOver(Targets(w.queue), Targets(w.queue + [t]), w.fromDriver, t);
  }

  /** Moving messages between a worker's links and its queue changes nothing else. */
  lemma OnlyMessages(d: Data, s: System, pos: seq<Pos>, i: nat, w: Worker)
    requires Inv(d, s, pos) && i < d.net.n
    requires w == s.ws[i].(queue := w.queue, fromPrev := w.fromPrev, fromNext := w.fromNext, fromDriver := w.fromDriver)
    requires LinkOk(d, i, w, pos[i], SentF(s, pos, i), SentB(s, pos, i), SentL(s, i))
    ensures Inv(d, s.(ws := s.ws[i := w]), pos)
  {
    assert LocalAt(d, s, pos, i) && HistoryAt(d, s, pos, i);
    SameInside(d, i, s.ws[i], w, pos[i]);
    hide LocalOk, HistoryOk, LinkOk, LooksSame, Good, SentF, SentB, SentL;
    ReplaceOne(d, s, pos, i, w, pos[i]);
    assert pos[i := pos[i]] == pos;
  }

  lemma SameInside(d: Data, i: nat, w: Worker, w': Worker, p: Pos)
    requires Good(d) && i < d.net.n && LocalOk(d, i, w, p) && HistoryOk(d, i, w, p)
    requires w' == w.(queue := w'.queue, fromPrev := w'.fromPrev, fromNext := w'.fromNext, fromDriver := w'.fromDriver)
    ensures LocalOk(d, i, w', p) && HistoryOk(d, i, w', p) && LooksSame(d, i, w, p, w', p)
  {
    hide Good, BufAt, Outs, Labs, LossOf, GradMap, OptOf, AllIds, IdsOf, Reports;
  }

  lemma DeliverPrevOk(d: Data, s: System, pos: seq<Pos>, i: nat)
    requires Inv(d, s, pos) && Enabled(d.net, d.ids, s, DeliverPrev(i))
    ensures Inv(d, Apply(d.net, d.ids, s, DeliverPrev(i)), pos)
  {
    var w := s.ws[i];
    assert LinkAt(d, s, pos, i);
    PrevLink(d, i, w, pos[i], SentF(s, pos, i), SentB(s, pos, i), SentL(s, i));
    OnlyMessages(d, s, pos, i, w.(queue := w.queue + [w.fromPrev[0]], fromPrev := w.fromPrev[1..]));
  }

  lemma DeliverNextOk(d: Data, s: System, pos: seq<Pos>, i: nat)
    requires Inv(d, s, pos) && Enabled(d.net, d.ids, s, DeliverNext(i))
    ensures Inv(d, Apply(d.net, d.ids, s, DeliverNext(i)), pos)
  {
    var w := s.ws[i];
    assert LinkAt(d, s, pos, i);
    NextLink(d, i, w, pos[i], SentF(s, pos, i), SentB(s, pos, i), SentL(s, i));
    OnlyMessages(d, s, pos, i, w.(queue := w.queue + [w.fromNext[0]], fromNext := w.fromNext[1..]));
  }

  lemma DeliverLabelOk(d: Data, s: System, pos: seq<Pos>, i: nat)
    requires Inv(d, s, pos) && Enabled(d.net, d.ids, s, DeliverLabel(i))
    ensures Inv(d, Apply(d.net, d.ids, s, DeliverLabel(i)), pos)
  {
    var w := s.ws[i];
    assert LinkAt(d, s, pos, i);
    LabelLink(d, i, w, pos[i], SentF(s, pos, i), SentB(s, pos, i), SentL(s, i));
    OnlyMessages(d, s, pos, i, w.(queue := w.queue + [w.fromDriver[0]], fromDriver := w.fromDriver[1..]));
  }

  /** Worker `i` may go from `(w, p)` to `(w', p')`: its own part of the invariant is kept, the
      messages it has not run are still the right ones, and the others cannot tell. */
  ghost predicate Keeps(d: Data, i: nat, w: Worker, p: Pos, w': Worker, p': Pos, f: int, b: int, l: int)
    requires Good(d) && i < d.net.n
  {
    && LooksSame(d, i, w, p, w', p')
    && LocalOk(d, i, w', p') && HistoryOk(d, i, w', p')
    && LinkOk(d, i, w', p', f, if i + 1 == d.net.n then p'.b else b, l)
  }

  ghost predicate Own(d: Data, i: nat, w: Worker, p: Pos, f: int, b: int, l: int)
    requires Good(d) && i < d.net.n
  {
    && LocalOk(d, i, w, p) && HistoryOk(d, i, w, p) && LinkOk(d, i, w, p, f, b, l)
    && (i + 1 == d.net.n ==> b == p.b)
    && (p.b < K(d) ==> Restrict(w.params, d.net.uses(i)) == Restrict(d.mem.params, d.net.uses(i)))
  }

  lemma OwnPart(d: Data, s: System, pos: seq<Pos>, i: nat)
    requires Inv(d, s, pos) && i < d.net.n
    ensures Own(d, i, s.ws[i], pos[i], SentF(s, pos, i), SentB(s, pos, i), SentL(s, i))
  {
    assert LocalAt(d, s, pos, i) && HistoryAt(d, s, pos, i) && LinkAt(d, s, pos, i);
    if pos[i].b < K(d) { OldParams(d, s, pos, i); }
  }

  // ── running a task ───────────────────────────────────────────────────────────

  lemma HeadInput(d: Data, i: nat, w: Worker, p: Pos, f: int, b: int, l: int)
    requires Good(d) && i < d.net.n && LinkOk(d, i, w, p, f, b, l) && w.queue != [] && w.queue[0].Input?
    ensures p.f < f && w.queue[0] == Input(Id(d, p.f), Cell(d.net, d.mem, d.batch.xs, p.f, i).x)
    ensures LinkOk(d, i, w.(queue := w.queue[1..]), p.(f := p.f + 1), f, b, l)
  {
    hide Sound, Quiet, WellFormed, MemAfter, Cell, GradIn;
    InputSeqFirst(d, i, p.f, f);
    assert Inputs(w.queue) == [w.queue[0]] + Inputs(w.queue[1..]);
    assert (Inputs(w.queue) + w.fromPrev)[1..] == Inputs(w.queue[1..]) + w.fromPrev;
  }

  lemma HeadGradient(d: Data, i: nat, w: Worker, p: Pos, f: int, b: int, l: int)
    requires Good(d) && i < d.net.n && LinkOk(d, i, w, p, f, b, l) && w.queue != [] && w.queue[0].Gradient?
    ensures p.b < b
    ensures w.queue[0] == Gradient(Id(d, p.b), GradIn(d.net, d.mem, d.batch.xs, d.batch.ys, p.b, i + 1))
    ensures LinkOk(d, i, w.(queue := w.queue[1..]), p.(b := p.b + 1), f, b, l)
  {
    hide Sound, Quiet, WellFormed, MemAfter, Cell, GradIn;
    assert Gradients(w.queue) == [w.queue[0]] + Gradients(w.queue[1..]);
    assert (Gradients(w.queue) + w.fromNext)[1..] == Gradients(w.queue[1..]) + w.fromNext;
    GradSeqFirst(d, i, p.b, b);
  }

  lemma HeadTarget(d: Data, i: nat, w: Worker, p: Pos, f: int, b: int, l: int)
    requires Good(d) && i < d.net.n && LinkOk(d, i, w, p, f, b, l) && w.queue != [] && w.queue[0].Target?
    ensures p.l < l && w.queue[0] == Target(Id(d, p.l), d.batch.ys[p.l])
    ensures LinkOk(d, i, w.(queue := w.queue[1..]), p.(l := p.l + 1), f, b, l)
  {
    hide Sound, Quiet, WellFormed, MemAfter, Cell, GradIn;
    assert Targets(w.queue) == [w.queue[0]] + Targets(w.queue[1..]);
    assert (Targets(w.queue) + w.fromDriver)[1..] == Targets(w.queue[1..]) + w.fromDriver;
    LabelSeqFirst(d, p.l, l);
  }

  /** The last slice is sent no gradients, so its backward count does not matter to its links. */
  lemma LastLink(d: Data, i: nat, w: Worker, p: Pos, f: int, b: nat, l: int, b': nat)
    requires Good(d) && i < d.net.n && LinkOk(d, i, w, p, f, p.b, l) && b == p.b && b' <= K(d)
    ensures LinkOk(d, i, w, p.(b := b'), f, b', l)
  {
  }

  lemma AccumulateGrad(d: Data, i: nat, b: nat)
    requires Good(d) && i < d.net.n && b < K(d)
    ensures Accumulate(d.net, i, Cell(d.net, d.mem, d.batch.xs, b, i),
                       GradIn(d.net, d.mem, d.batch.xs, d.batch.ys, b, i + 1),
                       GradMap(d, i, d.net.uses(i), b)) == GradMap(d, i, d.net.uses(i), b + 1)
  {
  }

  /** What a worker goes on to after its backward of micro-batch `b`. */
  ghost function AfterBack(d: Data, i: nat, b: nat): Phase
    requires Good(d) && i < d.net.n && b < K(d)
  {
    var g := GradIn(d.net, d.mem, d.batch.xs, d.batch.ys, b, i);
    if b + 1 == K(d) then Syncing(Id(d, b), g, Replicas(d.net, i)) else Pushing(Id(d, b), g, {})
  }

  /** Back-propagating the next micro-batch through a worker that still holds the old parameters. */
  lemma BackOk(d: Data, i: nat, w: Worker, b: nat)
    requires Good(d) && i < d.net.n && b < K(d)
    requires w.grads == GradMap(d, i, d.net.uses(i), b)
    requires Restrict(w.params, d.net.uses(i)) == Restrict(d.mem.params, d.net.uses(i))
    ensures BackThrough(d.net, i, w, Id(d, b), Cell(d.net, d.mem, d.batch.xs, b, i),
                        GradIn(d.net, d.mem, d.batch.xs, d.batch.ys, b, i + 1), d.ids) ==
            w.(grads := GradMap(d, i, d.net.uses(i), b + 1), backed := w.backed + [Id(d, b)],
               phase := AfterBack(d, i, b))
  {
    var tape := Cell(d.net, d.mem, d.batch.xs, b, i);
    assert tape.(params := Restrict(w.params, d.net.uses(i))) == tape;
    AccumulateGrad(d, i, b);
  }

  /** What the others see of a worker that back-propagated one micro-batch. */
  lemma BackLooksSame(d: Data, i: nat, w: Worker, p: Pos, w': Worker, p': Pos)
    requires Good(d) && i < d.net.n && w.phase.Idle? && p.b < K(d) && p'.b == p.b + 1
    requires w'.params == w.params && w'.tied == w.tied && w'.phase == AfterBack(d, i, p.b)
    requires i + 1 < d.net.n ==> p'.f == p.f
    ensures LooksSame(d, i, w, p, w', p')
  {
  }

  // a gradient, at a slice that is not the last

  /** The worker after back-propagating the gradient at the head of its queue. */
  ghost function Backed(d: Data, i: nat, w: Worker, p: Pos): Worker
    requires Good(d) && i < d.net.n && p.b < p.f <= K(d)
  {
    w.(queue := if w.queue == [] then [] else w.queue[1..],
       outputs := Outs(d, i, p.b + 1, p.f), grads := GradMap(d, i, d.net.uses(i), p.b + 1),
       backed := w.backed + [Id(d, p.b)], phase := AfterBack(d, i, p.b))
  }

  lemma RunGradientIs(d: Data, i: nat, w: Worker, p: Pos)
    requires Good(d) && i + 1 < d.net.n && LocalOk(d, i, w, p) && w.queue != [] && p.b < p.f
    requires w.queue[0] == Gradient(Id(d, p.b), GradIn(d.net, d.mem, d.batch.xs, d.batch.ys, p.b, i + 1))
    requires Restrict(w.params, d.net.uses(i)) == Restrict(d.mem.params, d.net.uses(i))
    ensures RunTask(d.net, i, d.ids, w) == Backed(d, i, w, p)
  {
    hide Sound, Quiet, WellFormed, MemAfter, Cell, Output, GradIn, LossAt, Mean, LocalGrad, SyncedStep;
    OutsFirst(d, i, p.b, p.f);
    BackOk(d, i, w.(queue := w.queue[1..], outputs := w.outputs - {Id(d, p.b)}), p.b);
  }

  lemma BackedOk(d: Data, i: nat, w: Worker, p: Pos)
    requires Good(d) && i + 1 < d.net.n && LocalOk(d, i, w, p) && HistoryOk(d, i, w, p) && w.phase.Idle? && p.b < p.f
    ensures LocalOk(d, i, Backed(d, i, w, p), p.(b := p.b + 1))
    ensures HistoryOk(d, i, Backed(d, i, w, p), p.(b := p.b + 1))
  {
    hide Sound, Quiet, WellFormed, MemAfter, Cell, Output, GradIn, LossAt, Mean, LocalGrad, SyncedStep;
    assert Holding(d, i, Backed(d, i, w, p), p.(b := p.b + 1)) == d.net.uses(i);
    AppendAssoc(AllIds(d.ids, d.past), IdsOf(d.ids, d.batch.id, p.b), [Id(d, p.b)]);
  }

  /** A gradient never arrives before its micro-batch was run forward. */
  lemma HasGraph(d: Data, s: System, pos: seq<Pos>, i: nat)
    requires Inv(d, s, pos) && i + 1 < d.net.n && pos[i].b < SentB(s, pos, i)
    ensures pos[i].b < pos[i].f
  {
    AllCounts(d, s, pos);
    Chain(d, s, pos, i, i + 1);
    assert CountsAt(d, s, pos, i + 1);
  }

  lemma GradientKeeps(d: Data, i: nat, w: Worker, p: Pos, f: int, b: int, l: int)
    requires Good(d) && i + 1 < d.net.n && Own(d, i, w, p, f, b, l) && p.b < p.f
    requires w.phase.Idle? && w.queue != [] && w.queue[0].Gradient?
    ensures Keeps(d, i, w, p, RunTask(d.net, i, d.ids, w), p.(b := p.b + 1), f, b, l)
  {
    HeadGradient(d, i, w, p, f, b, l);
    RunGradientIs(d, i, w, p);
    BackedOk(d, i, w, p);
    var w', p' := Backed(d, i, w, p), p.(b := p.b + 1);
    LinkSame(d, i, w.(queue := w.queue[1..]), w', p', f, b, l);
    BackLooksSame(d, i, w, p, w', p');
  }

  // an activation, at a slice that is not the last

  /** A worker that still holds the old parameters records the tape of the grid. */
  lemma TapeIs(d: Data, i: nat, w: Worker, f: nat)
    requires Good(d) && i < d.net.n && f < K(d) && w.buf == BufAt(d.net, d.mem, d.batch.xs, f, i)
    requires Restrict(w.params, d.net.uses(i)) == Restrict(d.mem.params, d.net.uses(i))
    ensures TapeOf(d.net, i, w, Cell(d.net, d.mem, d.batch.xs, f, i).x) == Cell(d.net, d.mem, d.batch.xs, f, i)
  {
  }

  ghost function Forwarded(d: Data, i: nat, w: Worker, p: Pos): Worker
    requires Good(d) && i < d.net.n && p.f < K(d)
  {
    w.(queue := if w.queue == [] then [] else w.queue[1..],
       buf := BufAt(d.net, d.mem, d.batch.xs, p.f + 1, i), ran := w.ran + [Id(d, p.f)],
       outputs := Outs(d, i, p.b, p.f + 1),
       phase := if i + 1 == d.net.n then w.phase else Activating(Id(d, p.f), Output(d.net, d.mem, d.batch.xs, p.f, i)))
  }

  lemma ForwardedHistory(d: Data, i: nat, w: Worker, p: Pos)
    requires Good(d) && i < d.net.n && LocalOk(d, i, w, p) && HistoryOk(d, i, w, p) && w.phase.Idle? && p.f < K(d)
    ensures HistoryOk(d, i, Forwarded(d, i, w, p), p.(f := p.f + 1))
    ensures LooksSame(d, i, w, p, Forwarded(d, i, w, p), p.(f := p.f + 1))
  {
    hide Good, MemAfter, GradIn, LossAt, Mean, Output, BufAt, Outs;
    AppendAssoc(AllIds(d.ids, d.past), IdsOf(d.ids, d.batch.id, p.f), [Id(d, p.f)]);
  }

  lemma ForwardedOk(d: Data, i: nat, w: Worker, p: Pos)
    requires Good(d) && i < d.net.n && LocalOk(d, i, w, p) && HistoryOk(d, i, w, p) && w.phase.Idle? && p.f < K(d)
    requires i + 1 == d.net.n ==> p.l <= p.f
    ensures LocalOk(d, i, Forwarded(d, i, w, p), p.(f := p.f + 1))
    ensures HistoryOk(d, i, Forwarded(d, i, w, p), p.(f := p.f + 1))
    ensures LooksSame(d, i, w, p, Forwarded(d, i, w, p), p.(f := p.f + 1))
  {
    hide HistoryOk, LooksSame, Sound, Quiet, MemAfter, GradIn, LossAt, Mean, LocalGrad, SyncedStep;
    ForwardedHistory(d, i, w, p);
  }

  lemma RunInputIs(d: Data, i: nat, w: Worker, p: Pos)
    requires Good(d) && i < d.net.n && LocalOk(d, i, w, p) && w.phase.Idle? && w.queue != [] && p.f < K(d)
    requires w.queue[0] == Input(Id(d, p.f), Cell(d.net, d.mem, d.batch.xs, p.f, i).x)
    requires Restrict(w.params, d.net.uses(i)) == Restrict(d.mem.params, d.net.uses(i))
    requires i + 1 == d.net.n ==> p.l <= p.f
    ensures RunTask(d.net, i, d.ids, w) == Forwarded(d, i, w, p)
  {
    TapeIs(d, i, w.(queue := w.queue[1..]), p.f);
    if i + 1 == d.net.n { assert Labs(d, p.b, p.l) == map[]; }
  }

  lemma InputKeeps(d: Data, i: nat, w: Worker, p: Pos, f: int, b: int, l: int)
    requires Good(d) && i < d.net.n && Own(d, i, w, p, f, b, l)
    requires w.phase.Idle? && w.queue != [] && w.queue[0].Input?
    requires i + 1 == d.net.n ==> p.l <= p.f
    ensures Keeps(d, i, w, p, RunTask(d.net, i, d.ids, w), p.(f := p.f + 1), f, b, l)
  {
    HeadInput(d, i, w, p, f, b, l);
    RunInputIs(d, i, w, p);
    ForwardedOk(d, i, w, p);
    LinkSame(d, i, w.(queue := w.queue[1..]), Forwarded(d, i, w, p), p.(f := p.f + 1), f, b, l);
  }

  // the last slice: label and activation have met

  /** The last slice once it ran the activation at the head of its queue, before the backward. */
  ghost function Ran(d: Data, i: nat, w: Worker, p: Pos): Worker
    requires Good(d) && i < d.net.n && p.f < K(d)
  {
    w.(queue := if w.queue == [] then [] else w.queue[1..],
       buf := BufAt(d.net, d.mem, d.batch.xs, p.f + 1, i), ran := w.ran + [Id(d, p.f)])
  }

  /** The last slice `w`, about to back-propagate micro-batch `p.b`. */
  ghost predicate Meets(d: Data, i: nat, w: Worker, p: Pos)
    requires Good(d) && i < d.net.n
  {
    && p.b < K(d) && CountsOk(d, i, p.(b := p.b + 1))
    && w.buf == BufAt(d.net, d.mem, d.batch.xs, p.f, i) && w.params.Keys == d.net.uses(i)
    && w.opt == OptOf(d, i, false)
    && w.ran == AllIds(d.ids, d.past) + IdsOf(d.ids, d.batch.id, p.f)
    && w.backed == AllIds(d.ids, d.past) + IdsOf(d.ids, d.batch.id, p.b)
    && w.stepped == BatchIds(d.past) && w.reported == Reports(d.net, d.ids, d.start, d.past)
  }

  /** What is reported after micro-batch `b`: the batch's mean loss after its last one. */
  ghost function Report(d: Data, b: nat): seq<(nat, real)>
    requires Good(d) && b < K(d)
  {
    if b + 1 == K(d) then [(Id(d, b), Mean(LossAt(d.net, d.mem, d.batch.xs, d.batch.ys, b + 1), K(d)))] else []
  }

  ghost function BackedLast(d: Data, i: nat, w: Worker, p: Pos): Worker
    requires Good(d) && i < d.net.n && 0 < p.b <= p.f <= K(d) && p.l <= K(d)
  {
    w.(outputs := Outs(d, i, p.b, p.f), labels := Labs(d, p.b, p.l),
       losses := LossOf(d, p.b),
       reported := w.reported + Report(d, p.b - 1),
       grads := GradMap(d, i, d.net.uses(i), p.b),
       backed := w.backed + [Id(d, p.b - 1)], phase := AfterBack(d, i, p.b - 1))
  }

  /** The loss sum after one more micro-batch at the last slice. */
  ghost function WithLoss(d: Data, w: Worker, b: nat): Worker
    requires Good(d) && b < K(d)
  {
    w.(losses := LossOf(d, b + 1),
       reported := w.reported + Report(d, b))
  }

  /** Where the gradient of the last slice comes from. */
  lemma LastGradient(d: Data, i: nat, b: nat)
    requires Good(d) && i + 1 == d.net.n && b < K(d)
    ensures GradIn(d.net, d.mem, d.batch.xs, d.batch.ys, b, i + 1) ==
            d.net.lossGrad(Output(d.net, d.mem, d.batch.xs, b, i), d.batch.ys[b], d.ids.k)
  {
    hide Sound, Quiet, MemAfter, Cell, Output;
  }

  lemma LossJoins(d: Data, i: nat, w: Worker, b: nat)
    requires Good(d) && i + 1 == d.net.n && b < K(d) && w.losses == LossOf(d, b)
    ensures var sum := d.net.plus(if d.batch.id in w.losses then w.losses[d.batch.id] else 0,
                                  d.net.loss(Output(d.net, d.mem, d.batch.xs, b, i), d.batch.ys[b]));
      (if d.ids.last(Id(d, b)) then w.(losses := w.losses - {d.batch.id},
                                       reported := w.reported + [(Id(d, b), Mean(sum, d.ids.k))])
       else w.(losses := w.losses[d.batch.id := sum])) == WithLoss(d, w, b)
  {
    hide Quiet, MemAfter, Cell, Output;
    LossStep(d, i, b);
    var sum := LossAt(d.net, d.mem, d.batch.xs, d.batch.ys, b + 1);
    if b + 1 == K(d) {
      assert w.losses - {d.batch.id} == map[];
    } else {
      assert w.losses[d.batch.id := sum] == map[d.batch.id := sum];
      assert w.reported + [] == w.reported;
    }
  }

  lemma LossStep(d: Data, i: nat, b: nat)
    requires Good(d) && i + 1 == d.net.n && b < K(d)
    ensures var before := LossOf(d, b);
      LossAt(d.net, d.mem, d.batch.xs, d.batch.ys, b + 1) ==
      d.net.plus(if d.batch.id in before then before[d.batch.id] else 0,
                 d.net.loss(Output(d.net, d.mem, d.batch.xs, b, i), d.batch.ys[b]))
    ensures d.ids.full(Id(d, b)) == d.batch.id && (d.ids.last(Id(d, b)) <==> b + 1 == K(d))
  {
    hide Quiet, MemAfter, Cell, Output, WellFormed;
  }

  lemma BackwardLastIs(d: Data, i: nat, w: Worker, b: nat)
    requires Good(d) && i + 1 == d.net.n && b < K(d)
    requires w.grads == GradMap(d, i, d.net.uses(i), b) && w.losses == LossOf(d, b)
    requires Restrict(w.params, d.net.uses(i)) == Restrict(d.mem.params, d.net.uses(i))
    ensures BackwardLast(d.net, i, d.ids, w, Id(d, b), Output(d.net, d.mem, d.batch.xs, b, i),
                         Cell(d.net, d.mem, d.batch.xs, b, i), d.batch.ys[b]) ==
            WithLoss(d, w, b).(grads := GradMap(d, i, d.net.uses(i), b + 1),
                               backed := w.backed + [Id(d, b)], phase := AfterBack(d, i, b))
  {
    hide Quiet, Sound, MemAfter, Cell, Output, WellFormed, GradIn, LossAt, Mean, LossOf, BackThrough, GradMap, Restrict;
    LossStep(d, i, b);
    LossJoins(d, i, w, b);
    LastGradient(d, i, b);
    BackOk(d, i, WithLoss(d, w, b), b);
  }

  lemma BackedLastLocal(d: Data, i: nat, w: Worker, p: Pos)
    requires Good(d) && i + 1 == d.net.n && CountsOk(d, i, p) && p.b > 0
    requires w.buf == BufAt(d.net, d.mem, d.batch.xs, p.f, i) && w.params.Keys == d.net.uses(i)
    requires w.opt == OptOf(d, i, false)
    ensures LocalOk(d, i, BackedLast(d, i, w, p), p)
  {
    hide Sound, Quiet, WellFormed, MemAfter, Cell, Output, GradIn, LossAt, Mean, LocalGrad, SyncedStep;
    assert Holding(d, i, BackedLast(d, i, w, p), p) == d.net.uses(i);
  }

  lemma BackedLastHistory(d: Data, i: nat, w: Worker, p: Pos)
    requires Good(d) && i + 1 == d.net.n && CountsOk(d, i, p) && p.b > 0
    requires w.ran == AllIds(d.ids, d.past) + IdsOf(d.ids, d.batch.id, p.f)
    requires w.backed == AllIds(d.ids, d.past) + IdsOf(d.ids, d.batch.id, p.b - 1)
    requires w.stepped == BatchIds(d.past) && w.reported == Reports(d.net, d.ids, d.start, d.past)
    ensures HistoryOk(d, i, BackedLast(d, i, w, p), p)
  {
    hide Sound, Quiet, WellFormed, MemAfter, Cell, Output, GradIn, LossAt, Mean, LocalGrad, SyncedStep;
    AppendAssoc(AllIds(d.ids, d.past), IdsOf(d.ids, d.batch.id, p.b - 1), [Id(d, p.b - 1)]);
    ReportsSnoc(d);
    var w' := BackedLast(d, i, w, p);
    assert w'.stepped == BatchIds(d.past) + [];
    assert p.b < K(d) ==> w'.reported == w.reported;
  }

  lemma ReportsSnoc(d: Data)
    requires Good(d)
    ensures Reports(d.net, d.ids, d.start, d.past + [d.batch]) ==
            Reports(d.net, d.ids, d.start, d.past) + Report(d, K(d) - 1)
  {
    assert (d.past + [d.batch])[..|d.past|] == d.past;
  }

  /** An activation that finds its label is back-propagated at once. */
  lemma ForwardMeets(net: Net, i: nat, ids: Ids, w: Worker, id: nat, x: Tensor)
    requires i + 1 == net.n && id in w.labels
    ensures var tape := TapeOf(net, i, w, x);
      var out := net.run(i, tape);
      ForwardStage(net, i, ids, w, id, x) ==
      BackwardLast(net, i, ids, w.(buf := out.buf, ran := w.ran + [id], labels := w.labels - {id}),
                   id, out.y, tape, w.labels[id])
  {
  }

  lemma RunInputLastIs(d: Data, i: nat, w: Worker, p: Pos)
    requires Good(d) && i + 1 == d.net.n && p.b == p.f < p.l <= K(d) && w.queue != []
    requires w.buf == BufAt(d.net, d.mem, d.batch.xs, p.f, i)
    requires w.outputs == map[] && w.labels == Labs(d, p.b, p.l)
    requires w.grads == GradMap(d, i, d.net.uses(i), p.b) && w.losses == LossOf(d, p.b)
    requires Restrict(w.params, d.net.uses(i)) == Restrict(d.mem.params, d.net.uses(i))
    ensures ForwardStage(d.net, i, d.ids, w.(queue := w.queue[1..]), Id(d, p.f),
                         Cell(d.net, d.mem, d.batch.xs, p.f, i).x) ==
            BackedLast(d, i, Ran(d, i, w, p), Pos(p.f + 1, p.b + 1, p.l))
  {
    hide Sound, Quiet, MemAfter, Cell, GradIn, LossAt, Mean, LocalGrad, SyncedStep;
    TapeIs(d, i, w.(queue := w.queue[1..]), p.f);
    LabsFirst(d, p.b, p.l);
    ForwardMeets(d.net, i, d.ids, w.(queue := w.queue[1..]), Id(d, p.f), Cell(d.net, d.mem, d.batch.xs, p.f, i).x);
    MeetingIs(d, i, Ran(d, i, w, p), Pos(p.f + 1, p.b, p.l));
  }

  lemma MeetingIs(d: Data, i: nat, w: Worker, p: Pos)
    requires Good(d) && i + 1 == d.net.n && p.b + 1 == p.f <= K(d) && p.b < p.l <= K(d)
    requires w.outputs == map[] && w.labels == Labs(d, p.b, p.l)
    requires w.grads == GradMap(d, i, d.net.uses(i), p.b) && w.losses == LossOf(d, p.b)
    requires Restrict(w.params, d.net.uses(i)) == Restrict(d.mem.params, d.net.uses(i))
    ensures BackwardLast(d.net, i, d.ids, w.(labels := w.labels - {Id(d, p.b)}), Id(d, p.b),
                         Output(d.net, d.mem, d.batch.xs, p.b, i),
                         Cell(d.net, d.mem, d.batch.xs, p.b, i), d.batch.ys[p.b]) ==
            BackedLast(d, i, w, p.(b := p.b + 1))
  {
    hide Sound, Quiet, WellFormed, MemAfter, Cell, Output, GradIn, LossAt, Mean, LocalGrad, SyncedStep;
    LabsFirst(d, p.b, p.l);
    BackwardLastIs(d, i, w.(labels := w.labels - {Id(d, p.b)}), p.b);
    assert Outs(d, i, p.b + 1, p.f) == map[];
  }

  /** A worker that has not done its last backward has not stepped in this batch. */
  lemma NotYet(d: Data, i: nat, w: Worker, p: Pos)
    requires Good(d) && i < d.net.n && LocalOk(d, i, w, p) && HistoryOk(d, i, w, p) && p.b < K(d)
    ensures w.opt == OptOf(d, i, false) && w.grads == GradMap(d, i, d.net.uses(i), p.b)
    ensures w.outputs == Outs(d, i, p.b, p.f) && w.labels == Labs(d, p.b, p.l)
    ensures i + 1 == d.net.n ==> w.losses == LossOf(d, p.b) && w.reported == Reports(d.net, d.ids, d.start, d.past)
    ensures w.stepped == BatchIds(d.past)
    ensures w.ran == AllIds(d.ids, d.past) + IdsOf(d.ids, d.batch.id, p.f)
    ensures w.backed == AllIds(d.ids, d.past) + IdsOf(d.ids, d.batch.id, p.b)
  {
    assert BatchIds(d.past) + [] == BatchIds(d.past);
  }

  lemma RunIs(net: Net, i: nat, ids: Ids, w: Worker)
    requires w.queue != []
    ensures w.queue[0].Input? ==>
      RunTask(net, i, ids, w) == ForwardStage(net, i, ids, w.(queue := w.queue[1..]), w.queue[0].id, w.queue[0].x)
    ensures w.queue[0].Target? ==>
      RunTask(net, i, ids, w) == TakeLabel(net, i, ids, w.(queue := w.queue[1..]), w.queue[0].id, w.queue[0].y)
  {
  }

  /** Where an activation meets its label. */
  lemma InputLastIs(d: Data, i: nat, w: Worker, p: Pos)
    requires Good(d) && i + 1 == d.net.n && LocalOk(d, i, w, p) && HistoryOk(d, i, w, p) && p.f < p.l
    requires Restrict(w.params, d.net.uses(i)) == Restrict(d.mem.params, d.net.uses(i))
    requires w.queue != [] && w.queue[0] == Input(Id(d, p.f), Cell(d.net, d.mem, d.batch.xs, p.f, i).x)
    ensures RunTask(d.net, i, d.ids, w) == BackedLast(d, i, Ran(d, i, w, p), Pos(p.f + 1, p.b + 1, p.l))
  {
    NotYet(d, i, w, p);
    RunIs(d.net, i, d.ids, w);
    assert Outs(d, i, p.b, p.f) == map[];
    RunInputLastIs(d, i, w, p);
  }

  lemma RanMeets(d: Data, i: nat, w: Worker, p: Pos)
    requires Good(d) && i + 1 == d.net.n && LocalOk(d, i, w, p) && HistoryOk(d, i, w, p) && p.f < p.l
    ensures Meets(d, i, Ran(d, i, w, p), p.(f := p.f + 1))
  {
    hide Sound, Quiet, WellFormed, MemAfter, Cell, Output, GradIn, LossAt, Mean, LocalGrad, SyncedStep;
    NotYet(d, i, w, p);
    AppendAssoc(AllIds(d.ids, d.past), IdsOf(d.ids, d.batch.id, p.f), [Id(d, p.f)]);
  }

  lemma InputLastMoves(d: Data, i: nat, w: Worker, p: Pos, f: int, l: int)
    requires Good(d) && i + 1 == d.net.n && LocalOk(d, i, w, p) && HistoryOk(d, i, w, p) && p.f < p.l
    requires w.phase.Idle? && w.queue != [] && LinkOk(d, i, w.(queue := w.queue[1..]), p.(f := p.f + 1), f, p.b, l)
    ensures var p' := Pos(p.f + 1, p.b + 1, p.l);
            Keeps(d, i, w, p, BackedLast(d, i, Ran(d, i, w, p), p'), p', f, p.b, l)
  {
    assert p.f < K(d);
    hide LocalOk, HistoryOk, LinkOk, Keeps, BackedLast, Meets, Good;
    RanMeets(d, i, w, p);
    LinkSame(d, i, w.(queue := w.queue[1..]), Ran(d, i, w, p), p.(f := p.f + 1), f, p.b, l);
    MeetKeeps(d, i, w, p, Ran(d, i, w, p), p.(f := p.f + 1), f, l);
  }

  lemma InputLastKeeps(d: Data, i: nat, w: Worker, p: Pos, f: int, b: int, l: int)
    requires Good(d) && i + 1 == d.net.n && Own(d, i, w, p, f, b, l) && p.f < p.l
    requires w.phase.Idle? && w.queue != [] && w.queue[0].Input?
    ensures Keeps(d, i, w, p, RunTask(d.net, i, d.ids, w), Pos(p.f + 1, p.b + 1, p.l), f, b, l)
  {
    HeadInput(d, i, w, p, f, b, l);
    InputLastIs(d, i, w, p);
    InputLastMoves(d, i, w, p, f, l);
  }

  /** The last slice after it back-propagated one micro-batch. */
  lemma MeetKeeps(d: Data, i: nat, w: Worker, p: Pos, w1: Worker, p1: Pos, f: int, l: int)
    requires Good(d) && i + 1 == d.net.n && w.phase.Idle? && p1.b == p.b && Meets(d, i, w1, p1)
    requires w1.params == w.params && w1.tied == w.tied && LinkOk(d, i, w1, p1, f, p.b, l)
    ensures Keeps(d, i, w, p, BackedLast(d, i, w1, p1.(b := p.b + 1)), p1.(b := p.b + 1), f, p.b, l)
  {
    hide Sound, Quiet, WellFormed, MemAfter, Cell, Output, GradIn, LossAt, Mean, LocalGrad, SyncedStep;
    hide LocalOk, HistoryOk, LooksSame, LinkOk;
    var p' := p1.(b := p.b + 1);
    var w' := BackedLast(d, i, w1, p');
    BackedLastLocal(d, i, w1, p');
    BackedLastHistory(d, i, w1, p');
    LastLink(d, i, w1, p1, f, p1.b, l, p'.b);
    LinkSame(d, i, w1, w', p', f, p'.b, l);
    BackLooksSame(d, i, w, p, w', p');
  }

  // the last slice: a label

  lemma RunTargetLastIs(d: Data, i: nat, w: Worker, p: Pos)
    requires Good(d) && i + 1 == d.net.n && p.b == p.l < p.f <= K(d)
    requires w.outputs == Outs(d, i, p.b, p.f) && w.labels == map[]
    requires w.grads == GradMap(d, i, d.net.uses(i), p.b) && w.losses == LossOf(d, p.b)
    requires Restrict(w.params, d.net.uses(i)) == Restrict(d.mem.params, d.net.uses(i))
    ensures TakeLabel(d.net, i, d.ids, w, Id(d, p.l), d.batch.ys[p.l]) ==
        BackedLast(d, i, w, Pos(p.f, p.b + 1, p.l + 1))
  {
    hide Sound, Quiet, WellFormed, MemAfter, Cell, Output, GradIn, LossAt, Mean, LocalGrad, SyncedStep;
    OutsFirst(d, i, p.b, p.f);
    assert Labs(d, p.b + 1, p.l + 1) == map[];
    BackwardLastIs(d, i, w.(outputs := w.outputs - {Id(d, p.b)}), p.b);
  }

  lemma TargetLastIs(d: Data, i: nat, w: Worker, p: Pos)
    requires Good(d) && i + 1 == d.net.n && LocalOk(d, i, w, p) && HistoryOk(d, i, w, p) && p.l < p.f
    requires Restrict(w.params, d.net.uses(i)) == Restrict(d.mem.params, d.net.uses(i))
    requires w.queue != [] && w.queue[0] == Target(Id(d, p.l), d.batch.ys[p.l])
    ensures RunTask(d.net, i, d.ids, w) == BackedLast(d, i, w.(queue := w.queue[1..]), Pos(p.f, p.b + 1, p.l + 1))
  {
    NotYet(d, i, w, p);
    RunIs(d.net, i, d.ids, w);
    assert Labs(d, p.b, p.l) == map[];
    RunTargetLastIs(d, i, w.(queue := w.queue[1..]), p);
  }

  lemma TargetLastMoves(d: Data, i: nat, w: Worker, p: Pos, f: int, l: int)
    requires Good(d) && i + 1 == d.net.n && LocalOk(d, i, w, p) && HistoryOk(d, i, w, p) && p.l < p.f
    requires w.phase.Idle? && w.queue != [] && LinkOk(d, i, w.(queue := w.queue[1..]), p.(l := p.l + 1), f, p.b, l)
    ensures Keeps(d, i, w, p, BackedLast(d, i, w.(queue := w.queue[1..]), Pos(p.f, p.b + 1, p.l + 1)),
                  Pos(p.f, p.b + 1, p.l + 1), f, p.b, l)
  {
    NotYet(d, i, w, p);
    assert Meets(d, i, w.(queue := w.queue[1..]), p.(l := p.l + 1));
    MeetKeeps(d, i, w, p, w.(queue := w.queue[1..]), p.(l := p.l + 1), f, l);
  }

  lemma TargetLastKeeps(d: Data, i: nat, w: Worker, p: Pos, f: int, b: int, l: int)
    requires Good(d) && i + 1 == d.net.n && Own(d, i, w, p, f, b, l) && p.l < p.f
    requires w.phase.Idle? && w.queue != [] && w.queue[0].Target?
    ensures Keeps(d, i, w, p, RunTask(d.net, i, d.ids, w), Pos(p.f, p.b + 1, p.l + 1), f, b, l)
  {
    HeadTarget(d, i, w, p, f, b, l);
    TargetLastIs(d, i, w, p);
    TargetLastMoves(d, i, w, p, f, l);
  }

  /** A label that came first is kept. */
  lemma KeptOk(d: Data, i: nat, w: Worker, p: Pos)
    requires Good(d) && i + 1 == d.net.n && LocalOk(d, i, w, p) && HistoryOk(d, i, w, p) && w.queue != []
    requires w.phase.Idle? && p.f <= p.l < K(d)
    requires w.queue[0] == Target(Id(d, p.l), d.batch.ys[p.l])
    ensures var w' := w.(queue := w.queue[1..], labels := Labs(d, p.b, p.l + 1));
      var p' := p.(l := p.l + 1);
      && RunTask(d.net, i, d.ids, w) == w' && LocalOk(d, i, w', p') && HistoryOk(d, i, w', p')
      && LooksSame(d, i, w, p, w', p')
  {
    hide Sound, Quiet, WellFormed, MemAfter, Cell, Output, GradIn, LossAt, Mean, LocalGrad, SyncedStep;
    assert Outs(d, i, p.b, p.f) == map[];
  }

  lemma TargetKeeps(d: Data, i: nat, w: Worker, p: Pos, f: int, b: int, l: int)
    requires Good(d) && i + 1 == d.net.n && Own(d, i, w, p, f, b, l) && p.f <= p.l
    requires w.phase.Idle? && w.queue != [] && w.queue[0].Target?
    ensures Keeps(d, i, w, p, RunTask(d.net, i, d.ids, w), p.(l := p.l + 1), f, b, l)
  {
    HeadTarget(d, i, w, p, f, b, l);
    KeptOk(d, i, w, p);
    LinkSame(d, i, w.(queue := w.queue[1..]), w.(queue := w.queue[1..], labels := Labs(d, p.b, p.l + 1)),
             p.(l := p.l + 1), f, b, l);
  }

  lemma NoLabelElsewhere(d: Data, i: nat, w: Worker, p: Pos, f: int, b: int, l: int)
    requires Good(d) && i < d.net.n && LinkOk(d, i, w, p, f, b, l) && l == p.l
    ensures w.queue != [] ==> !w.queue[0].Target?
  {
  }

  lemma NoGradientAtLast(d: Data, i: nat, w: Worker, p: Pos, f: int, b: int, l: int)
    requires Good(d) && i < d.net.n && LinkOk(d, i, w, p, f, b, l) && b == p.b
    ensures w.queue != [] ==> !w.queue[0].Gradient?
  {
  }

  /** The counters of worker `i` after the task at the head of its queue. */
  lemma TaskKeeps(d: Data, i: nat, w: Worker, p: Pos, f: int, b: int, l: int) returns (p': Pos)
    requires Good(d) && i < d.net.n && Own(d, i, w, p, f, b, l) && w.phase.Idle? && w.queue != []
    requires i + 1 < d.net.n && p.b < b ==> p.b < p.f
    requires i + 1 < d.net.n ==> l == 0
    ensures Keeps(d, i, w, p, RunTask(d.net, i, d.ids, w), p', f, b, l)
  {
    hide Good, Keeps, RunTask;
    match w.queue[0]
    case Input(_, _) =>
      if i + 1 == d.net.n && p.f < p.l {
        InputLastKeeps(d, i, w, p, f, b, l);
        p' := Pos(p.f + 1, p.b + 1, p.l);
      } else {
        InputKeeps(d, i, w, p, f, b, l);
        p' := p.(f := p.f + 1);
      }
    case Target(_, _) =>
      if i + 1 < d.net.n { NoLabelElsewhere(d, i, w, p, f, b, l); }
      if p.l < p.f {
        TargetLastKeeps(d, i, w, p, f, b, l);
        p' := Pos(p.f, p.b + 1, p.l + 1);
      } else {
        TargetKeeps(d, i, w, p, f, b, l);
        p' := p.(l := p.l + 1);
      }
    case Gradient(_, _) =>
      if i + 1 == d.net.n { NoGradientAtLast(d, i, w, p, f, b, l); }
      HeadGradient(d, i, w, p, f, b, l);
      GradientKeeps(d, i, w, p, f, b, l);
      p' := p.(b := p.b + 1);
  }

  lemma RunOk(d: Data, s: System, pos: seq<Pos>, i: nat) returns (pos': seq<Pos>)
    requires Inv(d, s, pos) && Enabled(d.net, d.ids, s, Run(i))
    ensures Inv(d, Apply(d.net, d.ids, s, Run(i)), pos')
  {
    OwnPart(d, s, pos, i);
    if i + 1 < d.net.n && pos[i].b < SentB(s, pos, i) { HasGraph(d, s, pos, i); }
    var p' := TaskKeeps(d, i, s.ws[i], pos[i], SentF(s, pos, i), SentB(s, pos, i), SentL(s, i));
    ReplaceOne(d, s, pos, i, RunTask(d.net, i, d.ids, s.ws[i]), p');
    pos' := pos[i := p'];
  }
}
