/** What the worker pipeline guarantees, for every interleaving of its workers' queues, links and
    blocking calls, and for any number of batches. */
module PipelineResults {
  import opened Network
  import opened Wavefront
  import opened Protocol
  import opened PipelineInvariant
  import opened PipelineFrames
  import opened PipelineRuns
  import PipelineOptimize

  /** A run from freshly initialised workers to the system `s`. */
  ghost predicate LeadsTo(net: Net, k: nat, mem: Memory, first: Batch, acts: seq<Action>, s: System) {
    && Fresh(net, k, mem, first)
    && IsRun(net, Numbered(k), Start(net, mem, first), acts)
    && s == EndOf(net, Numbered(k), Start(net, mem, first), acts)
  }

  /** The batches trained when `batch_done` has arrived. */
  function Trained(s: System): seq<Batch> {
    s.driver.finished + [s.driver.batch]
  }

  ghost predicate AllFit(batches: seq<Batch>, k: nat) {
    0 < k && forall j | 0 <= j < |batches| :: |batches[j].xs| == |batches[j].ys| == k
  }

  lemma BatchesFit(net: Net, k: nat, mem: Memory, first: Batch, acts: seq<Action>, s: System)
    returns (d: Data, pos: seq<Pos>)
    requires LeadsTo(net, k, mem, first, acts, s)
    ensures Inv(d, s, pos) && d.net == net && d.ids == Numbered(k) && d.start == mem && K(d) == k
    ensures d.past == s.driver.finished && d.batch == s.driver.batch
    ensures AllFit(s.driver.finished, k) && AllFit(Trained(s), k)
    ensures d.mem == MemAfter(net, mem, s.driver.finished) && WellFormed(net, d.mem)
  {
    hide LocalAt, HistoryAt, LinkAt, ParamsOk, TiedOk, IsRun, EndOf, Start, WellFormed;
    d, pos := Reachable(net, k, mem, first, acts);
    GoodFacts(d);
  }

  // ── the weights ──────────────────────────────────────────────────────────────

  /** Worker `i` holds slice `i` of `mem`. */
  ghost predicate Holds(net: Net, i: nat, w: Worker, mem: Memory)
    requires i < net.n == |mem.bufs|
  {
    w.params == Restrict(mem.params, net.uses(i)) && w.opt == Restrict(mem.opt, Owned(net, i)) && w.buf == mem.bufs[i]
  }

  lemma HoldsNew(d: Data, s: System, pos: seq<Pos>, i: nat)
    requires Inv(d, s, pos) && s.driver.done && i < d.net.n
    requires WellFormed(d.net, d.mem) && 0 < |d.batch.xs| == |d.batch.ys|
    ensures Holds(d.net, i, s.ws[i], Synced(d.net, d.mem, d.batch.xs, d.batch.ys))
  {
    AllDone(d, s, pos, i);
    LocalNew(d, s, pos, i);
    hide Good, LocalAt, HistoryAt, LinkAt, ParamsOk, TiedOk, DriverOk, SyncedStep, LocalOk;
    var mem := Synced(d.net, d.mem, d.batch.xs, d.batch.ys);
    forall p | p in d.net.uses(i) ensures p in s.ws[i].params && p in mem.params && s.ws[i].params[p] == mem.params[p] {
      AllNew(d, s, pos, i, p);
    }
    SameMap(s.ws[i].params, Restrict(mem.params, d.net.uses(i)));
  }

  lemma LocalNew(d: Data, s: System, pos: seq<Pos>, i: nat)
    requires Inv(d, s, pos) && i < d.net.n && pos[i].f == pos[i].b == K(d) && s.ws[i].phase.Idle?
    requires WellFormed(d.net, d.mem) && 0 < |d.batch.xs| == |d.batch.ys|
    ensures var mem := Synced(d.net, d.mem, d.batch.xs, d.batch.ys);
      && s.ws[i].params.Keys == d.net.uses(i)
      && s.ws[i].opt == Restrict(mem.opt, Owned(d.net, i)) && s.ws[i].buf == mem.bufs[i]
  {
    hide Sound, Quiet, MemAfter, HistoryAt, LinkAt, ParamsOk, TiedOk, DriverOk, SyncedStep, FirstUser;
    assert LocalAt(d, s, pos, i);
    var mem := Synced(d.net, d.mem, d.batch.xs, d.batch.ys);
    SameMap(s.ws[i].opt, Restrict(mem.opt, Owned(d.net, i)));
  }

  /** When `batch_done` arrives every worker holds its slice of the memory that the same batches,
      each trained slice by slice, lead to from the start: parameters (every copy of a tied one),
      optimizer state and buffers. */
  lemma WorkersHoldSynced(net: Net, k: nat, mem: Memory, first: Batch, acts: seq<Action>, s: System, i: nat)
    requires LeadsTo(net, k, mem, first, acts, s) && s.driver.done && i < net.n
    ensures |s.ws| == net.n && AllFit(Trained(s), k) && WellFormed(net, mem)
    ensures Holds(net, i, s.ws[i], MemAfter(net, mem, Trained(s)))
  {
    hide LocalAt, HistoryAt, LinkAt, ParamsOk, TiedOk, IsRun, EndOf, Start, Synced;
    var d, pos := BatchesFit(net, k, mem, first, acts, s);
    HoldsNew(d, s, pos, i);
    assert Trained(s)[..|Trained(s)| - 1] == s.driver.finished;
  }

  /** Per batch and parameter, for any `add`: a parameter only one slice uses comes out as the
      uncut network trains it, with the same contributions added in the same order; so does a
      tied one if the order of its sum does not matter, for which one micro-batch and a commutative
      `add` are enough. */
  lemma MatchesUncutNetwork(net: Net, k: nat, mem: Memory, first: Batch, acts: seq<Action>, s: System, i: nat, p: Param)
    requires LeadsTo(net, k, mem, first, acts, s) && s.driver.done && i < net.n && p in net.uses(i)
    requires OrderFree(net, k, p)
    ensures |s.ws| == net.n && AllFit(s.driver.finished, k) && WellFormed(net, mem)
    ensures 0 < |s.driver.batch.xs| == |s.driver.batch.ys|
    ensures var all := Central(net, MemAfter(net, mem, s.driver.finished), s.driver.batch.xs, s.driver.batch.ys);
      && p in all.params && p in s.ws[i].params && s.ws[i].params[p] == all.params[p]
      && (Owner(net, p) == i ==> p in s.ws[i].opt && s.ws[i].opt[p] == all.opt[p])
  {
    hide LocalAt, HistoryAt, LinkAt, ParamsOk, TiedOk, IsRun, EndOf, Start, FirstUser, SyncedStep, OrderFree,
      AllContribs, After, Forwards;
    var d, pos := BatchesFit(net, k, mem, first, acts, s);
    HoldsNew(d, s, pos, i);
    OrderFreeSame(net, d.mem, d.batch.xs, d.batch.ys, p);
  }

  /** The memory after a list of batches in one process. */
  ghost function CentralRun(net: Net, start: Memory, batches: seq<Batch>): (m: Memory)
    requires WellFormed(net, start)
    requires forall j | 0 <= j < |batches| :: 0 < |batches[j].xs| == |batches[j].ys|
    ensures WellFormed(net, m)
  {
    if batches == [] then start
    else
      var last := batches[|batches| - 1];
      var before := CentralRun(net, start, batches[..|batches| - 1]);
      CentralWellFormed(net, before, last.xs, last.ys);
      Central(net, before, last.xs, last.ys)
  }

  lemma {:induction false} SyncedRunIsCentral(net: Net, start: Memory, batches: seq<Batch>)
    requires Quiet(net) && WellFormed(net, start)
    requires forall j | 0 <= j < |batches| :: 0 < |batches[j].xs| == |batches[j].ys|
    requires forall j, p | 0 <= j < |batches| && p in start.params :: OrderFree(net, |batches[j].xs|, p)
    ensures MemAfter(net, start, batches) == CentralRun(net, start, batches)
    ensures MemAfter(net, start, batches).params.Keys == start.params.Keys
  {
    hide Quiet, OrderFree, WellFormed, Synced, Central;
    if batches != [] {
      var before, last := batches[..|batches| - 1], batches[|batches| - 1];
      SyncedRunIsCentral(net, start, before);
      SyncedIsCentral(net, MemAfter(net, start, before), last.xs, last.ys);
    }
  }

  /** Splitting does not change the mathematics: after any number of batches and any interleaving,
      the workers hold what one uncut network trained on the same batches holds. */
  lemma SplittingChangesNothing(net: Net, k: nat, mem: Memory, first: Batch, acts: seq<Action>, s: System, i: nat)
    requires LeadsTo(net, k, mem, first, acts, s) && s.driver.done && i < net.n
    requires forall p | p in mem.params :: OrderFree(net, k, p)
    ensures |s.ws| == net.n && AllFit(Trained(s), k) && WellFormed(net, mem)
    ensures Holds(net, i, s.ws[i], CentralRun(net, mem, Trained(s)))
  {
    hide OrderFree, Holds, MemAfter, CentralRun, IsRun, EndOf, Start, Quiet, WellFormed;
    WorkersHoldSynced(net, k, mem, first, acts, s, i);
    SyncedRunIsCentral(net, mem, Trained(s));
  }

  /** All copies of a tied parameter are equal when `batch_done` arrives. */
  lemma CopiesAgree(net: Net, k: nat, mem: Memory, first: Batch, acts: seq<Action>, s: System, i: nat, j: nat, p: Param)
    requires LeadsTo(net, k, mem, first, acts, s) && s.driver.done && i < net.n && j < net.n
    requires p in net.uses(i) && p in net.uses(j)
    ensures |s.ws| == net.n && p in s.ws[i].params && p in s.ws[j].params && s.ws[i].params[p] == s.ws[j].params[p]
  {
    hide IsRun, EndOf, Start, Synced, MemAfter;
    WorkersHoldSynced(net, k, mem, first, acts, s, i);
    WorkersHoldSynced(net, k, mem, first, acts, s, j);
  }

  // ── exactly once, in order, and nothing left ─────────────────────────────────

  /** At every moment of every run, whichever of label and activation came first: worker `i` has
      forwarded and back-propagated every micro-batch of the earlier batches once and in order, and
      the first `f` and `b` ones of the batch in progress; it has stepped once for every earlier
      batch, and for this one only if it has back-propagated all of it. */
  lemma ExactlyOnceInOrder(net: Net, k: nat, mem: Memory, first: Batch, acts: seq<Action>, s: System, i: nat)
    returns (f: nat, b: nat, now: bool)
    requires LeadsTo(net, k, mem, first, acts, s) && i < net.n
    ensures |s.ws| == net.n && b <= f <= k && (now ==> b == k) && (s.driver.done ==> now)
    ensures s.ws[i].ran == AllIds(Numbered(k), s.driver.finished) + IdsOf(Numbered(k), s.driver.batch.id, f)
    ensures s.ws[i].backed == AllIds(Numbered(k), s.driver.finished) + IdsOf(Numbered(k), s.driver.batch.id, b)
    ensures s.ws[i].stepped == BatchIds(s.driver.finished) + if now then [s.driver.batch.id] else []
  {
    hide LocalOk, LinkAt, ParamsOk, TiedOk, IsRun, EndOf, Start, Good;
    var d, pos := BatchesFit(net, k, mem, first, acts, s);
    assert LocalAt(d, s, pos, i) && HistoryAt(d, s, pos, i);
    CountsFor(d, s, pos, i);
    if s.driver.done { AllDone(d, s, pos, i); }
    f, b, now := pos[i].f, pos[i].b, Stepped(d, s.ws[i], pos[i]);
  }

  /** When `batch_done` arrives no message of the batch is in flight or queued, no worker is in a
      task, and nothing is kept of the batch: no output, label, loss sum, gradient or replica
      gradient. */
  lemma NothingLeft(net: Net, k: nat, mem: Memory, first: Batch, acts: seq<Action>, s: System, i: nat)
    requires LeadsTo(net, k, mem, first, acts, s) && s.driver.done && i < net.n
    ensures |s.ws| == net.n && Clear(s.ws[i]) && s.driver.sent == 2 * k
  {
    hide LocalOk, LinkAt, ParamsOk, TiedOk, IsRun, EndOf, Start, Good, Clear;
    var d, pos := BatchesFit(net, k, mem, first, acts, s);
    AllIdle(d, s, pos, i);
    AllSent(d, s, pos);
  }

  /** The driver ignores the id `batch_done` carries. It may: at every moment the events received
      are one for the last micro-batch of each finished batch, in order, and one for the current
      batch exactly if it is done. And the last worker has reported the loss of each batch it
      finished, under the id of its last micro-batch. */
  lemma EventsBelong(net: Net, k: nat, mem: Memory, first: Batch, acts: seq<Action>, s: System)
    requires LeadsTo(net, k, mem, first, acts, s)
    ensures 0 < k && s.driver.events == LastIds(Numbered(k), if s.driver.done then Trained(s) else s.driver.finished)
    ensures s.driver.done ==>
      && |s.ws| == net.n > 0 && WellFormed(net, mem) && AllFit(Trained(s), k)
      && AreReports(net, k, mem, Trained(s), s.ws[net.n - 1].reported)
  {
    hide LocalOk, LinkAt, ParamsOk, TiedOk, IsRun, EndOf, Start, Good, LastIds, Reports, AreReports;
    var d, pos := BatchesFit(net, k, mem, first, acts, s);
    GoodFacts(d);
    if s.driver.done {
      AllDone(d, s, pos, net.n - 1);
      assert HistoryAt(d, s, pos, net.n - 1);
      GoodIsQuiet(d);
      ReportsAre(net, k, mem, Trained(s));
    }
  }

  lemma GoodIsQuiet(d: Data)
    requires Good(d)
    ensures Quiet(d.net) && d.net.n > 0
  {
  }

  /** What is reported of the `j`-th batch: under the id of its last micro-batch, the loss that, times the
      number of micro-batches, is the sum of the losses of the batch on the memory it found. */
  ghost predicate IsReport(net: Net, k: nat, mem: Memory, past: seq<Batch>, j: nat, r: (nat, real))
    requires WellFormed(net, mem) && AllFit(past, k) && j < |past|
  {
    var outs := Forwards(net, MemAfter(net, mem, past[..j]), past[j].xs, k).outs;
    r.0 == MicroId(k, past[j].id, k - 1) && r.1 * k as real == Losses(net, outs, past[j].ys, k) as real
  }

  ghost predicate AreReports(net: Net, k: nat, mem: Memory, past: seq<Batch>, rs: seq<(nat, real)>)
    requires WellFormed(net, mem) && AllFit(past, k)
  {
    |rs| == |past| && forall j | 0 <= j < |past| :: IsReport(net, k, mem, past, j, rs[j])
  }

  lemma {:induction false} ReportsAre(net: Net, k: nat, mem: Memory, past: seq<Batch>)
    requires Quiet(net) && WellFormed(net, mem) && AllFit(past, k)
    ensures AreReports(net, k, mem, past, Reports(net, Numbered(k), mem, past))
  {
    if past != [] {
      var before := past[..|past| - 1];
      ReportsAre(net, k, mem, before);
      var r := LastReport(net, k, mem, past);
      MoreReports(net, k, mem, past, Reports(net, Numbered(k), mem, before), r);
    }
  }

  lemma MoreReports(net: Net, k: nat, mem: Memory, past: seq<Batch>, rs: seq<(nat, real)>, r: (nat, real))
    requires WellFormed(net, mem) && AllFit(past, k) && past != [] && AllFit(past[..|past| - 1], k)
    requires AreReports(net, k, mem, past[..|past| - 1], rs) && IsReport(net, k, mem, past, |past| - 1, r)
    ensures AreReports(net, k, mem, past, rs + [r])
  {
    hide IsReport, WellFormed, AllFit;
    forall j | 0 <= j < |past| ensures IsReport(net, k, mem, past, j, (rs + [r])[j]) {
      if j < |past| - 1 {
        assert IsReport(net, k, mem, past[..|past| - 1], j, rs[j]);
        EarlierReport(net, k, mem, past, j, rs[j]);
      }
    }
  }

  lemma EarlierReport(net: Net, k: nat, mem: Memory, past: seq<Batch>, j: nat, r: (nat, real))
    requires WellFormed(net, mem) && AllFit(past, k) && j < |past| - 1
    requires AllFit(past[..|past| - 1], k) && IsReport(net, k, mem, past[..|past| - 1], j, r)
    ensures IsReport(net, k, mem, past, j, r)
  {
    assert past[..|past| - 1][..j] == past[..j];
  }

  lemma LastReport(net: Net, k: nat, mem: Memory, past: seq<Batch>) returns (r: (nat, real))
    requires Quiet(net) && WellFormed(net, mem) && AllFit(past, k) && past != []
    ensures IsReport(net, k, mem, past, |past| - 1, r) && AllFit(past[..|past| - 1], k)
    ensures Reports(net, Numbered(k), mem, past) == Reports(net, Numbered(k), mem, past[..|past| - 1]) + [r]
  {
    var before, last := past[..|past| - 1], past[|past| - 1];
    var start := MemAfter(net, mem, before);
    r := (MicroId(k, last.id, k - 1), Mean(LossAt(net, start, last.xs, last.ys, k), k));
    LossesAreGrid(net, start, last.xs, last.ys, k);
    MeanTimes(LossAt(net, start, last.xs, last.ys, k), k);
    hide Quiet, MemAfter, LossAt, Mean, Losses, Forwards, WellFormed, IsReport, MicroId;
    assert IsReport(net, k, mem, past, |past| - 1, r) by {
      IsReportIf(net, k, mem, past, r);
    }
  }

  lemma IsReportIf(net: Net, k: nat, mem: Memory, past: seq<Batch>, r: (nat, real))
    requires WellFormed(net, mem) && AllFit(past, k) && past != []
    requires var last := past[|past| - 1];
      && r.0 == MicroId(k, last.id, k - 1)
      && r.1 * k as real ==
           Losses(net, Forwards(net, MemAfter(net, mem, past[..|past| - 1]), last.xs, k).outs, last.ys, k) as real
    ensures IsReport(net, k, mem, past, |past| - 1, r)
  {
  }

  // ── no wait blocks, no run is stuck ──────────────────────────────────────────

  /** The owner's wait for its replicas' gradients never blocks: it reaches it with every one of
      them queued. */
  lemma WaitNeverBlocks(net: Net, k: nat, mem: Memory, first: Batch, acts: seq<Action>, s: System, i: nat)
    requires LeadsTo(net, k, mem, first, acts, s) && i < net.n
    ensures |s.ws| == net.n
    ensures s.ws[i].phase.Syncing? && s.ws[i].phase.left == {} ==> Enabled(net, Numbered(k), s, Optimize(i))
  {
    hide LocalOk, LinkAt, ParamsOk, TiedOk, IsRun, EndOf, Start, Good, TiedReady;
    var d, pos := BatchesFit(net, k, mem, first, acts, s);
    if s.ws[i].phase.Syncing? { PipelineOptimize.NeverBlocks(d, s, pos, i); }
  }

  /** A worker that is in a task, or has a message queued or on its way, can go on. */
  lemma WorkerCan(d: Data, s: System, pos: seq<Pos>, i: nat) returns (a: Action)
    requires Inv(d, s, pos) && i < d.net.n
    requires
      || !s.ws[i].phase.Idle? || s.ws[i].queue != []
      || s.ws[i].fromPrev != [] || s.ws[i].fromNext != [] || s.ws[i].fromDriver != []
    ensures Enabled(d.net, d.ids, s, a) && !a.NextBatch?
  {
    hide Good, LocalOk, HistoryOk, LinkAt, ParamsOk, TiedOk, DriverOk, TiedReady, FirstUser;
    var w := s.ws[i];
    assert LocalAt(d, s, pos, i) && HistoryAt(d, s, pos, i);
    if w.fromPrev != [] { a := DeliverPrev(i); }
    else if w.fromNext != [] { a := DeliverNext(i); }
    else if w.fromDriver != [] { a := DeliverLabel(i); }
    else {
      match w.phase
      case Idle => a := Run(i);
      case Activating(_, _) =>
        if i + 1 == d.net.n { LastNeverSends(d, i, w, pos[i]); }
        a := Activate(i);
      case Syncing(_, _, left) =>
        if left == {} {
          PipelineOptimize.NeverBlocks(d, s, pos, i);
          a := Optimize(i);
        } else {
          var p :| p in left;
          PipelineSync.PostLocal(d, i, w, pos[i], p);
          a := Post(i, p);
        }
      case Pushing(_, _, copies) =>
        if copies == {} {
          a := Return(i);
        } else {
          var c :| c in copies;
          assert c == (c.0, c.1);
          PipelineOptimize.PushLocal(d, i, w, pos[i], c.0, c.1);
          KeysAre(d, i, w, pos[i]);
          a := Push(i, c.0, c.1);
        }
    }
  }

  lemma KeysAre(d: Data, i: nat, w: Worker, p: Pos)
    requires Good(d) && i < d.net.n && LocalOk(d, i, w, p)
    ensures w.params.Keys == d.net.uses(i)
  {
    hide Good;
  }

  ghost predicate Resting(w: Worker) {
    w.phase.Idle? && w.queue == [] && w.fromPrev == [] && w.fromNext == [] && w.fromDriver == []
  }

  lemma RestingCounts(d: Data, s: System, pos: seq<Pos>, i: nat)
    requires Inv(d, s, pos) && i < d.net.n && Resting(s.ws[i])
    ensures pos[i].f == SentF(s, pos, i) && pos[i].b == SentB(s, pos, i) && pos[i].l == SentL(s, i)
  {
    hide Good, LocalAt, HistoryAt, ParamsOk, TiedOk, DriverOk, Cell, GradIn;
    assert LinkAt(d, s, pos, i);
  }

  lemma {:induction false} AllForward(d: Data, s: System, pos: seq<Pos>, i: nat)
    requires Inv(d, s, pos) && s.driver.sent == 2 * K(d) && i < d.net.n
    requires forall j: nat | j < d.net.n :: Resting(s.ws[j])
    ensures pos[i].f == K(d)
  {
    hide Good, LocalAt, LinkAt, HistoryAt, ParamsOk, TiedOk, DriverOk;
    RestingCounts(d, s, pos, i);
    if i > 0 { AllForward(d, s, pos, i - 1); }
  }

  lemma {:induction false} AllBackward(d: Data, s: System, pos: seq<Pos>, i: nat)
    requires Inv(d, s, pos) && s.driver.sent == 2 * K(d) && i < d.net.n
    requires forall j: nat | j < d.net.n :: Resting(s.ws[j])
    ensures pos[i].b == K(d)
    decreases d.net.n - i
  {
    hide Good, LocalAt, LinkAt, HistoryAt, ParamsOk, TiedOk, DriverOk;
    RestingCounts(d, s, pos, i);
    if i + 1 < d.net.n {
      AllBackward(d, s, pos, i + 1);
    } else {
      AllForward(d, s, pos, i);
      CountsFor(d, s, pos, i);
    }
  }

  lemma RestingIsDone(d: Data, s: System, pos: seq<Pos>)
    requires Inv(d, s, pos) && s.driver.sent == 2 * K(d)
    requires forall j: nat | j < d.net.n :: Resting(s.ws[j])
    ensures s.driver.done
  {
    GoodFacts(d);
    hide LocalAt, LinkAt, HistoryAt, ParamsOk, TiedOk, Good;
    AllBackward(d, s, pos, 0);
    assert Resting(s.ws[0]);
  }

  /** No run gets stuck: until `batch_done` has arrived the driver or some worker can go on. */
  lemma NeverStuck(net: Net, k: nat, mem: Memory, first: Batch, acts: seq<Action>, s: System) returns (a: Action)
    requires LeadsTo(net, k, mem, first, acts, s) && !s.driver.done
    ensures Enabled(net, Numbered(k), s, a) && !a.NextBatch?
  {
    hide LocalAt, LinkAt, HistoryAt, ParamsOk, TiedOk, IsRun, EndOf, Start, Good;
    var d, pos := BatchesFit(net, k, mem, first, acts, s);
    GoodFacts(d);
    if s.driver.sent < 2 * K(d) {
      a := Send;
    } else if i: nat :| i < net.n && !Resting(s.ws[i]) {
      a := WorkerCan(d, s, pos, i);
    } else {
      RestingIsDone(d, s, pos);
      assert false;
    }
  }
}
