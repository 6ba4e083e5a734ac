/** A worker outlives its runs: `init` and a persistent shutdown bump its generation and clear its
    tables while the pool's thread may be inside a task of the finished run.

    Handler threads and the pool's thread interleave. A step of the pool's thread is one section
    between two points where another thread can get in: a generation check, or what a task does
    while it holds the lock. Every table entry is written with the generation of the task that put
    it there. */
module Generations {

  datatype Kind = ForwardTask | LabelTask | GradientTask

  datatype Task = Task(kind: Kind, id: nat, generation: nat)

  /** Where the running task is. */
  datatype Point =
    | Entry        // about to check its generation
    | Section      // about to take the lock: check again, and use the tables
    | LossEntry    // activation and label have met: about to check its generation
    | LossSection  // about to take the lock and add its loss, without a check
    | LossDrop     // last micro-batch: about to take the batch's sum out

  datatype Running = Nothing | Running(task: Task, at: Point)

  datatype Worker = Worker(
    generation: nat,
    outputs: map<nat, nat>, labels: map<nat, nat>,    // micro-batch id -> generation of the entry
    microLosses: map<nat, nat>,                       // batch id -> generation of the entry
    queue: seq<Task>,
    running: Running)

  /** A slice's place in the pipeline and its micro-batches per batch. */
  datatype Place = Place(isLast: bool, micros: nat)

  function Full(p: Place, id: nat): nat {
    if p.micros > 1 then id / p.micros else id
  }

  function IsLastMicro(p: Place, id: nat): bool {
    p.micros <= 1 || id % p.micros == p.micros - 1
  }

  datatype Action =
    | Arrive(kind: Kind, id: nat)   // a handler queues a task, tagged with the generation it sees
    | Bump                          // init, or a persistent shutdown
    | Begin                         // the pool's thread takes the next task
    | Go                            // and runs it to the next point

  predicate Enabled(w: Worker, a: Action) {
    match a
    case Begin => w.running.Nothing? && w.queue != []
    case Go => w.running.Running?
    case _ => true
  }

  /** The locked section of the task `t`. */
  function Use(p: Place, w: Worker, t: Task): Worker {
    var done := w.(running := Nothing);
    if t.generation != w.generation then done
    else
      match t.kind
      case ForwardTask =>
        if p.isLast && t.id in w.labels then w.(labels := w.labels - {t.id}, running := Running(t, LossEntry))
        else done.(outputs := w.outputs[t.id := t.generation])
      case LabelTask =>
        if t.id in w.outputs then w.(outputs := w.outputs - {t.id}, running := Running(t, LossEntry))
        else done.(labels := w.labels[t.id := t.generation])
      case GradientTask => done.(outputs := w.outputs - {t.id})
  }

  function Advance(p: Place, w: Worker): Worker
    requires w.running.Running?
  {
    var t := w.running.task;
    match w.running.at
    case Entry => if t.generation != w.generation then w.(running := Nothing) else w.(running := Running(t, Section))
    case Section => Use(p, w, t)
    case LossEntry => if t.generation != w.generation then w.(running := Nothing)
                      else w.(running := Running(t, LossSection))
    case LossSection =>
      w.(microLosses := w.microLosses[Full(p, t.id) := t.generation],
         running := if IsLastMicro(p, t.id) then Running(t, LossDrop) else Nothing)
    case LossDrop => w.(microLosses := w.microLosses - {Full(p, t.id)}, running := Nothing)
  }

  function Apply(p: Place, w: Worker, a: Action): Worker
    requires Enabled(w, a)
  {
    match a
    case Arrive(kind, id) => w.(queue := w.queue + [Task(kind, id, w.generation)])
    case Bump => w.(generation := w.generation + 1, outputs := map[], labels := map[], microLosses := map[])
    case Begin => w.(queue := w.queue[1..], running := Running(w.queue[0], Entry))
    case Go => Advance(p, w)
  }

  ghost predicate IsRun(p: Place, w: Worker, acts: seq<Action>)
    decreases |acts|
  {
    acts == [] || (Enabled(w, acts[0]) && IsRun(p, Apply(p, w, acts[0]), acts[1..]))
  }

  ghost function EndOf(p: Place, w: Worker, acts: seq<Action>): Worker
    requires IsRun(p, w, acts)
    decreases |acts|
  {
    if acts == [] then w else EndOf(p, Apply(p, w, acts[0]), acts[1..])
  }

  const FRESH := Worker(0, map[], map[], map[], [], Nothing)

  // ── outputs and labels ───────────────────────────────────────────────────────

  /** Every kept output and label was put there by a task of the current generation. */
  ghost predicate Current(w: Worker) {
    && (forall id | id in w.outputs :: w.outputs[id] == w.generation)
    && (forall id | id in w.labels :: w.labels[id] == w.generation)
  }

  lemma {:induction false} CurrentKept(p: Place, w: Worker, acts: seq<Action>)
    requires Current(w) && IsRun(p, w, acts)
    ensures Current(EndOf(p, w, acts))
    decreases |acts|
  {
    if acts != [] { CurrentKept(p, Apply(p, w, acts[0]), acts[1..]); }
  }

  /** Under every interleaving of `init`, shutdown, arrivals and queued tasks, a stale task never
      leaves an output or a label behind. */
  lemma NoStaleEntries(p: Place, acts: seq<Action>)
    requires IsRun(p, FRESH, acts)
    ensures Current(EndOf(p, FRESH, acts))
  {
    CurrentKept(p, FRESH, acts);
  }

  // ── loss sums ────────────────────────────────────────────────────────────────

  ghost predicate LossesCurrent(w: Worker) {
    forall b | b in w.microLosses :: w.microLosses[b] == w.generation
  }

  /** The run adds no loss of a task whose run is over: no `init` or shutdown gets in between a
      task's check and its locked section. */
  ghost predicate NoLateLoss(p: Place, w: Worker, acts: seq<Action>)
    requires IsRun(p, w, acts)
    decreases |acts|
  {
    acts == [] ||
    (!(acts[0].Go? && w.running.at == LossSection && w.running.task.generation != w.generation) &&
     NoLateLoss(p, Apply(p, w, acts[0]), acts[1..]))
  }

  /** The loss sums are current at every moment of the run. */
  ghost predicate AlwaysLossesCurrent(p: Place, w: Worker, acts: seq<Action>)
    requires IsRun(p, w, acts)
    decreases |acts|
  {
    LossesCurrent(w) && (acts == [] || AlwaysLossesCurrent(p, Apply(p, w, acts[0]), acts[1..]))
  }

  lemma LossStep(p: Place, w: Worker, a: Action)
    requires Enabled(w, a) && LossesCurrent(w)
    ensures LossesCurrent(Apply(p, w, a)) <==>
            !(a.Go? && w.running.at == LossSection && w.running.task.generation != w.generation)
  {
    if a.Go? && w.running.at == LossSection {
      assert Full(p, w.running.task.id) in Apply(p, w, a).microLosses;
    }
  }

  /** Loss sums are not protected as outputs and labels are: they stay current exactly in the runs
      where no stale task adds its loss. */
  lemma {:induction false} LossesCurrentIff(p: Place, w: Worker, acts: seq<Action>)
    requires IsRun(p, w, acts) && LossesCurrent(w)
    ensures AlwaysLossesCurrent(p, w, acts) <==> NoLateLoss(p, w, acts)
    decreases |acts|
  {
    if acts != [] {
      LossStep(p, w, acts[0]);
      var next := Apply(p, w, acts[0]);
      if LossesCurrent(next) {
        LossesCurrentIff(p, next, acts[1..]);
      } else {
        assert !AlwaysLossesCurrent(p, next, acts[1..]);
      }
    }
  }

  /** A task stands between its last check and its loss. */
  predicate AtLoss(w: Worker) {
    w.running.Running? && w.running.at == LossSection
  }

  /** The schedule alone: no `init` and no shutdown comes between a task's check and its loss, unless
      the run ends before the task goes on. */
  ghost predicate BumpsClear(p: Place, w: Worker, acts: seq<Action>)
    requires IsRun(p, w, acts)
    decreases |acts|
  {
    acts == [] ||
    ((acts[0].Bump? && AtLoss(w) ==> Go !in acts[1..]) && BumpsClear(p, Apply(p, w, acts[0]), acts[1..]))
  }

  lemma {:induction false} LateComes(p: Place, w: Worker, acts: seq<Action>)
    requires IsRun(p, w, acts) && AtLoss(w) && w.running.task.generation < w.generation && Go in acts
    ensures !NoLateLoss(p, w, acts)
    decreases |acts|
  {
    if !acts[0].Go? { LateComes(p, Apply(p, w, acts[0]), acts[1..]); }
  }

  lemma {:induction false} NobodyGoes(p: Place, w: Worker, acts: seq<Action>)
    requires IsRun(p, w, acts) && Go !in acts
    ensures NoLateLoss(p, w, acts) && BumpsClear(p, w, acts)
    decreases |acts|
  {
    if acts != [] {
      assert forall a | a in acts[1..] :: a in acts;
      NobodyGoes(p, Apply(p, w, acts[0]), acts[1..]);
    }
  }

  lemma {:induction false} LateIffBumped(p: Place, w: Worker, acts: seq<Action>)
    requires IsRun(p, w, acts) && (AtLoss(w) ==> w.running.task.generation == w.generation)
    ensures NoLateLoss(p, w, acts) <==> BumpsClear(p, w, acts)
    decreases |acts|
  {
    if acts != [] {
      var next := Apply(p, w, acts[0]);
      if acts[0].Bump? && AtLoss(w) {
        if Go in acts[1..] { LateComes(p, next, acts[1..]); } else { NobodyGoes(p, next, acts[1..]); }
      } else {
        LateIffBumped(p, next, acts[1..]);
      }
    }
  }

  /** From the start: the loss sums are current throughout a run if and only if no `init` and no
      shutdown comes between a task's check and its loss. */
  lemma LossesCurrentIffClear(p: Place, acts: seq<Action>)
    requires IsRun(p, FRESH, acts)
    ensures AlwaysLossesCurrent(p, FRESH, acts) <==> BumpsClear(p, FRESH, acts)
  {
    LossesCurrentIff(p, FRESH, acts);
    LateIffBumped(p, FRESH, acts);
    hide AlwaysLossesCurrent, BumpsClear, NoLateLoss, IsRun;
  }

  lemma Cons(p: Place, w: Worker, a: Action, rest: seq<Action>)
    requires Enabled(w, a) && IsRun(p, Apply(p, w, a), rest)
    ensures IsRun(p, w, [a] + rest) && EndOf(p, w, [a] + rest) == EndOf(p, Apply(p, w, a), rest)
  {
    assert ([a] + rest)[1..] == rest;
  }

  /** The end of the run below: a label task that has checked its generation and is about to add its
      loss, when the worker is re-initialised. */
  lemma LateLossStep(p: Place, w: Worker)
    requires p == Place(true, 2) && w == FRESH.(running := Running(Task(LabelTask, 0, 0), LossSection))
    ensures IsRun(p, w, [Bump, Go]) && !LossesCurrent(EndOf(p, w, [Bump, Go]))
  {
    var w1 := Apply(p, w, Bump);
    var w2 := Apply(p, w1, Go);
    assert 0 in w2.microLosses && w2.microLosses[0] == 0 && w2.generation == 1;
    Cons(p, w1, Go, []);
    Cons(p, w, Bump, [Go]);
    assert [Bump] + [Go] == [Bump, Go];
    assert [Go] + [] == [Go];
  }

  /** How a task gets there: an activation and its label meet. */
  lemma MeetSteps(p: Place, w: Worker, rest: seq<Action>)
    requires p == Place(true, 2) && w == FRESH.(queue := [Task(ForwardTask, 0, 0), Task(LabelTask, 0, 0)])
    requires IsRun(p, FRESH.(running := Running(Task(LabelTask, 0, 0), LossSection)), rest)
    ensures IsRun(p, w, [Begin, Go, Go, Begin, Go, Go, Go] + rest)
    ensures EndOf(p, w, [Begin, Go, Go, Begin, Go, Go, Go] + rest) ==
            EndOf(p, FRESH.(running := Running(Task(LabelTask, 0, 0), LossSection)), rest)
  {
    var f, l := Task(ForwardTask, 0, 0), Task(LabelTask, 0, 0);
    var w1 := Apply(p, w, Begin);
    assert w1 == FRESH.(queue := [l], running := Running(f, Entry));
    var w2 := Apply(p, w1, Go);
    assert w2 == w1.(running := Running(f, Section));
    var w3 := Apply(p, w2, Go);
    assert w3 == FRESH.(queue := [l], outputs := map[0 := 0]);
    var w4 := Apply(p, w3, Begin);
    assert w4 == FRESH.(outputs := map[0 := 0], running := Running(l, Entry));
    var w5 := Apply(p, w4, Go);
    assert w5 == w4.(running := Running(l, Section));
    var w6 := Apply(p, w5, Go);
    assert w6 == FRESH.(running := Running(l, LossEntry));
    var w7 := Apply(p, w6, Go);
    assert w7 == FRESH.(running := Running(l, LossSection));
    hide IsRun, EndOf, Apply, Advance, Use;
    Cons(p, w6, Go, rest);
    Cons(p, w5, Go, [Go] + rest);
    Cons(p, w4, Go, [Go] + ([Go] + rest));
    Cons(p, w3, Begin, [Go] + ([Go] + ([Go] + rest)));
    Cons(p, w2, Go, [Begin] + ([Go] + ([Go] + ([Go] + rest))));
    Cons(p, w1, Go, [Go] + ([Begin] + ([Go] + ([Go] + ([Go] + rest)))));
    Cons(p, w, Begin, [Go] + ([Go] + ([Begin] + ([Go] + ([Go] + ([Go] + rest))))));
    assert [Begin, Go, Go, Begin, Go, Go, Go] + rest ==
           [Begin] + ([Go] + ([Go] + ([Begin] + ([Go] + ([Go] + ([Go] + rest))))));
  }

  /** A run in which a finished run's loss is left behind: the activation and the label of
      micro-batch 0 of 2 meet, the worker is re-initialised, the task goes on. */
  lemma LateLoss()
    ensures var p := Place(true, 2);
      var acts := [Arrive(ForwardTask, 0), Arrive(LabelTask, 0)] + ([Begin, Go, Go, Begin, Go, Go, Go] + [Bump, Go]);
      IsRun(p, FRESH, acts) && !LossesCurrent(EndOf(p, FRESH, acts))
  {
    var p := Place(true, 2);
    var w1 := Apply(p, FRESH, Arrive(ForwardTask, 0));
    var w2 := Apply(p, w1, Arrive(LabelTask, 0));
    assert w2 == FRESH.(queue := [Task(ForwardTask, 0, 0), Task(LabelTask, 0, 0)]);
    hide IsRun, EndOf, Apply, LossesCurrent;
    LateLossStep(p, FRESH.(running := Running(Task(LabelTask, 0, 0), LossSection)));
    var rest := [Begin, Go, Go, Begin, Go, Go, Go] + [Bump, Go];
    MeetSteps(p, w2, [Bump, Go]);
    Cons(p, w1, Arrive(LabelTask, 0), rest);
    Cons(p, FRESH, Arrive(ForwardTask, 0), [Arrive(LabelTask, 0)] + rest);
    assert [Arrive(ForwardTask, 0), Arrive(LabelTask, 0)] + rest ==
      [Arrive(ForwardTask, 0)] + ([Arrive(LabelTask, 0)] + rest);
  }
}
