/** The worker pipeline: one process per slice, each with a one-thread FIFO task queue; activations
    and gradients travel from peer to peer, labels go from the driver to the last slice, and the
    first slice reports `batch_done`.

    A `Worker` is the state of one `WorkerServicer`. A step of the system is one `Action`: the
    driver sends one message, a message on a link reaches a queue, a worker runs the task at the
    head of its queue, or it does the next blocking call of the task it is in (`phase`). Any enabled
    action may come next, so a run is an arbitrary interleaving. */
module Protocol {
  import Arithmetic
  import opened Network

  datatype Task =
    | Input(id: nat, x: Tensor)       // an activation (or the batch's input, at the first slice)
    | Target(id: nat, y: Tensor)      // a label, at the last slice
    | Gradient(id: nat, g: Tensor)

  /** What the task a worker is in still has to do. */
  datatype Phase =
    | Idle
    | Activating(id: nat, y: Tensor)                            // send the activation on
    | Syncing(id: nat, g: Tensor, left: set<Param>)             // replica gradients to send, then the step
    | Pushing(id: nat, g: Tensor, copies: set<(Param, nat)>)      // stepped values to push, then the gradient

  datatype Worker = Worker(
    params: map<Param, Tensor>,
    opt: map<Param, Tensor>,
    grads: map<Param, Tensor>,
    buf: Tensor,
    outputs: map<nat, (Tensor, Tape)>,          // micro-batch id -> (output, its graph)
    labels: map<nat, Tensor>,
    losses: map<nat, Tensor>,                   // batch id -> loss summed so far
    tied: map<(Param, nat), seq<Tensor>>,       // (group, batch id) -> gradients from replicas
    queue: seq<Task>,
    fromPrev: seq<Task>, fromNext: seq<Task>, fromDriver: seq<Task>,   // messages on their way here
    phase: Phase,
    ran: seq<nat>, backed: seq<nat>, stepped: seq<nat>,   // history: forwards, backwards, steps
    reported: seq<(nat, real)>                            // history: losses sent to the driver
  )

  datatype Batch = Batch(id: nat, xs: seq<Tensor>, ys: seq<Tensor>)

  datatype Driver = Driver(
    batch: Batch,
    sent: nat,             // messages of the batch sent: label 0, input 0, label 1, input 1, ...
    done: bool,            // the batch_done event
    finished: seq<Batch>,  // history
    events: seq<nat>       // history: the id each batch_done carried (the driver ignores it)
  )

  datatype System = System(ws: seq<Worker>, driver: Driver)

  datatype Action =
    | Send
    | DeliverPrev(i: nat) | DeliverNext(i: nat) | DeliverLabel(i: nat)
    | Run(i: nat)
    | Activate(i: nat)
    | Post(i: nat, p: Param)
    | Optimize(i: nat)
    | Push(i: nat, p: Param, j: nat)
    | Return(i: nat)
    | NextBatch(batch: Batch)

  // ── ids ──────────────────────────────────────────────────────────────────────

  /** Micro-batch `m` of batch `b`, when a batch has `k` of them. */
  function MicroId(k: nat, b: nat, m: nat): nat {
    if k > 1 then b * k + m else b
  }

  function IsLastMicro(k: nat, id: nat): bool {
    k <= 1 || id % k == k - 1
  }

  function FullBatch(k: nat, id: nat): nat {
    if k > 1 then id / k else id
  }

  /** How micro-batches are numbered: `k` to a batch. The protocol only needs what `Sound` says;
      `Numbered` is the arithmetic the workers and the driver use. */
  datatype Ids = Ids(k: nat, micro: (nat, nat) -> nat, last: nat -> bool, full: nat -> nat)

  function Numbered(k: nat): Ids {
    Ids(k, (b: nat, m: nat) => MicroId(k, b, m), (id: nat) => IsLastMicro(k, id), (id: nat) => FullBatch(k, id))
  }

  ghost predicate Sound(ids: Ids) {
    && 0 < ids.k
    && (forall b: nat, m: nat | m < ids.k :: ids.full(ids.micro(b, m)) == b)
    && (forall b: nat, m: nat | m < ids.k :: ids.last(ids.micro(b, m)) <==> m == ids.k - 1)
    && (forall b: nat, m: nat, m': nat | m < ids.k && m' < ids.k && ids.micro(b, m) == ids.micro(b, m') :: m == m')
  }

  /** Ids tell batches and micro-batches apart, and the last micro-batch of a batch from the rest. */
  lemma NumberedIsSound(k: nat)
    requires 0 < k
    ensures Sound(Numbered(k))
  {
    forall b: nat, m: nat | m < k
      ensures FullBatch(k, MicroId(k, b, m)) == b && (IsLastMicro(k, MicroId(k, b, m)) <==> m == k - 1)
    {
      Arithmetic.DivMod(k, b, m);
    }
  }

  // ── what one worker does ─────────────────────────────────────────────────────

  /** The tied parameters slice `i` uses but does not own. */
  function Replicas(net: Net, i: nat): set<Param> {
    net.uses(i) - Owned(net, i)
  }

  /** The copies slice `i` has to refresh after its step. */
  function Copies(net: Net, i: nat): set<(Param, nat)> {
    set p, j | p in Owned(net, i) && i < j < net.n && p in net.uses(j) :: (p, j)
  }

  /** How many replicas `p` has above slice `i`. */
  function ReplicaCount(net: Net, p: Param, i: nat): nat
    requires i < net.n
  {
    CountUsers(net, p, i + 1)
  }

  function CountUsers(net: Net, p: Param, k: nat): nat
    requires k <= net.n
    decreases net.n - k
  {
    if k == net.n then 0 else CountUsers(net, p, k + 1) + if p in net.uses(k) then 1 else 0
  }

  /** The layer on `x`: its tape and output; the buffers change in place. */
  function TapeOf(net: Net, i: nat, w: Worker, x: Tensor): Tape {
    Tape(Restrict(w.params, net.uses(i)), w.buf, 0, x)
  }

  /** Back-propagate `g` through the graph `tape`; parameters are read where they live. */
  function BackThrough(net: Net, i: nat, w: Worker, id: nat, tape: Tape, g: Tensor, ids: Ids): Worker {
    var live := tape.(params := Restrict(w.params, net.uses(i)));
    var gx := net.vjpX(i, live, g);
    w.(grads := Accumulate(net, i, live, g, w.grads),
       backed := w.backed + [id],
       phase := if ids.last(id) then Syncing(id, gx, Replicas(net, i)) else Pushing(id, gx, {}))
  }

  /** `_run_backward_last`: the loss joins the batch's sum (reported and dropped on the last
      micro-batch), then backward from the loss scaled by the number of micro-batches. */
  function BackwardLast(net: Net, i: nat, ids: Ids, w: Worker, id: nat, out: Tensor, tape: Tape, y: Tensor): Worker {
    var b := ids.full(id);
    var sum := net.plus(if b in w.losses then w.losses[b] else 0, net.loss(out, y));
    var w' := if ids.last(id)
              then w.(losses := w.losses - {b}, reported := w.reported + [(id, Mean(sum, ids.k))])
              else w.(losses := w.losses[b := sum]);
    BackThrough(net, i, w', id, tape, net.lossGrad(out, y, ids.k), ids)
  }

  /** `_take_label`: backward now if the activation is here, else keep the label. */
  function TakeLabel(net: Net, i: nat, ids: Ids, w: Worker, id: nat, y: Tensor): Worker {
    if id in w.outputs then
      BackwardLast(net, i, ids, w.(outputs := w.outputs - {id}), id, w.outputs[id].0, w.outputs[id].1, y)
    else w.(labels := w.labels[id := y])
  }

  /** `_run_forward_stage`: run the layer; the last slice goes backward if the label is here, any
      other keeps the graph and sends the activation on. */
  function ForwardStage(net: Net, i: nat, ids: Ids, w: Worker, id: nat, x: Tensor): Worker {
    var tape := TapeOf(net, i, w, x);
    var out := net.run(i, tape);
    var w' := w.(buf := out.buf, ran := w.ran + [id]);
    if i + 1 == net.n then
      if id in w.labels then
        BackwardLast(net, i, ids, w'.(labels := w.labels - {id}), id, out.y, tape, w.labels[id])
      else w'.(outputs := w.outputs[id := (out.y, tape)])
    else w'.(outputs := w.outputs[id := (out.y, tape)], phase := Activating(id, out.y))
  }

  /** `_run_backward_stage`; a gradient without a kept graph is skipped with a warning. */
  function BackwardStage(net: Net, i: nat, ids: Ids, w: Worker, id: nat, g: Tensor): Worker {
    if id in w.outputs then
      BackThrough(net, i, w.(outputs := w.outputs - {id}), id, w.outputs[id].1, g, ids)
    else w
  }

  /** The task at the head of the queue. */
  function RunTask(net: Net, i: nat, ids: Ids, w: Worker): Worker
    requires w.queue != []
  {
    var w' := w.(queue := w.queue[1..]);
    match w.queue[0]
    case Input(id, x) => ForwardStage(net, i, ids, w', id, x)
    case Target(id, y) => TakeLabel(net, i, ids, w', id, y)
    case Gradient(id, g) => BackwardStage(net, i, ids, w', id, g)
  }

  /** The wait of `_optimize`: every replica of every owned tied parameter has sent its gradient. */
  predicate TiedReady(net: Net, i: nat, w: Worker, b: nat)
    requires i < net.n
  {
    forall p | p in Owned(net, i) && ReplicaCount(net, p, i) > 0 ::
      (p, b) in w.tied && |w.tied[(p, b)]| >= ReplicaCount(net, p, i)
  }

  /** `.grad` of the owned parameters once the replicas' gradients are added. */
  function WithReplicas(net: Net, i: nat, w: Worker, b: nat): map<Param, Tensor>
    requires i < net.n
  {
    w.grads + map p | p in Owned(net, i) && ReplicaCount(net, p, i) > 0 && (p, b) in w.tied && w.tied[(p, b)] != [] ::
      var total := Acc(net, w.tied[(p, b)]);
      if p in w.grads then net.add(w.grads[p], total) else total
  }

  /** `optimizer.step()` on the parameters `ps` that have a gradient: values and optimizer state. */
  function SteppedParams(net: Net, ps: set<Param>, params: map<Param, Tensor>, opt: map<Param, Tensor>,
                         grads: map<Param, Tensor>): map<Param, Tensor> {
    map p | p in params :: if p in ps && p in opt && p in grads then net.step(p, params[p], opt[p], grads[p]).0
                           else params[p]
  }

  function SteppedOpt(net: Net, ps: set<Param>, params: map<Param, Tensor>, opt: map<Param, Tensor>,
                      grads: map<Param, Tensor>): map<Param, Tensor> {
    map p | p in opt :: if p in ps && p in params && p in grads then net.step(p, params[p], opt[p], grads[p]).1
                        else opt[p]
  }

  /** The part of `_optimize` after the wait, up to the step. */
  function OptimizeStep(net: Net, i: nat, ids: Ids, w: Worker): Worker
    requires i < net.n && w.phase.Syncing?
  {
    var b := ids.full(w.phase.id);
    var grads := WithReplicas(net, i, w, b);
    var owned := Owned(net, i);
    w.(params := SteppedParams(net, owned, w.params, w.opt, grads),
       opt := SteppedOpt(net, owned, w.params, w.opt, grads),
       grads := grads - owned,
       tied := map q | q in w.tied && !(q.0 in owned && q.1 == b) :: w.tied[q],
       stepped := w.stepped + [b],
       phase := Pushing(w.phase.id, w.phase.g, Copies(net, i)))
  }

  // ── what the system does ─────────────────────────────────────────────────────

  predicate Enabled(net: Net, ids: Ids, s: System, a: Action) {
    match a
    case Send =>
      0 < |s.ws| && s.driver.sent < 2 * ids.k && |s.driver.batch.xs| == |s.driver.batch.ys| == ids.k
    case DeliverPrev(i) => i < |s.ws| && s.ws[i].fromPrev != []
    case DeliverNext(i) => i < |s.ws| && s.ws[i].fromNext != []
    case DeliverLabel(i) => i < |s.ws| && s.ws[i].fromDriver != []
    case Run(i) => i < |s.ws| && s.ws[i].phase.Idle? && s.ws[i].queue != []
    case Activate(i) => i + 1 < |s.ws| && s.ws[i].phase.Activating?
    case Post(i, p) =>
      i < |s.ws| && s.ws[i].phase.Syncing? && p in s.ws[i].phase.left && Owner(net, p) < |s.ws|
    case Optimize(i) =>
      i < |s.ws| && i < net.n && s.ws[i].phase.Syncing? && s.ws[i].phase.left == {} &&
      TiedReady(net, i, s.ws[i], ids.full(s.ws[i].phase.id))
    case Push(i, p, j) =>
      i < |s.ws| && j < |s.ws| && s.ws[i].phase.Pushing? && (p, j) in s.ws[i].phase.copies && p in s.ws[i].params
    case Return(i) => i < |s.ws| && s.ws[i].phase.Pushing? && s.ws[i].phase.copies == {}
    case NextBatch(batch) =>
      s.driver.done && s.driver.sent == 2 * ids.k && |batch.xs| == |batch.ys| == ids.k
  }

  /** `_send_batch`: the label of a micro-batch, then its input. */
  function SendOne(ids: Ids, s: System): System
    requires 0 < |s.ws| && s.driver.sent < 2 * ids.k && |s.driver.batch.xs| == |s.driver.batch.ys| == ids.k
  {
    var m := s.driver.sent / 2;
    var id := ids.micro(s.driver.batch.id, m);
    var last := |s.ws| - 1;
    var ws := if s.driver.sent % 2 == 0
              then s.ws[last := s.ws[last].(fromDriver := s.ws[last].fromDriver + [Target(id, s.driver.batch.ys[m])])]
              else s.ws[0 := s.ws[0].(fromPrev := s.ws[0].fromPrev + [Input(id, s.driver.batch.xs[m])])];
    System(ws, s.driver.(sent := s.driver.sent + 1))
  }

  /** `tied_grad`: the replica's gradient (zeros if it has none) joins the owner's list. */
  function PostOne(net: Net, ids: Ids, s: System, i: nat, p: Param): System
    requires i < |s.ws| && s.ws[i].phase.Syncing? && p in s.ws[i].phase.left && Owner(net, p) < |s.ws|
  {
    var w := s.ws[i];
    var o := Owner(net, p);
    var q := (p, ids.full(w.phase.id));
    var g := if p in w.grads then w.grads[p] else 0;
    var ws := s.ws[i := w.(grads := w.grads - {p}, phase := w.phase.(left := w.phase.left - {p}))];
    var owner := ws[o];
    s.(ws := ws[o := owner.(tied := owner.tied[q := (if q in owner.tied then owner.tied[q] else []) + [g]])])
  }

  /** `tied_update`: the owner's value replaces the copy at worker `j`. */
  function PushOne(s: System, i: nat, p: Param, j: nat): System
    requires i < |s.ws| && j < |s.ws| && s.ws[i].phase.Pushing? && (p, j) in s.ws[i].phase.copies && p in s.ws[i].params
  {
    var w := s.ws[i];
    var ws := s.ws[i := w.(phase := w.phase.(copies := w.phase.copies - {(p, j)}))];
    s.(ws := ws[j := ws[j].(params := ws[j].params[p := w.params[p]])])
  }

  /** `_send_backward`: the gradient goes to the previous slice; the first slice reports
      `batch_done` after the last micro-batch. */
  function ReturnOne(ids: Ids, s: System, i: nat): System
    requires i < |s.ws| && s.ws[i].phase.Pushing?
  {
    var w := s.ws[i];
    var ws := s.ws[i := w.(phase := Idle)];
    if i > 0 then
      s.(ws := ws[i - 1 := ws[i - 1].(fromNext := ws[i - 1].fromNext + [Gradient(w.phase.id, w.phase.g)])])
    else if ids.last(w.phase.id) then
      System(ws, s.driver.(done := true, events := s.driver.events + [w.phase.id]))
    else s.(ws := ws)
  }

  function Apply(net: Net, ids: Ids, s: System, a: Action): System
    requires Enabled(net, ids, s, a)
  {
    match a
    case Send => SendOne(ids, s)
    case DeliverPrev(i) =>
      var w := s.ws[i];
      s.(ws := s.ws[i := w.(queue := w.queue + [w.fromPrev[0]], fromPrev := w.fromPrev[1..])])
    case DeliverNext(i) =>
      var w := s.ws[i];
      s.(ws := s.ws[i := w.(queue := w.queue + [w.fromNext[0]], fromNext := w.fromNext[1..])])
    case DeliverLabel(i) =>
      var w := s.ws[i];
      s.(ws := s.ws[i := w.(queue := w.queue + [w.fromDriver[0]], fromDriver := w.fromDriver[1..])])
    case Run(i) => s.(ws := s.ws[i := RunTask(net, i, ids, s.ws[i])])
    case Activate(i) =>
      var w := s.ws[i];
      var next := s.ws[i + 1];
      s.(ws := s.ws[i := w.(phase := Idle)]
                   [i + 1 := next.(fromPrev := next.fromPrev + [Input(w.phase.id, w.phase.y)])])
    case Post(i, p) => PostOne(net, ids, s, i, p)
    case Optimize(i) => s.(ws := s.ws[i := OptimizeStep(net, i, ids, s.ws[i])])
    case Push(i, p, j) => PushOne(s, i, p, j)
    case Return(i) => ReturnOne(ids, s, i)
    case NextBatch(batch) =>
      s.(driver := s.driver.(batch := batch, sent := 0, done := false,
                             finished := s.driver.finished + [s.driver.batch]))
  }

  /** A run: enabled actions, one after the other. */
  ghost predicate IsRun(net: Net, ids: Ids, s: System, acts: seq<Action>)
    decreases |acts|
  {
    acts == [] || (Enabled(net, ids, s, acts[0]) && IsRun(net, ids, Apply(net, ids, s, acts[0]), acts[1..]))
  }

  ghost function EndOf(net: Net, ids: Ids, s: System, acts: seq<Action>): System
    requires IsRun(net, ids, s, acts)
    decreases |acts|
  {
    if acts == [] then s else EndOf(net, ids, Apply(net, ids, s, acts[0]), acts[1..])
  }

  /** Worker `i` right after `init`, holding its slice of `mem`. */
  function FreshWorker(net: Net, mem: Memory, i: nat): Worker
    requires i < |mem.bufs|
  {
    Worker(Restrict(mem.params, net.uses(i)), Restrict(mem.opt, Owned(net, i)), map[], mem.bufs[i],
           map[], map[], map[], map[], [], [], [], [], Idle, [], [], [], [])
  }

  /** Every worker initialised and the driver about to send its first batch. */
  function Start(net: Net, mem: Memory, batch: Batch): System
    requires net.n == |mem.bufs|
  {
    System(seq(net.n, i requires 0 <= i < net.n => FreshWorker(net, mem, i)),
           Driver(batch, 0, false, [], []))
  }
}
