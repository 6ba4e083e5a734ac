# TorchSlicer: why splitting does not change the mathematics

TorchSlicer cuts a network into slices and trains them in one process, on a pipeline of workers, or
out of core through a few device slots. Its claim is that the weights come out as if the network had
never been cut. These modules model the parts of the code that make the claim true and prove it, and
say exactly where it stops being true.

A tensor is an integer. What a slice computes, its vector-Jacobian products, the loss, the sum of
gradients and the optimizer step are arrow-typed fields of a `Network.Net`, so every theorem holds
for any choice of them. The sum `add` is neither associative nor commutative unless a lemma asks for
it: the order in which gradients accumulate is part of every result. `Network.Central` is the
reference, one uncut network: every micro-batch forward, every micro-batch backward at the old
weights, one step of every parameter, no gradient left.

| files | what they are about |
|---|---|
| `Network`, `Wavefront`, `TiedOrder` | the reference, and the same batch as a grid of slices and micro-batches in no fixed order; where the order of tied gradients matters |
| `LocalExecutor`, `Tied` | the in-process executor as a class; which slice owns a shared parameter |
| `Protocol` | the workers as a transition system: queues, links, labels, replica gradients, `batch_done` |
| `WorkerServicer`, `Cluster` | one worker as a class whose methods make the protocol's steps; a system of these objects, for which the theorems hold |
| `PipelineInvariant` to `PipelineOptimize` | the invariant, and that each kind of step keeps it |
| `PipelineRuns`, `PipelineResults`, `PipelineProgress` | what holds in every run, and that every batch finishes |
| `Generations`, `LossReports` | a worker re-initialised while a task of the run before is still going; loss reports that come late |
| `Pager`, `PagerCoherence`, `SlicePager` | the write-back cache of slices: its transitions, that they refine a flat map, and the class that makes them |
| `PagerSchedule`, `PagerBatch`, `PagerEviction`, `PagerVisits`, `PagerOrdering`, `PagerLayout` | the calls of a batch on the slots and on the whole pager, what is evicted, the streams and events in time, the bytes |
| `LayerMajor`, `OffloadExecutor`, `OffloadTraining`, `LayerOrder` | the recomputing, paged schedule as a class, proved equal to the plain batch, and training with it; where the order of shared gradients matters |
| `ModelGraph`, `SplitLayer` | liveness, allowed cuts, and running the slices of a cut graph |
| `ClientSession` | one live client copy swapped among many clients, and SplitFed server copies |
| `FrameCodec`, `FrameLayout`, `TensorStream` | the TCP frames, their bytes, and reading them off a connection |
| `Auc`, `Partition` | rank-sum AUC; dealing samples out to clients |
| `Arithmetic`, `Sequences`, `Wrappers` | division with remainder; shared facts on sequences; a value that may be missing |

Code that changes state is a class or a method with loops, proved against functions on values; the
theorems are lemmas about those functions. `dafny verify dfyconfig.toml` checks everything.

## Where the code does less than it seems to

- Tied parameters across workers are summed slice by slice, in the uncut network use by use within
  each micro-batch. For one micro-batch the two agree if and only if the sum is commutative
  (`Wavefront.TiedSameOnce`, `TiedOrder.OneMicroIff`); for more, given that the sum has a zero, if and
  only if it is also associative (`Wavefront.TiedSameGrad`, `TiedOrder.MicrosIff`).
  `TiedOrder.TwoMicrosDiffer` is a network for which they do not, and
  `PipelineProgress.TiedWorkersDiffer` a run of the workers on it. Untied parameters need nothing
  (`Wavefront.UntiedSameGrad`).
- Shared parameters in the out-of-core schedule are summed slice by slice too, and there one
  micro-batch needs nothing (`OffloadExecutor.OneMicroBatch`). For more micro-batches, given that the
  sum has a zero, the schedule agrees with the plain one if and only if the sum is commutative and
  associative (`LayerOrder.LayerIff`); `OffloadTraining.SharedDiffers` runs the executor on a pair of
  slices for which it does not. Parameters of one slice need nothing
  (`OffloadExecutor.ManyMicroBatches`).
- `micro_losses` is not protected against a superseded generation the way outputs and labels are: a
  task that passed its last check adds its loss to the new run's table. `Generations.LossesCurrentIff`
  and `Generations.LossesCurrentIffClear` give the exact condition and `Generations.LateLoss` a run.
- The last worker reports a batch's loss on a thread of its own, and the driver averages what is in its
  table when its wait is over. A batch is logged with its own loss, whatever the losses are, if and
  only if its own report arrives during the wait and no other does (`LossReports.OwnLossIff`): a report
  that is late leaves its own batch with zero (`LossReports.OwnLate`) and may be logged for the next
  (`LossReports.LateReport`).
- A replay in the out-of-core schedule sees the buffers as the forwards of the visit left them. All
  replays of visits of at most k micro-batches back-propagate as their first forwards would have, if and
  only if backward sees nothing of what a forward and at most k - 1 more change
  (`OffloadExecutor.ReplayIff`); constant buffers and statistics a gradient ignores are no obstacle
  (`OffloadExecutor.OwnBlindReplays`). `OffloadExecutor.ReplayDiffers` is a slice whose gradient reads
  the buffer its forward updates, `OffloadExecutor.OnceNotEnough` one that fails with two micro-batches
  only.
- `_recv_into` tells a clean close from an unexpected end of the stream by whether part of the buffer
  it fills has come. A connection that breaks inside a frame, but where one of its fields begins, is
  therefore taken for a clean close; everywhere else it is an error (`FrameCodec.BrokenLooksClosed`).
  Either way only whole frames are delivered (`FrameCodec.CutStream`).
- A tensor without elements, or with an element type that has no code, does not survive the wire
  (`FrameCodec.StreamRoundTrip`, `FrameCodec.UnlistedDtype`). The reader of lib/torchslicer/torchslicer/executors/worker.py:138-150
  treats empty data apart; the frame reader does not, and `torch.frombuffer` refuses an empty buffer.

## What is assumed

- A batch is cut into exactly M micro-batches, as both executors index them.
- Links are first in, first out: a worker sends the next message after the last was acknowledged.
- Slices of the pipeline draw no random numbers (`Wavefront.Quiet`), as each worker has a generator
  of its own; the in-process executor and the one-micro-batch offload schedule may.
- Every parameter a slice uses receives a gradient from its backward, and no gradient is set when
  training starts.
- The offload schedule accumulates paged gradients into zeros (`ZeroUnit`), slices without buffers
  change none (`BuffersFit`), and the pager's step is the optimizer's step on one page (`StepsPages`).
- What a random generator draws (shuffles, shares, picks) is a parameter.

## Model

| member | source | states |
|---|---|---|
| PipelineResults.SplittingChangesNothing | lib/torchslicer/torchslicer/executors/worker.py:1506-1541 | Whatever the interleaving of the workers' queues, links and blocking calls, and after any number of batches: when `batch_done` arrives each worker holds the slice of parameters, optimizer state and buffers that one uncut network trained on the same batches holds. For any gradient sum when nothing is tied across slices; with tied parameters for a commutative one if a batch is one micro-batch, for a commutative and associative one otherwise |
| PipelineResults.MatchesUncutNetwork | lib/torchslicer/torchslicer/executors/worker.py:1770-1866 | The same parameter by parameter for one batch: a parameter of one slice needs nothing of the sum, because the same contributions are added in the same order, whatever other parameters are tied; a tied one needs a commutative sum for one micro-batch, an associative one too for more |
| PipelineResults.WorkersHoldSynced | lib/torchslicer/torchslicer/executors/distributed.py:586-642 | With tied parameters and any sum at all, the workers still agree with one schedule-free description: each slice's own sums in micro-batch order, the replicas' added to the owner's in the order they arrive |
| PipelineResults.SyncedRunIsCentral | lib/torchslicer/torchslicer/executors/local.py:642-711 | That description, over any list of batches, is the uncut network's training run |
| PipelineResults.CopiesAgree | lib/torchslicer/torchslicer/executors/worker.py:1091-1099 | All copies of a tied parameter are equal when `batch_done` arrives |
| PipelineResults.ExactlyOnceInOrder | lib/torchslicer/torchslicer/executors/worker.py:1283-1303 | At every moment of every run each worker has forwarded and back-propagated the micro-batches once each, in increasing order across batches, whichever of label and activation came first, and has stepped once per batch, after all of its micro-batches |
| PipelineResults.NothingLeft | lib/torchslicer/torchslicer/executors/distributed.py:586-642 | When `batch_done` arrives no message is queued or in flight and no output, label, loss sum, gradient or replica gradient of the batch is left at any worker |
| PipelineResults.EventsBelong | lib/torchslicer/torchslicer/executors/distributed.py:199-201 | The driver ignores the id `batch_done` carries, and may: the events it has received are one for each finished batch in order and one for the current batch exactly if it is done; and the losses reported are one for each finished batch in order, each with the id of the batch's last micro-batch and a value that, times the number of micro-batches, is the sum of that batch's losses |
| PipelineResults.ReportsAre | lib/torchslicer/torchslicer/executors/worker.py:1807-1866 | The losses reported over any run of batches are those: one a batch, of the uncut network as it was when the batch began |
| PipelineResults.WaitNeverBlocks | lib/torchslicer/torchslicer/executors/worker.py:1112-1143 | An owner that has sent what it owes others finds every replica's gradient of the batch already in its table: the wait before its step never blocks |
| PipelineResults.NeverStuck | lib/torchslicer/torchslicer/executors/worker.py:1868-1933 | Until `batch_done` has arrived the driver or some worker can go on, in every reachable state |
| PipelineProgress.StepLowers | lib/torchslicer/torchslicer/executors/worker.py:1868-1933 | Every step of the system other than starting the next batch lowers a cost, in every state: no interleaving goes on for ever |
| PipelineProgress.Bounded | lib/torchslicer/torchslicer/executors/distributed.py:586-642 | A run within one batch has at most as many steps as the cost of the state it starts in |
| PipelineProgress.Completes | lib/torchslicer/torchslicer/executors/distributed.py:586-642 | A run that has gone on until only the next batch could follow has seen `batch_done` |
| PipelineProgress.CanFinish | lib/torchslicer/torchslicer/executors/distributed.py:586-642 | From wherever a run has got to, it can be continued within its batch to `batch_done` |
| Protocol.NumberedIsSound | lib/torchslicer/torchslicer/executors/distributed.py:1724-1744 | Micro-batch ids `batch * M + m` tell batches and micro-batches apart, give the batch back and single out the last micro-batch, also for M = 1 |
| PipelineProgress.TiedWorkersDiffer | lib/torchslicer/torchslicer/executors/worker.py:1112-1143 | A run of two workers that share a parameter, with a commutative sum that is not associative and a batch of two micro-batches, in which the first worker's copy ends up with another value than in the uncut network |
| PipelineRuns.StepOk | lib/torchslicer/torchslicer/executors/worker.py:1506-1541 | Every action of driver, links and workers keeps the invariant |
| PipelineRuns.RunsKeep | lib/torchslicer/torchslicer/executors/distributed.py:586-642 | The invariant holds at the end of every run |
| PipelineRuns.Reachable | lib/torchslicer/torchslicer/executors/worker.py:798-943 | The invariant holds at the end of every run from freshly initialised workers |
| PipelineRuns.AllSent | lib/torchslicer/torchslicer/executors/distributed.py:1724-1744 | `batch_done` never arrives before the driver has sent the whole batch |
| PipelineRuns.AllNew | lib/torchslicer/torchslicer/executors/worker.py:1091-1099 | Every copy of every parameter has the value its owner stepped to |
| PipelineRuns.NextBatchOk | lib/torchslicer/torchslicer/executors/distributed.py:586-642 | Starting the next batch keeps the invariant: nothing of the batch before can be taken for the new one |
| PipelineSteps.RunOk | lib/torchslicer/torchslicer/executors/worker.py:1506-1541 | Running the task at the head of any queue keeps the invariant |
| PipelineSteps.BackOk | lib/torchslicer/torchslicer/executors/worker.py:1770-1805 | A worker that still holds the old parameters back-propagates its next micro-batch as the grid says, gradients and order included |
| PipelineSteps.HasGraph | lib/torchslicer/torchslicer/executors/worker.py:1770-1805 | A gradient never reaches a worker before its micro-batch was run forward there: the branch that skips it with a warning is not taken |
| PipelineSteps.InputLastKeeps | lib/torchslicer/torchslicer/executors/worker.py:1506-1541 | At the last slice an activation that meets its label is back-propagated and keeps the invariant |
| PipelineSteps.TargetLastKeeps | lib/torchslicer/torchslicer/executors/worker.py:1293-1303 | At the last slice a label that meets its activation is back-propagated, with the same effect |
| PipelineHandovers.ActivateOk | lib/torchslicer/torchslicer/executors/worker.py:1543-1598 | Sending an activation on keeps the invariant |
| PipelineHandovers.ReturnOk | lib/torchslicer/torchslicer/executors/worker.py:1868-1933 | Sending a gradient back, or reporting `batch_done`, keeps the invariant |
| PipelineSync.PostOk | lib/torchslicer/torchslicer/executors/worker.py:1112-1143 | A replica handing its gradient to the owner keeps the invariant |
| PipelineSync.PostedNext | lib/torchslicer/torchslicer/executors/worker.py:1082-1089 | The owner's list receives the replicas' gradients from the highest slice down |
| PipelineOptimize.NeverBlocks | lib/torchslicer/torchslicer/executors/worker.py:1112-1143 | In any state satisfying the invariant, an owner past its own backwards has every replica's gradient queued |
| PipelineOptimize.StepsOnAll | lib/torchslicer/torchslicer/executors/worker.py:1112-1143 | The gradient the owner steps on is the sum over all uses of the parameter and all micro-batches |
| PipelineOptimize.OptimizeOk | lib/torchslicer/torchslicer/executors/worker.py:1112-1143 | The owner's step keeps the invariant and leaves no gradient, own or received, for the next batch |
| PipelineOptimize.PushOk | lib/torchslicer/torchslicer/executors/worker.py:1091-1099 | Pushing the stepped value to a replica keeps the invariant |
| Wavefront.SyncedIsCentral | lib/torchslicer/torchslicer/executors/local.py:771-871 | Slices that are processes of their own and the uncut network leave the same memory after a batch, when every parameter is untied, or is summed by a commutative sum in one micro-batch, or by one that is also associative |
| Wavefront.UntiedSameGrad | lib/torchslicer/torchslicer/executors/local.py:771-871 | A parameter of one slice gets the same contributions in the same order in both, for any sum |
| Wavefront.TiedSameGrad | lib/torchslicer/torchslicer/executors/worker.py:1112-1143 | A tied parameter: owner plus replicas is the sum over all uses and micro-batches, when the order of a sum does not matter |
| Wavefront.TiedSameOnce | lib/torchslicer/torchslicer/executors/worker.py:1112-1143 | With one micro-batch a commutative sum is enough |
| Wavefront.OneMicroSwap | lib/torchslicer/torchslicer/executors/worker.py:1112-1143 | With one micro-batch, for any sum, the owner's total and the uncut network's differ in one swap only: its own gradient first, or last |
| TiedOrder.OneMicroIff | lib/torchslicer/torchslicer/executors/worker.py:1112-1143 | For two slices that share a parameter and one micro-batch, workers and uncut network agree on all gradients if and only if the sum is commutative |
| TiedOrder.MicrosIff | lib/torchslicer/torchslicer/executors/worker.py:1112-1143 | For every sum with a zero and every number of micro-batches but one: workers and uncut network agree on all batches of all pairs of slices if and only if the sum is commutative and associative |
| TiedOrder.TwoMicrosDiffer | lib/torchslicer/torchslicer/executors/worker.py:1112-1143 | With two micro-batches a commutative sum is not enough: a network for which the workers leave another parameter than the uncut network |
| Wavefront.PassesAreGrid | lib/torchslicer/torchslicer/executors/local.py:771-871 | For slices that draw nothing, micro-batch after micro-batch through all slices computes the same grid of outputs and buffers as any other order |
| Network.LossesAre | lib/torchslicer/torchslicer/executors/local.py:771-871 | The sum of a batch's losses is the end of the running sum that starts at zero and adds one micro-batch's loss after the other |
| WorkerServicer.WorkerServicer.RunNext | lib/torchslicer/torchslicer/executors/worker.py:1321-1341 | The thread takes the task at the head of the queue; the whole new state is that of the protocol's task step |
| WorkerServicer.WorkerServicer.TakeLabel | lib/torchslicer/torchslicer/executors/worker.py:1293-1303 | A label is back-propagated at once if its activation is there, else kept |
| WorkerServicer.WorkerServicer.RunForwardStage | lib/torchslicer/torchslicer/executors/worker.py:1506-1541 | The layer is run; the graph is kept and the activation sent on, or at the last slice met with its label |
| WorkerServicer.WorkerServicer.RunBackwardStage | lib/torchslicer/torchslicer/executors/worker.py:1770-1805 | The gradient goes through the kept graph, which is dropped; without one nothing happens |
| WorkerServicer.WorkerServicer.RunBackwardLast | lib/torchslicer/torchslicer/executors/worker.py:1807-1866 | The loss joins its batch's sum; with the last micro-batch the sum is dropped and reported as a value that is the sum when multiplied by the number of micro-batches; then backward from the loss scaled by the number of micro-batches |
| WorkerServicer.WorkerServicer.Optimize | lib/torchslicer/torchslicer/executors/worker.py:1112-1143 | The wait succeeds if and only if every group's replica gradients of the batch are in the table; then they are taken, added and stepped on, once, and the loops over groups and parameters leave the state the protocol's step says. |
| WorkerServicer.WorkerServicer.Await | lib/torchslicer/torchslicer/executors/worker.py:1112-1143 | The loop over the owned groups finds out whether every group has all its replicas' gradients of the batch |
| WorkerServicer.WorkerServicer.AddReplicas | lib/torchslicer/torchslicer/executors/worker.py:1112-1143 | The loop over the owned groups: every group's replica gradients are taken out and added |
| WorkerServicer.OptimizerStep | lib/torchslicer/torchslicer/core/split_layer.py:174-185 | Parameter after parameter, the loop leaves those that are owned and have a gradient stepped and the others as they were |
| Cluster.Train | lib/torchslicer/torchslicer/executors/worker.py:1506-1541 | The claim of the objects: workers constructed from the model and called in any order the protocol allows, for any number of batches, hold the slices of the uncut network's training run when `batch_done` has arrived |
| Cluster.Cluster.TakeAll | lib/torchslicer/torchslicer/executors/worker.py:1506-1541 | Any interleaving of calls on the workers and the driver is a run of the transition system that ends in the same state |
| Cluster.Cluster.Take | lib/torchslicer/torchslicer/executors/worker.py:1283-1303 | Each enabled move of the system, deliveries, hand-overs and pushes included, is a call between the objects with exactly that effect |
| Cluster.Cluster.constructor | lib/torchslicer/torchslicer/executors/worker.py:798-943 | Freshly initialised workers and an idle driver are the transition system's start |
| WorkerServicer.WorkerServicer.constructor | lib/torchslicer/torchslicer/executors/worker.py:798-943 | A freshly initialised worker is the protocol's start state of its slice |
| Generations.NoStaleEntries | lib/torchslicer/torchslicer/executors/worker.py:1399-1404 | Under every interleaving of `init`, persistent shutdown, arrivals and queued tasks, every kept output and label was put there by a task of the current generation |
| Generations.LossesCurrentIff | lib/torchslicer/torchslicer/executors/worker.py:1807-1866 | Loss sums are not protected like that: they are all of the current generation throughout a run if and only if no task adds its loss after its generation was superseded |
| Generations.LossesCurrentIffClear | lib/torchslicer/torchslicer/executors/worker.py:1399-1404 | From the start of a worker this is a condition on the schedule alone: no `init` and no shutdown comes between a task's check and its loss |
| Generations.LateLoss | lib/torchslicer/torchslicer/executors/worker.py:1807-1866 | A concrete run in which a superseded task leaves its loss behind |
| LossReports.OwnLossIff | lib/torchslicer/torchslicer/executors/distributed.py:586-642 | For every schedule of batches, reports and arrivals: the loss logged for a batch, the mean of the table or zero if it is empty, is the batch's own whatever the losses are, if and only if its own report arrives while the driver waits for the batch and no other report does |
| LossReports.LateReport | lib/torchslicer/torchslicer/executors/worker.py:1825-1841 | A concrete run in which a report that comes after its batch was logged is logged for the next batch |
| LossReports.OwnLate | lib/torchslicer/torchslicer/executors/distributed.py:643-648 | A concrete run in which a batch is logged with zero, because its own report comes after the wait is over |
| LossReports.TablesHold | lib/torchslicer/torchslicer/executors/distributed.py:586-642 | At every moment the table, and each table that was logged, holds exactly the reports that arrived while the driver waited for that batch |
| LossReports.LoggedIsMean | lib/torchslicer/torchslicer/executors/distributed.py:643-648 | What is logged, times the number of reports, is their sum: a report more, wherever it stands in the table, adds its loss |
| LocalExecutor.LocalExecutor.StandardBatch | lib/torchslicer/torchslicer/executors/local.py:642-711 | Backward and step slice by slice, last to first, leaves exactly the memory of one backward of the whole network at the old weights followed by one step: parameters, optimizer state, buffers, RNG state, no gradient; and returns its loss. For any sum, random slices, shared parameters |
| LocalExecutor.LocalExecutor.GpipeBatch | lib/torchslicer/torchslicer/executors/local.py:771-871 | The same for several micro-batches; the loss times their number is the end of the running sum of the losses of the micro-batches |
| LocalExecutor.LocalExecutor.BackwardAndStep | lib/torchslicer/torchslicer/executors/local.py:693-709 | One turn of the loop keeps: the slices above have stepped, everything below still has its old weights and gradients so far |
| LocalExecutor.LocalExecutor.StepAll | lib/torchslicer/torchslicer/executors/local.py:771-871 | The final loop over the optimizers steps every parameter once |
| LocalExecutor.LocalExecutor.Forward | lib/torchslicer/torchslicer/core/split_layer.py:80-100 | The slice's output, its kept graph and its updated buffers |
| LocalExecutor.LocalExecutor.Backward | lib/torchslicer/torchslicer/core/split_layer.py:160-170 | The gradient passed on, and what every used parameter's gradient grows by |
| LocalExecutor.LocalExecutor.Optimize | lib/torchslicer/torchslicer/core/split_layer.py:174-185 | What the slice's optimizer holds is stepped and its gradients are cleared; nothing else changes |
| LocalExecutor.SavedParamsLive | lib/torchslicer/torchslicer/executors/local.py:153-168 | No slice above a slice owns a parameter it uses, so its backward reads the weights its forward used although the slices above have stepped |
| Tied.CollectUses | lib/torchslicer/torchslicer/core/tied.py:45-65 | All uses of every parameter, in order, and every parameter met, once |
| Tied.FindTied | lib/torchslicer/torchslicer/core/tied.py:45-65 | One group for each parameter reachable under more than one name, and no other |
| Tied.GroupMembers | lib/torchslicer/torchslicer/core/tied.py:45-65 | A group lists the slices that use its parameter, each with all its names |
| Tied.MembersAre | lib/torchslicer/torchslicer/core/tied.py:26-42 | A group's members are exactly the slices that use the parameter |
| Tied.GroupOwner | lib/torchslicer/torchslicer/core/tied.py:32-38 | The owner of a group is the lowest slice that uses the parameter |
| Tied.HeldByOwnerOnly | lib/torchslicer/torchslicer/core/tied.py:68-83 | Every trainable parameter is held by exactly one optimizer, that of the lowest slice that uses it |
| PagerCoherence.PagerRefinesFlatMap | lib/torchslicer/torchslicer/offload/pager.py:370-453 | For every sequence of calls a caller makes that follows acquire, compute, release: the pager stays coherent and each slice's parameters, buffers and optimizer state read as in a flat map from slice to value |
| Pager.OneToOne | lib/torchslicer/torchslicer/offload/pager.py:361-385 | Two slices are never in one slot and one slice never in two |
| PagerCoherence.FetchKeeps | lib/torchslicer/torchslicer/offload/pager.py:370-385 | Fetching changes no value; it fails exactly if the slice does not fit or every slot is in use, and then changes nothing; on success the slice is resident, with its state if asked for, and slots in use are untouched |
| PagerCoherence.ReleaseKeeps | lib/torchslicer/torchslicer/offload/pager.py:409-418 | Releasing keeps every value if the caller names at least what it changed |
| PagerCoherence.StepOnCpuKeeps | lib/torchslicer/torchslicer/offload/pager.py:420-453 | The slice is paged out; its value is then the optimizer step of its value on the gradients in its slot |
| PagerCoherence.ComputedKeeps | lib/torchslicer/torchslicer/offload/pager.py:387-407 | What a slice computes on the device is its new value, and no other slice changes |
| PagerCoherence.EvictedKeeps | lib/torchslicer/torchslicer/offload/pager.py:610-622 | Eviction changes no value and leaves the slot empty |
| PagerCoherence.FlushKeeps | lib/torchslicer/torchslicer/offload/pager.py:649-656 | After `flush` every home holds its slice's latest value and its tensors point there; it fails exactly if a slice is computing |
| PagerCoherence.EnsureCapKeeps | lib/torchslicer/torchslicer/offload/pager.py:339-359 | Growing the slots changes no value |
| PagerCoherence.EndBatchKeeps | lib/torchslicer/torchslicer/offload/pager.py:626-634 | The end of a batch changes no value, and afterwards every slice fits in a slot with its optimizer state |
| SlicePager.SlicePager.Victim | lib/torchslicer/torchslicer/offload/pager.py:361-366 | The first empty idle slot, else the idle slot used longest ago |
| SlicePager.SlicePager.Wait | lib/torchslicer/torchslicer/offload/pager.py:217-218 | A pending CPU step is taken into the home, once |
| SlicePager.SlicePager.AdoptState | lib/torchslicer/torchslicer/offload/pager.py:594-608 | Optimizer state that the optimizer created is laid out at home, once |
| SlicePager.SlicePager.Writeback | lib/torchslicer/torchslicer/offload/pager.py:542-560 | The dirty parts of a slot go to the home, and only those |
| SlicePager.SlicePager.Evict | lib/torchslicer/torchslicer/offload/pager.py:610-622 | The slice's tensors point home and the slot is empty |
| SlicePager.SlicePager.PageIn | lib/torchslicer/torchslicer/offload/pager.py:481-512 | The slot holds the slice's homes and its tensors point there |
| SlicePager.SlicePager.Fetch | lib/torchslicer/torchslicer/offload/pager.py:370-385 | The state transition that `PagerCoherence.FetchKeeps` is about, error cases included |
| SlicePager.SlicePager.Acquire | lib/torchslicer/torchslicer/offload/pager.py:387-407 | The slot is in use, and fetched first if need be |
| SlicePager.SlicePager.Release | lib/torchslicer/torchslicer/offload/pager.py:409-418 | The slot is idle, with what was said to be dirty added to what was |
| SlicePager.SlicePager.StepOnCpu | lib/torchslicer/torchslicer/offload/pager.py:420-453 | Gradients go home, a step is pending, the slot is empty |
| SlicePager.SlicePager.Flush | lib/torchslicer/torchslicer/offload/pager.py:649-656 | The loop over slots and pages brings everything home |
| SlicePager.SlicePager.EnsureCap | lib/torchslicer/torchslicer/offload/pager.py:339-359 | The slots grow to the size asked for and are emptied first |
| SlicePager.SlicePager.EndBatch | lib/torchslicer/torchslicer/offload/pager.py:626-634 | New optimizer state is adopted and the slots grown for it |
| PagerBatch.BatchWorks | lib/torchslicer/torchslicer/offload/executor.py:300-386 | On the pager itself, from any coherent state in which no slice computes and every slice fits, with any computation in between and the step on the device or the CPU: every call of a batch succeeds, capacity included, every acquire finds its slice resident and no other slot in use, every slice that steps on the device has its laid-out optimizer state in its slot, and the slots move as the calls alone say |
| PagerBatch.RunWorks | lib/torchslicer/torchslicer/offload/pager.py:370-453 | The same for any calls that are safe by the slots alone and need no slice again after its step |
| PagerBatch.TwoSlotPageIns | lib/torchslicer/torchslicer/offload/pager.py:361-407 | With two slots that hold slices 0 and 1 and the step on the device, every run of the pager that makes the calls of a batch of n >= 2 slices pages parameters in exactly 2(n - 2) times and ends with slices 0 and 1 there again |
| PagerBatch.TwoSlotCpuPageIns | lib/torchslicer/torchslicer/offload/pager.py:420-453 | With the step on the CPU, which pages every slice out, and two empty slots: exactly 2(n - 1) times, and the slots are empty again |
| PagerSchedule.BatchIsSafe | lib/torchslicer/torchslicer/offload/executor.py:300-386 | By the slots alone, for any number of slices, at least two slots and any contents of them: no fetch finds every slot in use, at most one slot is in use, every acquire finds its slice prefetched and every slice that steps has its laid-out state in its slot |
| PagerSchedule.TwoSlotLoads | lib/torchslicer/torchslicer/offload/pager.py:361-407 | The count behind that, by the slots alone |
| PagerSchedule.TwoSlotCpuLoads | lib/torchslicer/torchslicer/offload/pager.py:420-453 | The count with the step on the CPU, by the slots alone |
| PagerCoherence.RunMore | lib/torchslicer/torchslicer/offload/pager.py:370-453 | A legal run and one more legal call is a legal run to the state that call leads to |
| PagerSchedule.FetchMoves | lib/torchslicer/torchslicer/offload/pager.py:370-385 | What a fetch does to the slots, seen from the pager's full state |
| PagerSchedule.StepMoves | lib/torchslicer/torchslicer/offload/pager.py:420-453 | What handing a step to the CPU does to the slots, seen from the pager's full state |
| PagerEviction.EvictsLeastRecent | lib/torchslicer/torchslicer/offload/pager.py:361-396 | Over any run of calls from a pager just set up: a slice paged in goes to an idle slot, the first empty one if one is empty, else the one whose last acquire is earliest in the run; and a fetch fails for want of a slot only if all are in use |
| PagerEviction.RunStamped | lib/torchslicer/torchslicer/offload/pager.py:387-396 | Over any run a slot's use counter says how many acquires there had been at its own last one |
| PagerOrdering.NoRaces | lib/torchslicer/torchslicer/offload/pager.py:387-512 | In every run of the three streams, the step thread and the host, whatever delays every operation has and however long it takes, no two conflicting accesses to a slot or a home overlap in time; and every step that may come next touches exactly what it should: the page-in writes the slot and reads the homes asked for, a computation writes the slot, a write-back reads the slot and writes the homes that changed, the step thread writes the home after the copy, an adoption writes the state's home; each starts only when everything it conflicts with has ended, and waits for nothing but its queue, the host and the events named |
| PagerOrdering.TakeSafe | lib/torchslicer/torchslicer/offload/pager.py:455-512 | Every operation keeps what that needs of the events |
| PagerOrdering.TakeTouches | lib/torchslicer/torchslicer/offload/pager.py:387-512 | What one step touches and when, stated from the states before and after: the logs of the touched places grow by an access of the right queue and kind that takes as long as the operation, all else stays as it was |
| PagerLayout.Layout.Add | lib/torchslicer/torchslicer/offload/pager.py:71-75 | Entries of a region are 256-aligned, in bounds, one after the other, and stay where they are |
| PagerLayout.RegionsApart | lib/torchslicer/torchslicer/offload/pager.py:188-198 | Parameters and buffers, gradients and state of a slice that fits are inside its slot and apart |
| PagerLayout.TensorsApart | lib/torchslicer/torchslicer/offload/pager.py:45-75 | Any two tensors of a slice, parameters, buffers, gradients and state alike, are apart in its slot, and every one is 256-aligned |
| PagerLayout.ReadFits | lib/torchslicer/torchslicer/offload/pager.py:514-540 | A page-rounded read stays inside the file and the staging buffer and takes every byte of its region |
| PagerLayout.WriteFits | lib/torchslicer/torchslicer/offload/pager.py:562-592 | A page-rounded write covers what changed and stays inside file, slot buffer and staging buffer |
| PagerLayout.StagedApart | lib/torchslicer/torchslicer/offload/pager.py:523-526 | What is staged of parameters and buffers never overlaps what is staged of optimizer state |
| PagerLayout.OnlyPaddingExtra | lib/torchslicer/torchslicer/offload/pager.py:570-574 | What a write takes besides its region is the padding of the region's last page in the file |
| OffloadExecutor.OffloadExecutor.StandardBatch | lib/torchslicer/torchslicer/offload/executor.py:253-254 | One micro-batch through the paged, recomputing schedule leaves parameters, optimizer state, buffers, RNG state and loss exactly as the plain batch: random slices, shared parameters and any sum included; and no pager call fails |
| OffloadExecutor.OffloadExecutor.GpipeBatch | lib/torchslicer/torchslicer/offload/executor.py:256-257 | Several micro-batches: the layer-major batch of the memory it found; through slices that draw nothing, buffers and RNG state as the plain micro-batched executor, a loss that times their number is the sum of theirs, and every parameter whose sum does not depend on its order, untied ones with any sum |
| OffloadExecutor.OffloadExecutor.OffloadBatch | lib/torchslicer/torchslicer/offload/executor.py:282-376 | The layer-major schedule: every parameter is stepped once on what the schedule adds to it, no gradient is left, all slots are idle at the end. The pager calls it made are returned: they are a run from the state the batch found, exactly those of `PagerSchedule.BatchCalls`, none of them fails, and `end_batch` does not either, so `PagerBatch` counts the page-ins of the object |
| OffloadExecutor.OffloadExecutor.ForwardSweep | lib/torchslicer/torchslicer/offload/executor.py:300-319 | Every slice but the last upwards; inputs and RNG states are kept |
| OffloadExecutor.OffloadExecutor.BackwardVisit | lib/torchslicer/torchslicer/offload/executor.py:346-372 | A slice below the last: replay, backward and step while the slice below is fetched |
| OffloadExecutor.OffloadExecutor.Replays | lib/torchslicer/torchslicer/offload/executor.py:263-280 | The replays of a visit give the gradients the first forwards would have given, and the buffers are put back |
| OffloadExecutor.OffloadExecutor.StepVisit | lib/torchslicer/torchslicer/offload/executor.py:378-386 | On the device or handed to the CPU: the slice's page is stepped, shared parameters with their lowest user only |
| OffloadExecutor.OffloadExecutor.LastVisit | lib/torchslicer/torchslicer/offload/executor.py:321-344 | The last slice: forward with a graph, loss, backward, step |
| OffloadExecutor.OffloadExecutor.constructor | lib/torchslicer/torchslicer/offload/executor.py:166-206 | The pages and the resident shared tensors together are the model's memory, every slice fits in a slot and none computes: a first batch can start |
| OffloadTraining.Train | lib/torchslicer/torchslicer/offload/executor.py:166-206 | From `setup` on, any number of batches in one process: the memory is that of the layer-major schedule, and if every batch has one micro-batch, or slices that draw nothing and shared gradients whose order does not matter, the memory and every logged loss are those of the uncut network's training run |
| OffloadTraining.TrainBatch | lib/torchslicer/torchslicer/offload/executor.py:253-257 | The method a batch's number of micro-batches selects: the layer-major batch, the uncut network's parameter by parameter wherever the order of the sum does not matter, ready for the next batch |
| OffloadTraining.SharedDiffers | lib/torchslicer/torchslicer/offload/executor.py:282-376 | The executor itself on a pair of slices with a shared parameter, a commutative sum and two micro-batches: it leaves another value than the uncut network |
| LayerOrder.LayerIff | lib/torchslicer/torchslicer/offload/executor.py:282-376 | For every sum with a zero and every number of micro-batches but one: the layer-major schedule leaves all pairs of slices the shared parameter the uncut network leaves, if and only if the sum is commutative and associative |
| LayerOrder.LayersDiffer | lib/torchslicer/torchslicer/offload/executor.py:282-376 | A commutative sum with a zero for which they differ on two micro-batches |
| OffloadExecutor.OneMicroBatch | lib/torchslicer/torchslicer/offload/executor.py:282-376 | A layer-major batch of one micro-batch is the plain batch |
| OffloadExecutor.ManyMicroBatches | lib/torchslicer/torchslicer/offload/executor.py:282-376 | With one micro-batch, or slices that draw nothing, a layer-major batch leaves buffers, RNG state and loss as the plain one, and every parameter that one slice uses, or whose sum does not depend on its order, whatever the others are |
| OffloadExecutor.AllFollow | lib/torchslicer/torchslicer/offload/executor.py:282-376 | If that is every parameter, it is the plain batch |
| OffloadExecutor.LayerMajorIs | lib/torchslicer/torchslicer/offload/executor.py:282-376 | What the schedule leaves is one calculation on the memory it found |
| OffloadExecutor.StillOld | lib/torchslicer/torchslicer/offload/executor.py:378-386 | No slice above owns what a slice uses: each replay computes with the parameters its first forward saw |
| OffloadExecutor.ReplaySame | lib/torchslicer/torchslicer/offload/executor.py:263-280 | A replay back-propagates as the first forward would have, if backward does not see what that forward and the later ones of the visit change. Buffers the forwards do not change it may read |
| OffloadExecutor.ReplayIff | lib/torchslicer/torchslicer/offload/executor.py:263-280 | The condition is exact for every number of micro-batches: all replays of all visits of at most k micro-batches agree with their first forwards, if and only if backward sees nothing of what a forward and at most k - 1 more change |
| OffloadExecutor.ReplayOnceIff | lib/torchslicer/torchslicer/offload/executor.py:263-280 | With one micro-batch the condition is about one forward |
| OffloadExecutor.OwnBlindReplays | lib/torchslicer/torchslicer/offload/executor.py:263-280 | A condition on single forwards is enough for any number of micro-batches: backward does not see what any forward of the slice changes, though it may read buffers no forward changes |
| OffloadExecutor.OnceNotEnough | lib/torchslicer/torchslicer/offload/executor.py:263-280 | With several micro-batches the condition for one is not enough: a slice whose backward sees what the next forward changed |
| OffloadExecutor.ReplayDiffers | lib/torchslicer/torchslicer/offload/executor.py:263-280 | Without that assumption they differ: a slice whose gradient reads the buffer its own forward updates |
| LayerMajor.SameSum | lib/torchslicer/torchslicer/offload/executor.py:282-376 | A parameter gets the same sum slice by slice as micro-batch by micro-batch |
| PagerVisits.FetchWhile | lib/torchslicer/torchslicer/offload/executor.py:300-386 | Another slice can be fetched while one computes, and the computing one notices nothing |
| ModelGraph.ValidCuts | lib/torchslicer/torchslicer/core/model_graph.py:450-468 | The one-pass scan returns, in order, exactly the nodes that someone reads, over which no edge passes and after which no node reads the model input |
| ModelGraph.InputAfter | lib/torchslicer/torchslicer/core/model_graph.py:450-468 | For every position, whether a node from there on reads the model input |
| ModelGraph.LiveNodes | lib/torchslicer/torchslicer/core/model_graph.py:289-293 | The single reverse pass finds exactly the nodes the output depends on |
| ModelGraph.RunNodes | lib/torchslicer/torchslicer/core/model_graph.py:470-481 | Every node's value is its function of the values it reads |
| SplitLayer.RunSlices | lib/torchslicer/torchslicer/core/split_layer.py:102-142 | For every live graph and every increasing list of allowed cuts, running the slices one after the other on the input gives the value of the last node |
| SplitLayer.SliceComputes | lib/torchslicer/torchslicer/core/split_layer.py:102-142 | Every layer of a slice outputs what it outputs in the whole graph |
| SplitLayer.SliceOutput | lib/torchslicer/torchslicer/core/split_layer.py:102-142 | A slice cut at allowed places outputs the value of its last node |
| SplitLayer.AllEmptyIsOne | lib/torchslicer/torchslicer/core/split_layer.py:102-142 | A slice none of whose layers reads another has one layer: the sequential path is taken only where it is right |
| SplitLayer.Run | lib/torchslicer/torchslicer/core/split_layer.py:102-142 | Sequential if all predecessor lists are empty, else routed through the outputs so far; each layer ran on what it should: the input first and then the previous output, or what its predecessors say |
| SplitLayer.IntraPredecessors | lib/torchslicer/torchslicer/strategies/base.py:47-76 | Local indices of what a layer reads inside its slice, and the marks for the slice's input |
| SplitLayer.PartitionsFromCuts | lib/torchslicer/torchslicer/strategies/base.py:33-44 | The slices between the cuts |
| SplitLayer.PruningKeepsOutput | lib/torchslicer/torchslicer/core/model_graph.py:289-293 | Keeping exactly what the output depends on keeps the output's value and leaves a live graph |
| ClientSession.ClientSession.Switch | lib/torchslicer/torchslicer/sl/clients.py:139-155 | The active client's state is put away and the next one's made live, or passed on with the copy handoff |
| ClientSession.ClientSession.TrainRound | lib/torchslicer/torchslicer/sl/clients.py:106-123 | A round over any participants in either mode, with the callback at the end of a parallel round: every client's state, live or put away, is what private copies would have |
| ClientSession.ClientSession.TrainBatch | lib/torchslicer/torchslicer/sl/clients.py:106-123 | One batch changes the active client's state and nobody else's |
| ClientSession.ClientSession.Finish | lib/torchslicer/torchslicer/sl/clients.py:134-137 | `states` holds the latest state of every client that had a turn |
| ClientSession.ClientSession.ReplaceStates | lib/torchslicer/torchslicer/sl/clients.py:125-132 | Every client gets its new state, the active one also in the live slices |
| ClientSession.ClientSession.RoundEnd | lib/torchslicer/torchslicer/sl/clients.py:315-336 | Participants get back their new states and every client the aggregated one; a list of another length is refused and changes nothing; the result is that of the same aggregation on private copies |
| ClientSession.ClientSession.CombineStates | lib/torchslicer/torchslicer/sl/clients.py:117-123 | At the end of a parallel round the active client's state is stored, the session's callback may combine all states, and the live slices take up the active client's |
| ClientSession.ClientSession.TrainRounds | lib/torchslicer/torchslicer/sl/clients.py:106-137 | Any number of federated rounds, each with its own participants, training, callback, give-back and aggregation: one live copy is N private copies, and a refusal ends it in the same round |
| ClientSession.ParallelOrder | lib/torchslicer/torchslicer/sl/clients.py:89-104 | The rounds over the live clients, by positions: of two turns the earlier has the smaller pair of how many turns its client had before and its client's place in the list; and every client gets exactly its own batches in order |
| ClientSession.SequentialOrder | lib/torchslicer/torchslicer/sl/clients.py:89-104 | One client after the other, by positions: of two turns the earlier has the smaller pair of its client's place in the list and how many turns that client had before; and every client gets exactly its own batches in order |
| ClientSession.OrderIs | lib/torchslicer/torchslicer/sl/clients.py:89-104 | The two orders, each told by its positions, for distinct clients and loaders of any lengths |
| ClientSession.OwnOrder | lib/torchslicer/torchslicer/sl/clients.py:89-104 | In either mode every participant is trained on exactly its own batches, in order, and nobody else on anything |
| ClientSession.OthersUntouched | lib/torchslicer/torchslicer/sl/clients.py:106-123 | A client without a turn keeps its state |
| ClientSession.CopyTravels | lib/torchslicer/torchslicer/sl/clients.py:42-43 | With the copy handoff the active state is that of one model trained on all batches in order |
| ClientSession.KeepIsPrivate | lib/torchslicer/torchslicer/sl/clients.py:139-155 | The keep handoff is private copies: a sequential session with it trains as if no state were ever handed on |
| ClientSession.GivenIs | lib/torchslicer/torchslicer/sl/clients.py:315-336 | Giving the participants their states back gives each its own and leaves everyone else's |
| ClientSession.FederatedIs | lib/torchslicer/torchslicer/sl/clients.py:315-336 | The end of a federated round, client by client: participants get what `on_round_end` gives back, the others keep theirs, and an aggregate of what the participants then have is everyone's |
| ClientSession.ServerCopies.constructor | lib/torchslicer/torchslicer/executors/local.py:253-267 | An epoch starts with the server as it is, no copy and no client before |
| ClientSession.ServerCopies.Epoch | lib/torchslicer/torchslicer/executors/local.py:253-305 | From construction to the end of an epoch, in either order: each client and its server copy are as if trained alone, and everyone else is as before |
| ClientSession.ServerCopies.TrainEpoch | lib/torchslicer/torchslicer/executors/local.py:296-305 | In either order, within an epoch each client's server copy evolves from the epoch start on that client's own batches only |
| ClientSession.ServerCopies.TrainBatch | lib/torchslicer/torchslicer/executors/local.py:296-305 | A change of client stores the live server state and restores the other's |
| ClientSession.ServerCopies.Save | lib/torchslicer/torchslicer/executors/local.py:357-361 | The last client's copy is stored too |
| Auc.RankSumIsPairCount | lib/torchslicer/torchslicer/privacy/metrics.py:13-26 | For every list of scores and labels, over positions: there is an area exactly if both classes occur, it lies in [0, 1], and times the number of pairs of a positive and a negative position it is the number of such pairs with the positive above, plus half the tied ones |
| Auc.PairsCounted | lib/torchslicer/torchslicer/privacy/metrics.py:13-26 | The pairs counted class by class are the pairs of positions |
| Auc.CumulativeIsBelow | lib/torchslicer/torchslicer/privacy/metrics.py:13-26 | A cumulative count of the unique values is the number of scores at most that value |
| Auc.RankIsWins | lib/torchslicer/torchslicer/privacy/metrics.py:13-26 | An averaged rank is the pairs won against all scores and one half |
| Auc.SelfPairs | lib/torchslicer/torchslicer/privacy/metrics.py:13-26 | Among themselves n scores win half of the n * n pairs, whatever the ties |
| Auc.PairsBounded | lib/torchslicer/torchslicer/privacy/metrics.py:13-26 | The result lies between 0 and 1 |
| Partition.Partition | lib/torchslicer/torchslicer/data/partition.py:204-220 | Exactly which error, in the order they are checked, the methods' own included; else one ascending list per client and every sample on exactly one of them, dealt by the method's own rule: `iid` sections of the shuffle that differ by at most one, the chunks of the first Dirichlet draw that fits, each client's own row of shards, the sections of the first quantity draw that fits, or whole groups by a greedy run, no group on two clients and the loads within the greedy bound |
| Partition.ExactlyOneClient | lib/torchslicer/torchslicer/data/partition.py:204-220 | What that means: for every sample there is one client that holds it and no other does |
| Partition.CutExact | lib/torchslicer/torchslicer/data/partition.py:62-65 | Cutting at truncated cumulative shares loses and repeats nothing, whatever the shares |
| Partition.CutProportional | lib/torchslicer/torchslicer/data/partition.py:62-65 | Each part is its share of the samples to within one sample |
| Partition.CutAt | lib/torchslicer/torchslicer/data/partition.py:62-65 | Part k runs from the first k shares' part of the samples to that of one share more; the last part takes the rest |
| Partition.BoundRounds | lib/torchslicer/torchslicer/data/partition.py:62-65 | Where a part begins is that share of the samples rounded down |
| Partition.ArraySplitExact | lib/torchslicer/torchslicer/data/partition.py:68-69 | A near-equal split loses and repeats nothing |
| Partition.ArraySplitSizes | lib/torchslicer/torchslicer/data/partition.py:68-69 | No two of its parts differ by more than one |
| Partition.IidPart | lib/torchslicer/torchslicer/data/partition.py:68-69 | Its parts are consecutive sections, in order |
| Partition.IidSizes | lib/torchslicer/torchslicer/data/partition.py:68-69 | An `iid` client has an equal share, the first few one sample more |
| Partition.DealClasses | lib/torchslicer/torchslicer/data/partition.py:72-87 | One pass over the classes deals every sample out once, each class by its own shares |
| Partition.DealtAt | lib/torchslicer/torchslicer/data/partition.py:72-87 | Client k gets chunk k of every class and nothing else |
| Partition.Dirichlet | lib/torchslicer/torchslicer/data/partition.py:72-87 | The first draw that leaves no client short; the search fails if and only if every draw does |
| Partition.Quantity | lib/torchslicer/torchslicer/data/partition.py:101-110 | The first draw that leaves no client short; the search fails if and only if every draw does |
| Partition.Shards | lib/torchslicer/torchslicer/data/partition.py:90-98 | The errors; else for each client the shards its own row of the pick names, of the samples sorted by label, and every sample dealt out once |
| Partition.RowAt | lib/torchslicer/torchslicer/data/partition.py:90-98 | Client k gets the shards of row k of the pick |
| Partition.PickedHold | lib/torchslicer/torchslicer/data/partition.py:90-98 | Picked shards hold their own samples and no others |
| Partition.StableByLabel | lib/torchslicer/torchslicer/data/partition.py:90-98 | Within a label the samples keep the order of the shuffle |
| Partition.SortedByLabel | lib/torchslicer/torchslicer/data/partition.py:90-98 | The stable sort by label loses and repeats nothing and leaves the labels ascending |
| Partition.ShardsAscend | lib/torchslicer/torchslicer/data/partition.py:90-98 | The shards are runs of labels: no sample of a shard has a larger label than one of a later shard |
| Partition.PickedAll | lib/torchslicer/torchslicer/data/partition.py:90-98 | Picking every shard once, in any order, gives all that the shards hold |
| Partition.ArgMin | lib/torchslicer/torchslicer/data/partition.py:113-129 | The first of the smallest |
| Partition.Place | lib/torchslicer/torchslicer/data/partition.py:113-129 | The greedy placement: every group on one client, largest first, each to the first client with the least so far; and without its last group no client has more than any other |
| Partition.Natural | lib/torchslicer/torchslicer/data/partition.py:113-129 | The errors, and the samples of each client from its groups, placed by a greedy run over the groups by size |
| Partition.StableBySize | lib/torchslicer/torchslicer/data/partition.py:113-129 | Groups of one size keep the order of the shuffle |
| Partition.GroupsAre | lib/torchslicer/torchslicer/data/partition.py:113-129 | What the front door says of groups: placed by a greedy run, every client holds exactly its groups' samples, no group is split, nobody is left empty, and every load meets the greedy bound |
| Partition.NaturalExact | lib/torchslicer/torchslicer/data/partition.py:113-129 | Every sample is on one client |
| Partition.NeverSplit | lib/torchslicer/torchslicer/data/partition.py:113-129 | Two samples of one group are never on two clients |
| Partition.NoneEmpty | lib/torchslicer/torchslicer/data/partition.py:113-129 | With no more clients than groups no client is left without samples |
| Partition.OneGroupEach | lib/torchslicer/torchslicer/data/partition.py:113-129 | With as many clients as groups each gets one |
| Partition.GreedyBound | lib/torchslicer/torchslicer/data/partition.py:113-129 | A client's load is at most total / n + (1 - 1/n) of any of its own groups, so of the largest |
| FrameCodec.StreamRoundTrip | lib/torchslicer/torchslicer/executors/worker.py:221-229 | Every sequence of frames is read back as sent, and its end as a clean close, if and only if every tensor has an element and an element type with a code |
| FrameCodec.FrameRoundTrip | lib/torchslicer/torchslicer/executors/worker.py:446-464 | A printed frame is read back exactly under that condition, whatever follows it, and what follows is never touched |
| FrameCodec.UnlistedDtype | lib/torchslicer/torchslicer/executors/worker.py:168-173 | An element type without a code: four-byte elements silently arrive as FLOAT32, any other size ends the connection |
| FrameCodec.CutStream | lib/torchslicer/torchslicer/executors/worker.py:705-746 | A connection that breaks after any number of bytes delivers exactly the frames that lie whole within them and is never taken for a malformed one |
| FrameCodec.BrokenLooksClosed | lib/torchslicer/torchslicer/executors/worker.py:188-210 | A break inside a frame is reported as an error if and only if no field begins there; where one begins it is taken for a clean close |
| FrameCodec.NextExtends | lib/torchslicer/torchslicer/executors/worker.py:446-464 | More bytes never change what was made of the bytes so far |
| FrameCodec.ValueOfBig | lib/torchslicer/torchslicer/executors/worker.py:56-74 | Big-endian numbers of any width come back |
| FrameLayout.ByValueLayout | lib/torchslicer/torchslicer/executors/worker.py:55-63 | Where every field of a tensor frame lies and what its bytes are: kind letter, big-endian batch, the element type's code, numbers of dimensions and context bytes, context, dimensions, length of the data, data, and nothing else |
| FrameLayout.ByHandleLayout | lib/torchslicer/torchslicer/executors/worker.py:65-70 | The same for a handle frame, with the kind in lower case |
| TensorStream.Fill | lib/torchslicer/torchslicer/executors/worker.py:188-210 | A buffer is filled with the next bytes however they arrive; a timeout surfaces exactly where the caller allows one and nothing was read, and loses nothing |
| TensorStream.HandleTensorConn | lib/torchslicer/torchslicer/executors/worker.py:705-746 | The frames handed on, the way the connection ends and the acknowledgements sent back are those the bytes determine, for every sequence of short reads and timeouts |
| TensorStream.ReadTensorFrameRest | lib/torchslicer/torchslicer/executors/worker.py:446-464 | The reader of a tensor frame agrees with the parser, through the reused receive buffer |
| TensorStream.ReadIpcFrameRest | lib/torchslicer/torchslicer/executors/worker.py:467-479 | The reader of a handle frame agrees with the parser and acknowledges each handle once |
| TensorStream.RecvBuf.Get | lib/torchslicer/torchslicer/executors/worker.py:427-443 | A buffer large enough, the same one if it already is |

## Left out

- PagerCoherence.PagerRefinesFlatMap: device copies take effect at once, because `PagerOrdering` proves separately that conflicting ones are ordered; the disk tier's threads and futures are modelled by the contents and the bytes they move only.
- SlicePager.SlicePager.AdoptState: optimizer state appears when the first step has created it, as a whole; a step that creates part of it is not modelled.
- OffloadExecutor.OffloadExecutor.Replays: the parameters of a page change in one write at the end of a visit, not tensor by tensor within it.
- OffloadExecutor.OffloadExecutor.OffloadBatch: auxiliary inputs and I/O counting are left out.
- OffloadExecutor.ReplaySame: the assumption on buffers is about all tapes and inputs of a slice's forwards, not only those a run meets.
- LossReports.OwnLossIff: rounding of the mean is not modelled.
- WorkerServicer.WorkerServicer.Optimize: looks at the wait's condition once and for all groups, where the code waits group by group until a timeout, which ends the run with an error; that the condition holds at once is `PipelineResults.WaitNeverBlocks`.
- Cluster.Train: the calls between the objects are made one at a time; within one call a worker is not interrupted, as its queue has one thread and its tables one lock.
- PipelineResults.EventsBelong: the losses are those the worker has sent; the driver's own table is in `LossReports`.
- PipelineProgress.Bounded: counts steps, not seconds; timeouts and retries are not modelled.
- ClientSession.ClientSession.Switch: states are immutable values, so a state aliased by two clients is not modelled; the stores that keep states in memory or on disk are one map.
- FrameCodec.FrameRoundTrip: a shape with a dimension of -1, which no writer sends, is refused, not inferred; opening a device-memory handle is not modelled.
- TensorStream.HandleTensorConn: the stop flag that ends the loop between two frames, and a connection that stays quiet for ever, are left out.
- Auc.RankSumIsPairCount: over real numbers; a rounding error is not modelled.
- Floating point, mixed precision, layers, autograd and optimizers themselves: fields of `Network.Net`.
- `LOCAL_LOSS`, cut hooks, privacy attacks and defences, MoE auxiliary losses, learning-rate schedules: optional branches of the batch methods.
- Frozen parameters and parameters that get no gradient in the pipeline: a replica without a gradient sends zeros, which is a step the owner would not have made.
- Workers' own random generators: the pipeline's theorems are about slices that draw nothing.
- Failures: lost workers, retries, checkpoints and recovery, and the heartbeat that notices them.
- gRPC, tunnels, relays, NCCL, discovery, tracing, metrics of time and traffic: plumbing around the messages that are modelled.
- Tracing a module into nodes and building node modules: `ModelGraph` starts from the nodes and what they read.
- Buffers shared by several slices: every slice has its own.
- Feature shift, saving and loading a split, data loaders, strategies that choose cuts.
