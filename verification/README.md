# TrainPool, verified

A Dafny model of three connected cores of TrainPool and of what they promise.

**A. Graph execution by groups.** A traced operator graph is cut into groups of consecutive nodes.
Groups run one at a time; values that cross a group boundary live on a tape of store handles.
`Graph.dfy` defines graphs, node-by-node evaluation (`Run`) and the derivative coefficients met on
the way (`Linearize`). Operators are arbitrary functions of their arguments, their persistent buffer
and the RNG; values and gradients are exact numbers, and `None` stands for "no differentiable path".
`Gradients.dfy` gives the reverse sweep, its meaning (seed plus the sum over all consumers) and the
proof that it is the adjoint of forward-mode differentiation. `Trace.dfy` says what both are without
running them: every call is applied to its own arguments in their places, to what its buffer's last
writer left and to the RNG of the call before, and every gradient is what the chain rule makes it.
`Cuts.dfy` derives group inputs, outputs and readers. `Ledger.dfy` and `GraphRuntime.dfy` are the
runtime as a class: the forward pass, the reverse pass with recomputation, and the release of the
tape, with every store handle owned by exactly one table entry, over any number of training steps
and with what a refused pass leaves. `Backward.dfy` holds the reverse walk on values. `Capture.dfy`
is the scan that admits a graph; with `SharedBuffers.dfy` it finds the exact condition under which
per-group buffer copies are faithful. `Partition.dfy`, `Admission.dfy` and `Repartition.dfy` are the
first cut, the estimate, the splitting until everything fits, and the dealing out of handles with
every split. `TensorStore.dfy` with `Eviction.dfy` is the tiered store, which any sequence of calls
finds to be a plain map from ids to bytes (the map the graph runtime's `Ledger.RamStore` is), and
`Optimizer.dfy` the training cycle with its transactional step.

**B. Reliable UDP selective repeat.** `UdpServer.dfy` is the receiver: each lock-protected section
is a function, and a class performs it in place. `UdpProtocol.dfy` interleaves these sections with
any number of senders, with other writers, with commits and frees, over a network that loses,
duplicates and reorders; `UdpSafety.dfy` proves what every run keeps. A freed block id may be
allocated again, so logs are kept per incarnation, and `UdpReuse.dfy` finds when a transfer can
reach two of them. `UdpDelivery.dfy` is the other side: what each handler answers, and that a write
which nothing disturbs succeeds from every state. `UdpSender.dfy` is the sender's window phase
against a scripted network, `UdpReader.dfy` the collecting side of a read, `Wire.dfy` the datagram
format, `Segments.dfy` the bitmaps and the coalesced buffers.

**C. Blocks, migration, accounting.** `Blocks.dfy` is one RAM block fed by three write paths.
`Migration.dfy` moves a block between nodes; every remote call may run late, or run and lose its
reply; undisturbed, a migration goes through from every state. `Residency.dfy` is the leader's
table, `Accounting.dfy` the atomic RAM counters.

Assumptions, each stated where it is used:

- A UDP write binds a fresh socket, so its key (source address and port, transfer id, block) was
  never used before (`UdpProtocol.Unused`). Transfer ids alone may repeat: a migration uses one for
  all its chunks, and the data path passes on the client's. What the assumption excludes is a source
  port that comes back under the same transfer id and block.
- Nothing is assumed about the digest: a complete session of an honest sender holds the payload
  because every stored packet is a slice of it.
- Automatic differentiation is correct inside one straight-line group: the local derivative of a
  group is `Gradients.Sweep` over the coefficients of the recomputed run.
- The names of one module's parameters differ (`Capture.OwnApart`). That no parameter is shared
  (`Backward.ParamsApart`) then follows from capture's scan (`Capture.AdmittedApart`).
- Configuration limits are those the configuration validates: window 2 to 256, at least one retry,
  a positive payload size, a positive block size.
- In a migration run nothing crashes, no lease expires and no user frees the block; a migration
  starts from a handle the leader has recorded.

What turned out not to hold, with the exact condition:

- A cut changes results when one group reads a buffer that another group's BatchNorm replaces.
  Capture rejects a module that reuses a buffer, but not a plain read after the module
  (`Capture.CaptureAdmitsAStaleCut`). For one cut, private copies are faithful for every model if
  and only if no group reads another group's BatchNorm buffer (`SharedBuffers.FaithfulIffApart`,
  which the runtime's contracts carry as `Cuts.BuffersApart`). Every cut of an admitted graph is
  faithful if and only if no BatchNorm's buffer is read plainly after it
  (`Capture.EveryCutFaithful`).
- Splitting a group does not keep each handle in exactly one record when a name is mentioned by two
  groups (`Repartition.SharedReadLosesAHandle`); one redistribution does if and only if names are
  apart (`Admission.ConservedIffApart`). Parameters always are. Buffers are, whatever the cuts, if
  and only if no two nodes name the same buffer (`Repartition.BuffersKeptExactly`).
- A window acknowledged only in the round after the last allowed retry still fails: the sender
  counts the round before it looks (`UdpSender.TooLate` is such a phase). The window phase delivers
  exactly when nothing fails and, for every window that comes to its last round but one, what was
  read up to then reports all its packets (`UdpSender.DeliveredByReports`); a network without
  failures that lets the ACK of every packet through once in any `retries` rounds always does
  (`UdpSender.FairNetworkDelivers`).
- A transfer can be applied twice, and reported successful, when its block is freed and allocated
  again with the same id, lease and generation, as a migration that is retried to the same node
  does: the late START is admitted once its completion has been forgotten
  (`UdpReuse.AppliedTwice`). Every incarnation gets it at most once (`UdpSafety.AtMostOnce`), and
  all of them together get it at most once in every run if and only if no block id comes back with
  an old lease and generation (`UdpReuse.OnceExactly`).
- A read counts silent periods over its whole length, not since the last packet: it returns exactly
  when a FIN finds every packet there before more than `retries` of them have passed
  (`UdpReader.ReceivePayload`; `UdpReader.ScatteredSilence` is a read that times out although no
  two silent periods are adjacent).
- The leader's compare-and-set answers Ok on a freed block without recording anything; it has
  recorded the new owner if and only if the entry was not freed (`Residency.ResidencyTable.CompareAndSet`;
  `Residency.PublishAfterFree` is a case where it was).
- A reservation can bring the counter above the budget: the budget is read before the
  compare-and-swap. It never exceeds the budget it read, and it exceeds the budget of the moment if
  and only if that was lowered below the new total in between (`Accounting.WithinBudgetRead`;
  `Accounting.BudgetCanBeExceeded` is such a run).
- The 256 KiB headroom checked before an allocation can be used up by a concurrent one; it is left
  if and only if what other reservations and budget changes took in between is at most the slack the
  check saw (`Accounting.HeadroomLeft`; `Accounting.HeadroomCanBeLost` is a case where it is not).
- Freeing a tensor fails if and only if it has blocks and freeing one raises
  (`TensorStore.Store.Free`). The store then forgets the blocks but keeps the handle: the bytes are
  lost, and freeing it again succeeds (`TensorStore.FreeMayLose`).
- `zero_grad` succeeds if and only if it is not refused and none of the frees it needs raises
  (`Optimizer.Trainer.ZeroGrad`). When one does, the table still names gradients whose contents are
  gone, the job is not marked as failed, and the next step updates weights with numbers nobody
  computed (`Optimizer.StepAfterFailedZeroGrad`).

## Model

| member | source | states |
|---|---|---|
| GraphRuntime.Runtime.Train | python/trainpool_torch/graph.py:322-366 | For every cut of a graph in which parameters are not shared and no group reads another group's BatchNorm buffer, one training step returns the outputs, the input gradients and the parameter gradients of the uncut model, which are those of its trace and of the chain rule, and leaves its buffers and RNG; afterwards, also when either pass is refused, the store holds nothing but buffers and the recorded parameter gradients, which are those of the uncut model for the groups that were differentiated |
| GraphRuntime.Runtime.Execute | python/trainpool_torch/graph.py:665-773 | Under the same condition on buffers, the forward pass returns node-by-node values and leaves the uncut model's buffers and RNG: in the trace that one application per call gives, with every argument in its own place; before each group the recorded reader counts and next uses are the true ones, and inference holds exactly what is still to be read; a pass refused at a group gives everything back and keeps the buffers of the groups before it |
| GraphRuntime.TrainFor | python/trainpool_torch/graph.py:322-366 | Any number of training steps, each with new weights and its gradients consumed afterwards, until a pass is refused: each completed one returns what the same step of the uncut model returns; after all of them buffers and RNG are those of the uncut model and the live handles are exactly the buffers, after a refusal they are the buffers and the gradients the refused step recorded |
| GraphRuntime.TrainStep | python/trainpool_torch/graph.py:322-366 | One such step. A refused forward pass leaves the buffers as the groups before the refused one left them and no gradient; a refused backward pass leaves the buffers of the whole forward pass and exactly the final gradients of the groups after the refused one |
| GraphRuntime.Runtime.ClearGradients | python/trainpool_torch/sequential.py:287-290 | The recorded gradients are freed; the buffers stay as they were |
| GraphRuntime.Runtime.LiveExactly | python/trainpool_torch/graph.py:882-889 | Between passes the live handles are exactly the buffers and the recorded gradients |
| GraphRuntime.Runtime.ExecuteGroups | python/trainpool_torch/graph.py:673-757 | The loop over the groups keeps the invariant of the forward pass and stops exactly at the first refused group |
| GraphRuntime.Runtime.Reverse | python/trainpool_torch/graph.py:836-880 | Every placeholder and trainable parameter gets exactly the whole-graph gradient; when the pass is refused, exactly the groups after the refused one have theirs recorded; buffers stay as after forward, the RNG is not touched, and no gradient under way is left behind |
| GraphRuntime.Runtime.Differentiate | python/trainpool_torch/graph.py:340-366 | The backward pass and the release of the tape: buffers stay, results and recorded gradients are those of the uncut model, up to a refused group |
| GraphRuntime.Runtime.WalkBack | python/trainpool_torch/graph.py:863-869 | From last group to first the gathered gradients are those of the uncut sweep so far; the walk ends early only at a refused group |
| GraphRuntime.Runtime.ReverseGroup | python/trainpool_torch/graph.py:775-834 | One group's step keeps: accumulated gradients are the uncut model's for every value not yet consumed, and processed groups' parameter gradients are final |
| GraphRuntime.Runtime.SkipGroup | python/trainpool_torch/graph.py:864-867 | A group none of whose outputs has a pending gradient contributes nothing |
| GraphRuntime.Runtime.Recompute | python/trainpool_torch/graph.py:789-802 | Recomputation from tape, snapshot and recorded RNG meets exactly the derivative coefficients of the original run |
| GraphRuntime.Runtime.RunGroup | python/trainpool_torch/graph.py:695-719 | A group run from stored boundary values, buffers and RNG reproduces the uncut model's values, buffers and RNG after the group |
| GraphRuntime.Runtime.Backpropagate | python/trainpool_torch/graph.py:803-828 | Output gradients taken through the group leave, for every earlier value, its uncut gradient so far |
| GraphRuntime.Runtime.Accumulate | python/trainpool_torch/graph.py:839-849 | Adds to the gradient gathered for one value, frees the previous handle, touches nothing else |
| GraphRuntime.Runtime.SeedGradients | python/trainpool_torch/graph.py:851-862 | Output gradients are added up per returned value, also when one value is returned twice |
| GraphRuntime.Runtime.SaveParamGradients | python/trainpool_torch/graph.py:829-831 | The record holds the gradient of each trainable parameter with a path, and nothing else |
| GraphRuntime.Runtime.DropPending | python/trainpool_torch/graph.py:878-880 | All gradients under way are freed and nothing else |
| GraphRuntime.Runtime.ReleaseTape | python/trainpool_torch/graph.py:882-889 | Values and snapshots are freed; buffers and parameter gradients are kept as they were |
| GraphRuntime.Runtime.ExecuteGroup | python/trainpool_torch/graph.py:674-757 | One group keeps the between-groups invariant of the forward pass |
| GraphRuntime.Runtime.TakeSnapshot | python/trainpool_torch/graph.py:698-717 | In training the tape gains the pre-run copy of exactly the group's BatchNorm buffers, and the RNG |
| GraphRuntime.Runtime.CommitBuffers | python/trainpool_torch/graph.py:724-727 | After the commit every record's buffers hold the next world's values and the tape is untouched |
| GraphRuntime.Runtime.ReplaceBuffer | python/trainpool_torch/graph.py:725-727 | The new handle replaces the old one, which is freed; every other entry keeps handle and value |
| GraphRuntime.Runtime.SaveOutputs | python/trainpool_torch/graph.py:735-740 | The group's outputs, and only they, join the tape with their values |
| GraphRuntime.Runtime.ReleaseInputs | python/trainpool_torch/graph.py:753-757 | Reader counts and next uses move on exactly for what the group read; in inference exactly the dead values are freed |
| GraphRuntime.Runtime.KeptStep | python/trainpool_torch/graph.py:735-757 | What the tape holds after a group: what it held, plus the outputs, minus what nobody reads any more |
| GraphRuntime.Runtime.LiveAtStart | python/trainpool_torch/graph.py:667-670 | The initial counts and next uses are those of the true readers |
| GraphRuntime.Runtime.InputsKept | python/trainpool_torch/graph.py:695-697 | Whatever a group reads is on the tape when its turn comes: no freed value is ever read |
| GraphRuntime.Runtime.BufferStable | python/trainpool_torch/graph.py:462-469 | A buffer a group only reads has the same value at recomputation as at its forward turn |
| GraphRuntime.Runtime.constructor | python/trainpool_torch/graph.py:392-396 | Every group's buffers become store handles holding the initial values |
| GraphRuntime.Runtime.UpstreamIsGradient | python/trainpool_torch/graph.py:803-815 | What a group is told is the gradient of each of its nodes; nodes nobody outside uses have none |
| GraphRuntime.Runtime.GradientsFinal | python/trainpool_torch/graph.py:829-831 | Recorded parameter gradients are never changed by earlier groups |
| GraphRuntime.Runtime.GradientsStay | python/trainpool_torch/graph.py:863-869 | What the groups processed so far have recorded already are the gradients of the whole graph |
| GraphRuntime.Runtime.IsEvaluated | python/trainpool_torch/graph.py:719-740 | The uncut model's values, buffers and RNG are what its trace says |
| GraphRuntime.Runtime.IsTrained | python/trainpool_torch/graph.py:803-831 | The gradients are what the chain rule makes of the trace; a trainable parameter has one recorded exactly when there is a derivative for its place and a gradient of its call, and it is their product |
| Graph.RunAgree | python/trainpool_torch/graph.py:719-719 | Runs from worlds that agree on what is read produce the same values, buffers and RNG |
| Graph.LinearizeGroup | python/trainpool_torch/graph.py:798-802 | A group run where the whole run stands meets the whole graph's coefficients |
| Graph.LinearizeAgree | python/trainpool_torch/graph.py:798-802 | Agreeing runs meet the same coefficients |
| Graph.CutOrder | python/trainpool_torch/graph.py:220-244 | Groups of a cut follow graph order and contain only executable nodes |
| Trace.RunIsTraced | python/trainpool_torch/graph.py:719-719 | Node-by-node evaluation applies every call once, to the values of its arguments each in its own place, to what the last writer of its buffer left or the initial buffer, and to the RNG the call before it left; final values, buffers and RNG are those of the calls, and the coefficients are the derivatives at exactly these operands |
| Trace.TraceIsDetermined | python/trainpool_torch/graph.py:719-719 | A graph, its operators and the world it starts in have only one such trace |
| Trace.SweepIsChainRule | python/trainpool_torch/graph.py:803-880 | Every gradient of the whole-graph sweep is what its places in the output are told plus, from every argument place in which a call reads the value, that place's derivative times the call's own gradient; it is missing exactly when there is none of these |
| Trace.ChainRuleIsDetermined | python/trainpool_torch/graph.py:803-880 | The chain rule leaves no other gradients |
| Gradients.SweepIsSeedPlusUses | python/trainpool_torch/graph.py:836-880 | Each gradient is its seed plus the sum over all consumers of final gradient times local derivative |
| Gradients.SweepIsAdjoint | python/trainpool_torch/graph.py:816-821 | Gradients computed backwards, applied to any perturbation of inputs and parameters, equal the forward-mode change of the seeded outputs |
| Gradients.SweepLocal | python/trainpool_torch/graph.py:827-828 | Sweeping a group alone and adding at the fan-out is sweeping it in place |
| Gradients.SweepSkipped | python/trainpool_torch/graph.py:866-867 | A list without any incoming gradient leaves all gradients unchanged |
| Backward.SweepFromIsSweep | python/trainpool_torch/graph.py:863-869 | Walking the groups from last to first is the whole-graph sweep |
| Backward.HiddenHasNone | python/trainpool_torch/graph.py:864-867 | A node nobody outside its group uses has no gradient when the group's turn comes |
| Backward.LaterIsFinal | python/trainpool_torch/graph.py:864-869 | A value's gradient is complete before its producer is processed |
| Backward.GroupSweep | python/trainpool_torch/graph.py:803-828 | Local differentiation fed with the outputs' gradients yields the nodes' gradients and what to add outside |
| Cuts.GroupInputs | python/trainpool_torch/graph.py:250-251 | Exactly what the group reads from outside, each once |
| Cuts.GroupOutputs | python/trainpool_torch/graph.py:252-252 | Exactly the nodes somebody outside uses, each once |
| Cuts.ConsumersArePending | python/trainpool_torch/graph.py:266-281 | The recorded consumer list counts exactly the true readers |
| Cuts.FirstAboveIsNextUse | python/trainpool_torch/graph.py:755-755 | The first recorded consumer above a group is the first true reader after it |
| Cuts.PendingStep | python/trainpool_torch/graph.py:753-755 | Passing a group retires it as one reader of each of its inputs, and of nothing else |
| Cuts.InputsAreBoundary | python/trainpool_torch/graph.py:695-697 | Group inputs are placeholders or outputs of earlier groups |
| Cuts.OutputsAreRead | python/trainpool_torch/graph.py:252-252 | Every group output has a reader, and all its readers come later |
| SharedBuffers.FaithfulIffApart | python/trainpool_torch/graph.py:724-727 | Private buffer copies equal the uncut model's buffers for every model if and only if no group reads another group's BatchNorm buffer |
| Capture.Scan | python/trainpool_torch/graph.py:181-204 | The scan in node order admits exactly the graphs in which no module reuses a parameter or a buffer used before |
| Capture.AdmittedApart | python/trainpool_torch/graph.py:187-190 | In an admitted graph each parameter belongs to one place of one call |
| Capture.PrivateUnlessRead | python/trainpool_torch/graph.py:191-201 | In an admitted graph a BatchNorm's buffer can only be shared by a later plain read |
| Capture.EveryCutFaithful | python/trainpool_torch/graph.py:183-204 | Every cut of an admitted graph keeps every model's buffers right if and only if no BatchNorm's buffer is read plainly after it |
| Capture.CaptureAdmitsAStaleCut | python/trainpool_torch/graph.py:183-204 | A graph with an input, a BatchNorm call and a later plain read of its buffer is admitted, and cut between the two it leaves a stale copy |
| Ledger.RamStore.Offload | python/trainpool_torch/store.py:498-548 | A fresh handle with the value; nothing else changes |
| Ledger.RamStore.Free | python/trainpool_torch/store.py:618-626 | Exactly the handle goes |
| Partition.MakePartition | python/trainpool_torch/graph.py:227-243 | The groups are the nodes in order; each has at most 12 nodes and, if more than one, at most a third of the budget, and has no fan-out before its end; it ends because of fan-out, with 12 nodes, or because the next node would exceed the third |
| Partition.GreedyIsUnique | python/trainpool_torch/graph.py:229-243 | These rules determine the partition |
| Repartition.Preflight | python/trainpool_torch/graph.py:569-623 | Terminates with at most nodes-minus-groups splits; only groups over budget are split, so that if all groups fit the cut is the start cut with exactly those halved, over and over, and that happens if and only if no single operator is too large; the groups are still a cut of the graph, and after all splits every weight, gradient and optimizer-state handle is in exactly one record, that of the group that mentions its parameter |
| Repartition.SplitHalves | python/trainpool_torch/graph.py:608-619 | Splitting a group that is over budget changes nothing about the cut all splits end in |
| Repartition.HalvedExactly | python/trainpool_torch/graph.py:608-619 | A group over budget falls into halves as even as can be, each halved in turn; a group that fits, or is a single operator, stays |
| Repartition.Prepare | python/trainpool_torch/graph.py:227-243 | From a graph without shared parameters to admitted groups: the groups are a cut, and each record holds exactly the handles its own names were uploaded to |
| Repartition.DealtKeeps | python/trainpool_torch/graph.py:569-597 | From any cut to any other, dealing the handles out again keeps each of them in exactly one record |
| Repartition.ParamsStayApart | python/trainpool_torch/graph.py:569-597 | However the graph is cut, no parameter is in two groups |
| Repartition.BuffersKeptExactly | python/trainpool_torch/graph.py:595-595 | Every buffer handle is kept, whatever the cuts, if and only if no two nodes name the same buffer |
| Repartition.SharedReadLosesAHandle | python/trainpool_torch/graph.py:571-575 | Two groups that read one buffer lose a handle and file the other one twice |
| Repartition.GreedyIsCut | python/trainpool_torch/graph.py:227-243 | The first groups are a cut of the graph |
| Partition.FirstTooLarge | python/trainpool_torch/graph.py:608-619 | The first group that does not fit ends a round |
| Partition.SplitKeepsOrder | python/trainpool_torch/graph.py:614-617 | Halving a group replaces it by two, as even as can be and together the same nodes in order, and leaves the other groups |
| Admission.ActivationPeak | python/trainpool_torch/graph.py:518-526 | The sweep equals the peak over positions of live bytes |
| Admission.PeakIsMaximum | python/trainpool_torch/graph.py:512-526 | The peak bounds the summed sizes of values live at every position and is reached at one |
| Admission.LiveExactly | python/trainpool_torch/graph.py:512-526 | A value counts at a position exactly from where it is produced to where it is last used |
| Admission.WorkingSet | python/trainpool_torch/graph.py:536-544 | In numbers: at least each of parameters + buffers + activations, twice parameters and activations + buffers, and five times the largest parameter, each with half of the largest value and with a tenth of parameters + buffers + activations added; and equal to one of these six sums |
| Admission.ConservedIffApart | python/trainpool_torch/graph.py:569-597 | Every handle sits in exactly one record after a repartition if and only if no name is in two groups |
| Eviction.SelectEvictions | python/trainpool_torch/store.py:92-105 | As many candidates as release enough, no more than needed; none if all together are not enough; of those selected and those left, a selected one is never used again or not needed earlier; at equal distance its bytes per unit of value are no fewer; then it has no more consumers; then no smaller id |
| Eviction.RankRanks | python/trainpool_torch/store.py:95-99 | The ranking is ordered in that way, first to go first |
| Eviction.OrderOnFields | python/trainpool_torch/store.py:80-90 | The order of the eviction keys is the stated order of distance, density, consumers and id, also strictly |
| Eviction.Distribution | python/trainpool_torch/store.py:70-77 | Capacity is used strictly in the order VRAM, local RAM, remote RAM |
| TensorStore.Store.Offload | python/trainpool_torch/store.py:498-548 | Succeeds exactly when the value is retained in VRAM, or retention was declined and its blocks can be written; then one more id maps to the bytes, otherwise the contents are what they were |
| TensorStore.Store.Upload | python/trainpool_torch/store.py:532-548 | An admitted tensor is written to blocks, or leaves no trace when a put raises |
| TensorStore.Store.Restore | python/trainpool_torch/store.py:550-603 | Returns exactly what was offloaded, from either tier, and keeps it in VRAM exactly when asked to and the budget and headroom of the moment allow; it fails only if all that may be evicted is not enough, or a spill, a read or the final free raised; contents never change |
| TensorStore.Store.ReadBack | python/trainpool_torch/store.py:571-602 | Reads from blocks and promotes exactly when asked to and the budget allows |
| TensorStore.Store.Free | python/trainpool_torch/store.py:618-626 | Fails exactly when the tensor has blocks and freeing raises; on success the id leaves the map and nothing else changes, on failure the handle stays without its bytes |
| TensorStore.FreeMayLose | python/trainpool_torch/store.py:472-475 | A stored tensor whose free raises is lost, and freeing it again succeeds |
| TensorStore.Store.EnsureCapacity | python/trainpool_torch/store.py:301-326 | Terminates; on success the allocator reports room beyond what is protected; it fails only when all that may still be evicted is not enough or a spill raised; no protected tensor is touched and no bytes change |
| TensorStore.Store.TryRetain | python/trainpool_torch/store.py:343-378 | Whether the value is kept in VRAM is decided by the budget, the headroom, the cheapest sufficient tensors and their spills; every tensor that leaves VRAM for it is strictly cheaper to evict: farther from its next use, or equally far and less dense in value, or then with fewer consumers or the larger id; no bytes change |
| TensorStore.Store.AreColder | python/trainpool_torch/store.py:353-359 | A value is kept out of VRAM unless all that would have to go is strictly cheaper |
| TensorStore.Store.EvictFor | python/trainpool_torch/store.py:360-361 | Evicting for an incoming value touches neither it nor any contents |
| TensorStore.Store.Spill | python/trainpool_torch/store.py:477-496 | Moves one tensor out of VRAM, with its transfer cost set by where its blocks are, unless a put it needs raises; then nothing changes |
| TensorStore.Store.WriteBacking | python/trainpool_torch/store.py:439-470 | Succeeds exactly when no put it needs raises; the blocks hold exactly the value; on failure the blocks already written are given back |
| TensorStore.Store.EvictAll | python/trainpool_torch/store.py:325-326 | Succeeds exactly when all spills do; evicted bytes are exactly subtracted; only the selected tensors move |
| TensorStore.Store.Choose | python/trainpool_torch/store.py:312-316 | Picks the cheapest evictable tensors that release enough and no more than needed, or none when all together are not enough |
| TensorStore.Store.Promote | python/trainpool_torch/store.py:590-602 | Promotion is a move: afterwards the handle is resident with the value, holds no blocks, and its size is counted |
| TensorStore.Store.PrepareTransient | python/trainpool_torch/store.py:328-338 | Afterwards the handles are not resident; only a spill that raises stops it; no bytes change |
| TensorStore.Store.Candidates | python/trainpool_torch/store.py:288-294 | Exactly the resident, complete, unprotected tensors, each once |
| TensorStore.Serve | python/trainpool_torch/store.py:498-626 | Any calls in any order, whatever succeeds or raises: the store answers as a plain map from ids to bytes does, and afterwards holds what that map holds |
| TensorStore.ServeOne | python/trainpool_torch/store.py:498-626 | One such call: new ids are new, what is read is what is there, and only storing and freeing change the map |
| TensorStore.Store.RoomFor | python/trainpool_torch/store.py:567-568 | Makes room for a tensor about to be read without touching it or any contents; fails only when all that may be evicted is not enough or a spill raised |
| Optimizer.Trainer.Step | python/trainpool_torch/sequential.py:294-411 | Succeeds exactly when it is allowed and nothing raises; then every parameter with a listed gradient is updated by the rule, nothing else changes and no gradient is left; any failure fails the job and leaves every weight and state pair wholly old or wholly new; after a lone failure before the swap no partial replacement is left |
| Optimizer.Trainer.StepParameter | python/trainpool_torch/sequential.py:305-398 | The pair is wholly old or wholly new; a failure before the swap leaves nothing behind exactly when no free raised as well, one after it at most retired handles; other parameters are untouched |
| Optimizer.Trainer.PublishAll | python/trainpool_torch/sequential.py:361-387 | Succeeds exactly when nothing raises, and all replacements are then durable before the swap; after a failed publication nothing of them is left if and only if no free raised as well |
| Optimizer.Trainer.Swap | python/trainpool_torch/sequential.py:389-391 | After the swap the parameter has exactly the new pair |
| Optimizer.Trainer.Forward | python/trainpool_torch/graph.py:625-663 | Refused while failed or pending, or by the admission check, which leaves the job as it was; on success exactly the updated buffers are replaced; a training forward becomes pending, one that fails once it has started fails the job |
| Optimizer.Trainer.CommitBuffers | python/trainpool_torch/graph.py:724-727 | Exactly the updated buffers are replaced, their old handles freed, and everything else stays |
| Optimizer.Trainer.Backward | python/trainpool_torch/graph.py:340-366 | One backward per forward; stores one gradient per trainable parameter reached and never overwrites a live one |
| Optimizer.Trainer.ZeroGrad | python/trainpool_torch/sequential.py:282-292 | Refused while a forward awaits its backward; otherwise succeeds exactly when none of the frees it needs raises, and then frees all gradients and nothing else; a failed call damages a gradient that is still listed and may be repeated |
| Optimizer.Trainer.FreeRecord | python/trainpool_torch/sequential.py:287-290 | One record's gradients are struck off together once all are freed |
| Optimizer.StepAfterFailedZeroGrad | python/trainpool_torch/sequential.py:282-301 | A job whose zero_grad raised steps on with a gradient nobody computed |
| Optimizer.Trainer.LiveExactly | python/trainpool_torch/sequential.py:282-399 | Whenever no step is pending and the job has not failed no gradient is listed, and if nothing ever raised the live handles are exactly weights, optimizer state and buffers |
| Optimizer.Trainer.Run | python/trainpool_torch/sequential.py:282-399 | That holds after any calls in any order, refused, raising or not |
| Optimizer.Trainer.RunCycles | python/trainpool_torch/sequential.py:282-399 | Any number of forward, backward and step or zero_grad cycles: if nothing raises, weights, state and buffers are what the same cycles make of the model on values, and the live handles are exactly those |
| Optimizer.Trainer.RunCycle | python/trainpool_torch/sequential.py:282-399 | One cycle is one step of the model on values; through the handles, a forward replaces the buffers it updates, and a step applies the rule to weight, gradient and state of every trained parameter that has a gradient and leaves the others |
| Optimizer.CycledOnHandles | python/trainpool_torch/sequential.py:282-399 | What a cycle of the model on values means for the contents of handles |
| Optimizer.TrainJob | python/trainpool_torch/graph.py:385-396 | The same from an empty store: upload of the model, then any number of cycles |
| Optimizer.Trainer.Prepare | python/trainpool_torch/graph.py:385-396 | Uploads exactly the model, or stops at the first failure |
| UdpSafety.SuccessMeansAppliedOnce | src/transport/udp.rs:610-628 | In every run, a sender that returned Ok had its payload appended exactly once to an incarnation of its block with its lease and generation, at its offset, and while that incarnation is alive the block holds it |
| UdpSafety.AtMostOnce | src/runtime/udp.rs:676-694 | Late DATA, repeated FIN and repeated START never apply a transfer twice to one incarnation of a block, and only to incarnations with its lease and generation, whether or not the sender succeeded |
| UdpSafety.OnceWithoutReuse | src/memory/local_ram.rs:35-37 | In a run in which nothing was allocated twice with the same lease and generation, each transfer is applied at most once in all |
| UdpReuse.OnceExactly | src/memory/local_ram.rs:35-37 | Each transfer is applied at most once in all, in every run, if and only if no block id comes back with an old lease and generation |
| UdpReuse.AppliedTwice | src/runtime/udp.rs:451-494 | A run in which a transfer that was reported successful is applied a second time, to the block allocated again with the same lease and generation |
| UdpSafety.AcknowledgedIsStored | src/transport/udp.rs:555-588 | However stale the ACKs and NACKs, an acknowledged packet is in the session, or its transfer is being or has been applied, unless the receiver dropped the session |
| UdpSafety.NackMeansDroppedOrApplied | src/runtime/udp.rs:643-664 | FIN is answered by NACK only if the session was dropped or the data already is being or has been applied |
| UdpSafety.FlagsHaveSlices | src/runtime/udp.rs:243-281 | In every live session each set flag has its payload slice in the buffer, and the count is the number of set flags |
| UdpSafety.CompleteIsPayload | src/runtime/udp.rs:665-674 | A session with all flags set holds exactly the payload |
| UdpSafety.NextKeeps | src/runtime/udp.rs:320-735 | Every section, interleaved with any other event, keeps the invariant |
| UdpSafety.RunKeeps | src/runtime/udp.rs:320-735 | The invariant holds in every state of every run |
| UdpSafety.FinalizeKeeps | src/runtime/udp.rs:676-698 | Finalising logs exactly the sender's payload at its offset, or drops the session |
| UdpSafety.BatchFor | src/runtime/udp.rs:228-289 | A batch loses no stored packet and is acknowledged soundly, also when it stops at a bad packet |
| UdpServer.Receiver.Open | src/runtime/udp.rs:451-509 | A live session is left as it is and confirmed again, however full the server is; otherwise an empty session with the fields of the START is opened exactly if there is room for one, and nothing changes if not |
| UdpServer.Receiver.StorePackets | src/runtime/udp.rs:228-289 | Stores exactly the packets up to the first that does not fit, and errs exactly if there is one; otherwise acknowledges exactly what has been received of the 256 packets around the last, except for a lone packet that is new, in order and no milestone |
| UdpServer.Receiver.StorePacket | src/runtime/udp.rs:553-584 | Stores one fitting packet once, at its place, and changes nothing else of the session |
| UdpServer.Receiver.Take | src/runtime/udp.rs:634-675 | Takes the session out exactly when complete and intact, marking it as finishing in the same section; an incomplete one is answered with exactly what is missing around the first missing packet |
| UdpServer.Receiver.Finalize | src/runtime/udp.rs:676-694 | Appends the session's bytes exactly when lease, generation, state and position still match |
| UdpServer.StoreAllKeepsOk | src/runtime/udp.rs:243-281 | The received count stays the number of set flags |
| UdpServer.BatchExact | src/runtime/udp.rs:228-289 | What a batch stores and how it is answered, packet by packet |
| UdpDelivery.UndisturbedWrites | src/runtime/udp.rs:420-724 | From every state of every run, with anything else going on in it, a new write of any size whose block waits for it and for whose session there is room succeeds when nothing disturbs it: the block grows by exactly the payload and nothing else changes |
| UdpDelivery.StartAnswered | src/runtime/udp.rs:420-450 | A START is admitted exactly when it is well formed and the block is waiting for its bytes; otherwise it is refused at once |
| UdpDelivery.LateDataAnswered | src/runtime/udp.rs:511-552 | DATA of a transfer that has been or is being applied is acknowledged and changes nothing; DATA without a session is otherwise an error |
| UdpDelivery.FinAnswered | src/runtime/udp.rs:618-675 | A repeated FIN of an applied transfer is confirmed again; one of an incomplete session is told what is missing and keeps the session; one without a session, or with a wrong checksum, is an error unless the transfer is just being applied |
| UdpSender.SendWindows | src/transport/udp.rs:462-602 | Always ends; its rounds are exactly those the arriving feedback determines, from nothing acknowledged to the outcome, and the payload counter is the bytes of first transmissions |
| UdpSender.PhaseIsDetermined | src/transport/udp.rs:462-602 | The feedback determines the rounds, what is acknowledged and the outcome: the contract of the window phase leaves nothing open |
| UdpSender.DatagramBound | src/transport/udp.rs:462-602 | Every phase sends at most packets times (retries + 1) datagrams |
| UdpSender.DeliveredExactly | src/transport/udp.rs:590-602 | A phase delivers exactly when nothing fails and no window needs a round after the last allowed retry; then every packet is acknowledged |
| UdpSender.DeliveredByReports | src/transport/udp.rs:590-602 | A phase delivers exactly when no failure is read and, for every window that comes to its last round but one, what was read up to then reports all its packets; what it delivers was reported |
| UdpSender.AckedIsTold | src/transport/udp.rs:555-588 | A packet counts as acknowledged exactly when something read so far says that it has arrived |
| UdpSender.FairNetworkDelivers | src/transport/udp.rs:462-602 | Without failures, and with the ACK of every packet getting through once in any `retries` rounds, every phase delivers |
| UdpSender.TooLate | src/transport/udp.rs:590-600 | A phase in which everything is acknowledged in the round after the last allowed retry, and which gives up |
| UdpSender.SoundPayload | src/transport/udp.rs:502-508 | With sound acknowledgements the payload counter of a delivered phase is the payload length |
| UdpSender.RunRound | src/transport/udp.rs:467-589 | One round sends exactly what is missing and listens until the window is acknowledged or a failure is read |
| UdpSender.SendWindow | src/transport/udp.rs:467-600 | The rounds of one window follow each other from what was known, until it is acknowledged, a failure is read or the retries are used up |
| UdpSender.UnackedExact | src/transport/udp.rs:478-482 | A round sends each missing packet of its window exactly once, in order, and nothing else |
| UdpSender.Transmit | src/transport/udp.rs:478-519 | Sends the unacknowledged packets of the window and counts their payload bytes |
| UdpSender.Listen | src/transport/udp.rs:553-589 | Processes a batch up to its first NACK or failure |
| UdpSender.HearExact | src/transport/udp.rs:555-588 | A packet becomes acknowledged exactly when something read says it has arrived; the window only shrinks and never falls below two |
| UdpSender.WindowsExact | src/transport/udp.rs:462-600 | The window of every round: the negotiated one at first, then the least of the last and all that was proposed, halved from the second round of a window on, never below two |
| UdpSender.SkipExact | src/transport/udp.rs:463-467 | The next window is the first, counted in whole windows, that is not acknowledged |
| UdpSender.Await | src/transport/udp.rs:541-589 | Listens to batches exactly until the window is acknowledged, a failure is read or the feedback ends |
| UdpSender.WholeWindow | src/transport/udp.rs:494-499 | A window with nothing acknowledged sends exactly its stretch of the payload |
| UdpReader.ReceivePayload | src/transport/udp.rs:642-773 | Against any network a returned read has the announced digest and every reply claims only packets that arrived; from the announcing peer it is exactly the payload, returned if and only if a FIN finds every packet there before the silent periods are used up |
| UdpReader.ScatteredSilence | src/transport/udp.rs:674-685 | A read that times out although no two silent periods are adjacent and its FIN finds everything there |
| UdpReader.TakeBatch | src/transport/udp.rs:686-757 | A batch is taken in up to the FIN that completes the read or the first inconsistency, which that peer never causes; a coalesced or completing batch is acknowledged, a lone packet exactly when it is a repetition or a milestone; every FIN that comes too early is told what has arrived |
| UdpReader.RepliesTruthful | src/transport/udp.rs:739-769 | Within its reach a reply reports exactly the packets that have arrived |
| UdpReader.NeverInTime | src/transport/udp.rs:674-685 | Once the silent periods are used up no later FIN counts |
| Wire.DecodeEncode | src/transport/udp.rs:92-167 | Decoding an encoded packet gives the packet |
| Wire.EncodeDecode | src/transport/udp.rs:122-167 | Every accepted datagram is the encoding of what it decodes to |
| Wire.EncodePacket | src/transport/udp.rs:92-120 | The encoder refuses exactly packets that would exceed 1400 bytes and otherwise builds this datagram, byte by byte |
| Wire.EncodedOnTheWire | src/transport/udp.rs:92-120 | The datagram of a packet byte by byte: magic, version and kind number, every id and every big-endian number at its place, payload hash, tag over header and payload, payload |
| Wire.Layout | src/transport/udp.rs:127-138 | The field offsets |
| Segments.BitmapPayload | src/transport/udp.rs:180-202 | Big-endian base and clamped window around 32 bytes whose bits, the least significant first, are exactly the first 256 flags; parsing returns just that |
| Segments.Coalesce | src/transport/udp.rs:474-529 | Buffers within 65535 bytes and 64 segments that re-chunk into exactly the datagrams |
| Segments.ChunksOfJoined | src/transport/udp_io.rs:241-244 | Splitting at the segment size restores the datagram boundaries |
| Segments.RoundIsSegmented | src/transport/udp.rs:478-492 | For every set of unacknowledged packets only the final encoded datagram is short |
| Segments.SendRound | src/transport/udp.rs:474-529 | A round on the wire, split at the segment size by the receiver, decodes to exactly the unacknowledged packets in order |
| Segments.DataWire | src/transport/udp.rs:483-492 | The encoding of a DATA packet has the header plus its slice and decodes to it |
| Segments.MaxSegments | src/transport/udp_io.rs:15-22 | The largest segment count that fits both limits |
| Blocks.RunExtends | src/runtime/data.rs:129-210 | Over any interleaving of writes and commits the block only grows by appends and is frozen once ready |
| Blocks.RunSound | src/runtime/control.rs:399-409 | The running hash is that of the written prefix; ready means fully written with a matching checksum |
| Blocks.ContentIsAppended | src/runtime/data.rs:129-144 | The written prefix is exactly the accepted payloads in order |
| Blocks.RamBlock.WriteLocal | src/runtime/data.rs:129-144 | Appends exactly when lease, generation, state, position and sizes allow it, and otherwise changes nothing |
| Blocks.RamBlock.WriteDirect | src/runtime/data.rs:183-210 | Appends exactly when admitted and the stream is complete and intact; otherwise nothing but bytes past the written end changes |
| Blocks.RamBlock.FinishUdp | src/runtime/udp.rs:676-694 | Appends a finished session exactly when it still fits |
| Blocks.RamBlock.CommitBlock | src/runtime/control.rs:399-409 | Becomes ready exactly when complete with the expected digest |
| Migration.CopiesSurvive | src/memory/migration.rs:22-141 | However calls fail, are lost or run late, the recorded owner has a committed copy of the recorded generation with the original bytes, and all committed copies agree |
| Migration.DropIsSafe | src/memory/migration.rs:111-141 | The source is dropped only after its compare-and-set was accepted and publication confirmed, when another node is recorded and holds a committed copy |
| Migration.AcceptedIsNeverFreed | src/memory/migration.rs:92-110 | A destination whose compare-and-set was accepted is never freed by its migration |
| Migration.NextKeeps | src/memory/migration.rs:12-141 | Every step of every migration keeps the invariant |
| Migration.RunKeeps | src/memory/migration.rs:12-141 | The invariant holds in every state of every run |
| Migration.RegisterKeeps | src/runtime/control.rs:346-366 | At most one migration per generation is accepted, and the source copy is then still the recorded one |
| Migration.RegisterExactly | src/runtime/control.rs:346-366 | In every state of every run the leader accepts a migration if and only if it still records the generation the migration started from; then it records the next generation with the destination as owner, and otherwise what it had |
| Migration.UndisturbedMigrates | src/memory/migration.rs:12-141 | From every state of every run, a new migration to a node without a copy, in pieces of any size, goes through when nothing disturbs it: it finishes, the leader records the destination, which holds the original committed and published, the source copy is gone and no other copy is touched |
| Migration.FirstMigrates | src/memory/migration.rs:12-141 | In particular for every original, owner and destination |
| Migration.FailedIsUndone | src/memory/migration.rs:92-105 | A migration that fails while it copies leaves record and copies as they were before it |
| Migration.CommitKeeps | src/runtime/control.rs:399-409 | A copy that becomes ready holds the original bytes |
| Migration.FreeKeeps | src/memory/migration.rs:92-105 | Freeing a failed destination never removes the recorded or a still needed copy |
| Migration.DropKeeps | src/memory/migration.rs:130-132 | Dropping the source takes nothing another migration relies on |
| Migration.ReportChangesNothing | src/memory/local_ram.rs:82-95 | Late or repeated inventory reports never move the leader's record |
| Residency.ResidencyTable.RegisterBlock | src/memory/residency.rs:10-30 | No other entry changes. The first report is recorded; a freed entry stays; a newer generation replaces and an older one is ignored; within a generation freed wins, and otherwise the later report with the longer lease, unless it would make a ready block one in writing |
| Residency.ResidencyTable.LoseNode | src/memory/residency.rs:31-38 | Exactly the node's blocks become lost |
| Residency.ResidencyTable.CompareAndSet | src/runtime/control.rs:346-366 | Answers Ok exactly when generation, token and state match; it records the handle if the entry was not freed and otherwise changes nothing |
| Residency.PublishAfterFree | src/memory/residency.rs:10-30 | A block reported, freed, and then published by a migration: the answer is Ok and the entry is still the freed one |
| Residency.FoldIsJoin | src/memory/residency.rs:10-30 | Reports of one generation fold to a join: freed absorbs, ready beats writing, the longest lease wins |
| Residency.FoldIsHandle | src/memory/residency.rs:10-30 | Reports of one owner and token fold to exactly the handle with the joined state and lease, unless one says freed |
| Residency.OrderIrrelevant | src/memory/residency.rs:10-30 | Order and repetition of reports do not matter for what readers see, nor, with one owner and no freed report, for the whole handle |
| Residency.NeverBackNeverRevived | src/memory/residency.rs:10-38 | Recorded generations never decrease and a freed entry is never revived |
| Accounting.CountersAreExact | src/memory/allocator.rs:27-74 | Under every interleaving the counter is the bytes of all live reservations and job totals together never exceed it |
| Accounting.NextKeeps | src/memory/allocator.rs:27-74 | Every atomic step keeps all counters exact; none wraps |
| Accounting.RamAccounting.ReserveBytes | src/memory/allocator.rs:28-46 | A reservation nobody interrupts is granted exactly when it fits, and adds exactly its bytes |
| Accounting.RamAccounting.LoadOwned | src/memory/allocator.rs:29-31 | The load of the counter is one step of the interleaved model |
| Accounting.RamAccounting.CheckBudget | src/memory/allocator.rs:32-35 | The load of the budget is another: the attempt goes on exactly when its bytes fit |
| Accounting.RamAccounting.CompareAndSwap | src/memory/allocator.rs:29-35 | The swap is a third: it adds exactly when nobody changed the counter, never beyond the budget read, and otherwise starts over |
| Accounting.RamAccounting.UncountBytes | src/memory/allocator.rs:66-69 | Dropping first takes the bytes off the job |
| Accounting.RamAccounting.GiveBackBytes | src/memory/allocator.rs:70-72 | and then off the global counter |
| Accounting.Uninterrupted | src/memory/allocator.rs:28-46 | The three steps taken one after the other come to a single check and update |
| Accounting.RamAccounting.DropBytes | src/memory/allocator.rs:65-74 | Dropping gives back exactly the reserved bytes, for the job and globally |
| Accounting.HeadroomLeft | src/runtime/control.rs:308-318 | A granted reservation leaves the headroom if and only if what happened since the check took no more than the slack it saw |
| Accounting.RoomShrinks | src/memory/allocator.rs:27-74 | The room shrinks by exactly what reservations and budget changes take |
| Accounting.WithinBudgetRead | src/memory/allocator.rs:29-35 | A reservation that succeeds stays within the budget it read; it exceeds the budget of the moment if and only if that was lowered below the new total meanwhile |
| Accounting.BudgetCanBeExceeded | src/memory/allocator.rs:29-35 | A run in which a budget lowered between check and swap is exceeded |
| Accounting.HeadroomCanBeLost | src/runtime/control.rs:308-318 | Two allocations that both pass the headroom check use it up together |

## Left out

- Failures inside `execute` and `reverse` other than a group refused by the budget check: an exception in the middle of a group, after some of its buffers were replaced.
- Ledger.RamStore.Offload: never raises; the graph runtime uses the store as the map it refines, failures of store operations are in `TensorStore` and `Optimizer`.
- Ledger.RamStore.Free: never raises, for the same reason.
- Weights as store handles of the graph runtime: groups read them through the operators; their handles and replacement are in the optimizer model.
- Containers of several tensors per value, dtypes and non-differentiable integer outputs: one exact number per value, one combined buffer per BatchNorm.
- Priorities, metrics, prefetch and lease renewal in the tensor store: they do not affect contents.
- Tensor handles used after they were freed: the store model holds a handle's record only while it is in the table.
- The request loop of a UDP read and the server's limit on read sessions; the payload is sent by the sender modelled for writes.
- Sender handshake and FIN timing: the protocol model lets a sender start, resend and give up at any time; no bound on START datagrams is claimed.
- A write that fails may still have been applied, since a lost COMPLETE and a late ERROR look alike; only success is conclusive.
- UdpProtocol.Marked: marks a NACK's received packets wherever they are, where the code stays within the current window; this only makes the soundness claim stronger.
- Migration: leader change, node loss, lease expiry and a user's free during the run.
- RAM block reads, staging reservations and the choice of allocation target: each is one lookup or one reservation, whose accounting is modelled.
- Sockets, TCP framing, scheduling, discovery, election, placement and planning.
