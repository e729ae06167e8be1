# Triton batching data path, modelled in Dafny

This project models how the inference server moves the bytes of a batch, and proves that they end up where they
belong. The core is `src/core/backend_context.cc`: the input collector, which gathers the inputs of all requests of a
batch into one tensor per input name, and the responder, which cuts every output tensor into the slices of the
requests. Three smaller parts are modelled beside it: the generated ensemble schedules, the trace summary and the
warmup data.

## How the model is built

* **Memory** (`Memory.dfy`, `Layout.dfy`, `Arithmetic.dfy`). Memory is a list of separately allocated blocks of bytes, a
  pointer is a block and an offset, and the CUDA stream is a first-in first-out list of copies that have been issued and
  have not landed. `want` says for every byte what it is to hold in the end; `None` means that nothing is promised for it,
  because a copy failed and the request was failed with it. Every copy that is issued writes only wanted bytes, so that
  it does not matter which of two copies lands first.
* **Device** (`Device.dfy`, `Kernel.dfy`). The class whose fields are the memory, the stream, the mark of the event, and
  whether the program has ended by using a response that is no longer there. Whether a copy, a task, a launch or an
  allocation is refused, what the pinned pool has room for, the order in which the threads of the gather kernel store,
  and how far the stream has got at any moment are nondeterministic. `risky` is a set of requests: something done for
  requests may be refused only if one of them is risky, so that what is proved for every set says which refusals can
  cost which responses. `roomy` says that the pinned pool always has room. A block that is given back (`Release`) has any
  bytes from then on. On a `hostile` machine copies go wrong wherever they can: the stream lands nothing before it is
  waited for, a copy that may be refused is, and a block given back holds no byte it held before. What is promised is
  proved for every machine; of what is excepted, the hostile one shows that it has to be.
* **Runs** (`Runs.dfy`). Which inputs come to share a pending run is known from the batch: `Planned` walks through the
  inputs as the loop does, and `PinnedFlushes` and `KernelFlushes` are the runs that the call flushes.
* **Collector** (`GatherBooks.dfy`, `Collector.dfy`, `Segments.dfy`, `AsyncCopy.dfy`, `Gather.dfy`). The class
  `BackendInputCollector` has the fields of the C++ class, and three ghost fields: `want`, the pinned flushes there have
  been, and the books, a ledger of who still owes which byte of which tensor: a pending run, a deferred second copy, or a
  flush in the hands of the workers. `Balanced` is the invariant: every byte of every tensor is right once the stream has
  drained, or somebody owes it. `Losses` says what becomes of the responses. The class is proved method by method;
  `GatherBatch` runs a whole batch through it.
* **Responder** (`ScatterBooks.dfy`, `Handouts.dfy`, `Responder.dfy`, `Scatter.dfy`). The same for `BackendResponder`.
  Its books also say which response buffers get other bytes than their slices, as the pinned buffer they are copied from
  has been given back (`spoilt`). `Handouts.dfy` is about the outputs that wait in pinned buffers until `Finalize`, and
  about what becomes of their responses (`Given`, `Tracked`). `ScatterBatch` runs all output tensors of a batch through
  the class, and `RoundTrip.dfy` puts both sides together.
* **Batch inputs** (`Shapes.dfy`, `BatchInputs.dfy`, `Ragged.dfy`). Element counts, accumulated counts, and the ragged
  index together with the tensor it belongs to.
* **Ensembles** (`Schedules.dfy`, `Ensembles.dfy`). Schedules as dataflow programs, and the generated ones.
* **Traces** (`TraceSummary.dfy`) and **warmup** (`Warmup.dfy`).

## What turned out not to hold

* A flush handed to the workers does not always complete. The countdown starts at min(n, W) for n inputs and W
  workers, while there are ceil(n / ceil(n / W)) tasks. `Segments.CountBounds` says exactly when the two agree: n > 0,
  and n <= W or (W - 1) * ceil(n / W) < n. `Segments.FiveOnFour` has counterexamples. Every `ProcessTensor` flushes once
  more at its end, even if nothing is pending, and such an empty flush never completes (`Gather.UnstagedSticks`).
  `Gather.GatherBatch` says of a batch that `Finalize` returns if all of its flushes complete and nothing may be refused
  for them, and does not if one of them never completes and the pool has room for it; `Gather.StagedReturns` is the case
  in which every input is staged.
* The gather kernel narrows every size and every offset to `int`, and counts words in an `int`. `Kernel.KernelExact` says
  that launches gather, whatever the bytes, the alignment and the order of the threads, exactly if every buffer that has
  bytes is at most 2^31 - 512 bytes long and starts below 2^31; `Kernel.FarOffset` has three buffers the last of which
  is stored in front of the tensor. The size of the whole run does not matter (`Kernel.ThreeGibibytes`). The code has no
  such check, so that `Gather.Bindable` asks for it, for the runs that are long enough to be launched and no others.
* `SendWithStatus` dereferences the response that it is given, and some callers do not look whether it is still there:
  an input that does not fit, or whose own copy is refused, fails its response even if that has been sent before.
  `Gather.UsedTwice` has two batches that end so. If nothing may be refused, `Gather.GatherBatch` ends so if and only if
  some request has an input that does not fit and had been sent before, or has two of them; for any set of risky
  requests `Gather.MayReuse` is an upper bound. The responder reads outputs of responses that have been released: in
  `Finalize`, if a copy for another output of the response has failed, and after a refused block copy, which fails all
  responses of its run. `Handouts.Given` says for a list of deferred outputs when that happens: if a response was gone
  before, or a copy is refused with another output of the same response still to come. `Scatter.ScatterBatch` ends so
  only if (`MayEnd`) a risky request has a staged output whose tensor is in device memory, or, with `copy_on_stream`, a
  staged output and asks for two outputs or more; and it does so for certain on a hostile machine with room if
  (`MustEnd`) it has an output of the first kind, or, with `copy_on_stream`, one that waits and may be refused its copy,
  with a second one behind it. `Scatter.EndedBatch` is such a batch.
* With `copy_on_stream`, `Finalize` of the responder puts the copies out of the pinned buffers on the stream and then
  destroys these buffers, before anybody has waited (`src/core/backend_context.cc:372-399`,
  `src/core/memory.cc:160-183`): whoever gets a buffer next may overwrite it with the copy still in flight. The slices
  that can be lost that way are exactly those with bytes that go through a pinned buffer under `copy_on_stream`
  (`Scatter.Endangered`): `Scatter.ScatterBatch` delivers all others on every machine, and on a hostile one with room no
  byte of them is right, unless the copy is refused. Without `copy_on_stream` an output only waits on its way from
  device to host, and that second copy is done at once (`Handouts.AsyncWaits`). `Scatter.OverwrittenBatch` is a batch
  whose response is sent as good with not one right byte. The collector keeps its pinned buffers until it is
  destroyed itself, and has no such failure: `Gather.GatherBatch` is proved for hostile machines too.
* `ProcessBatchInput` has the same failure: the host buffer for a value that belongs in device memory is a local, freed
  on return while its copy is in flight (`src/core/backend_context.cc:740-795`). On a hostile machine that loses the
  value exactly when the buffer is in device memory (`BatchInputs.ProcessBatchInput`, `StaleValue`).
* The staging copies of a worker task are not waited for. `AsyncCopy.StagingIsSafe` says exactly when the block copy
  is right in every run nevertheless, for lists that mix host and device memory; one staged input with bytes in device
  memory is enough to make it wrong (`AsyncCopy.StaleBlock`).
* `ProcessBatchInput` drops the status of `SetElementCount` and `SetAccumulatedElementCount`: it returns success in
  host memory whatever happens, although its header promises an error (`BatchInputs.SilentFailure`). `AllThere` says
  exactly when all values are there.
* Selecting traces in one pass misses children whose id is smaller than that of their parent
  (`TraceSummary.ChildFirst`). `TraceSummary.OnePassExact` says exactly when the pass finds the least closed set: every
  id in it has a marked root of its own, or a record whose parent is in the set and comes before it in the sorted list.
  Ids given out in increasing order are enough (`TraceSummary.OnePassIsLeast`).
* The warmup buffers are large enough exactly when no synthetic input has 2^63 bytes or more as an unsigned number;
  a negative dimension other than -1 passes the checks and is not (`Warmup.SampleSafe`, `Warmup.NegativeUnsafe`).

## What callers have to see to

The preconditions of the methods say what the code relies on: every request has the named input; the launches of the
gather kernel are narrow; with workers, inputs that are staged come from host memory and `copy_on_stream` is off; the
slices of an output lie within its tensor; wildcard dimensions can be taken from the input; the batch input with a
leading zero has room for at least one word; `Finalize` is called once, and the wait that it asks for comes before the
collector or responder is destroyed. Two more are simplifications of the model, listed at the end: a block is gathered
only once per collector, and the stream is idle when a collector or responder is constructed.

## Model

| member | source | states |
|---|---|---|
| Memory.IssueSound | src/core/cuda_utils.cc:84-127 | a copy that writes wanted bytes, done at once or put on the stream, keeps every copy in flight harmless and is itself there once the stream drains |
| Memory.ApplyMonotone | src/core/cuda_utils.cc:84-127 | host writes of wanted bytes and copies in flight commute up to wanted bytes |
| Memory.LandSound | src/core/backend_context.cc:861-869 | however far the stream has got, what it ends with is the same |
| Memory.ReplaceSound | src/core/memory.cc:160-183 | a block may be overwritten while copies in flight read it: what they bring is then what is wanted of the blocks they go to, and all others end as they would have |
| Layout.AcceptedIsPrefix | src/core/backend_context.cc:943-957 | the inputs accepted by the bounds check are exactly a prefix of the batch, for any sizes |
| Devices.Device.CopyBuffer | src/core/cuda_utils.cc:84-127 | host to host at once unless copies go on the stream, everything else on the stream; refused only for device memory and only for the sake of a risky request, and then nothing changes |
| Devices.Device.Allocate | src/core/memory.cc:116-160 | a buffer of the size asked for: pinned, or ordinary memory if it is not empty and the pool may have no room |
| Devices.Device.Release | src/core/memory.cc:160-183 | a block given back may have any bytes from then on, and on a hostile machine none that it had; no other block changes |
| Devices.Device.RunGatherKernel | src/core/kernel.cu:67-77 | a launch puts on the stream what the stores of all its lanes come to in some order, for some alignment of the addresses, or is refused without effect |
| Devices.LaunchedGathers | src/core/kernel.cu:32-77 | on narrow buffers that is the concatenation, whatever the order and the alignment |
| Segments.CountBounds | src/core/backend_context.cc:1180-1186 | ceil(n / ceil(n / W)) <= min(n, W), with equality exactly when the flush completes |
| Segments.FiveOnFour | src/core/backend_context.cc:1180-1186 | five inputs on four workers make three segments and a counter of four; no inputs make none |
| Segments.SegmentsCover | src/core/backend_context.cc:1187-1245 | the segments are consecutive, disjoint and cover the pending list once |
| Segments.SplitPending | src/core/backend_context.cc:1184-1245 | the stride loop ends, and yields those segments with the prefix sum offset of their first entry |
| AsyncCopy.StepInv | src/core/backend_context.cc:1198-1230 | every step of any task, in any order, keeps the invariant of counter, staged bytes and block copies |
| AsyncCopy.ZeroMeansStaged | src/core/backend_context.cc:1218-1228 | the counter is zero only when every segment has been staged, none dropped and none running |
| AsyncCopy.CompletionSafety | src/core/backend_context.cc:1171-1246 | in every interleaving: at most one completion, the block copy only after every segment has been staged, and then it carries the inputs side by side if staging is over when its calls return or the block copy goes through the same stream |
| AsyncCopy.RunsEnd | src/core/backend_context.cc:1198-1230 | no interleaving goes on for ever |
| AsyncCopy.CompletionCount | src/core/backend_context.cc:1180-1230 | when nothing is left to do, exactly one completion has been posted if no AddTask failed and the flush completes, and none otherwise |
| AsyncCopy.LastIsConcat | src/core/backend_context.cc:1218-1228 | the task about to issue the block copy finds the concatenation in the pinned buffer |
| AsyncCopy.StagingIsSafe | src/core/backend_context.cc:1205-1227 | for any mixture of host and device inputs: the block copy is right in all runs if and only if no input with bytes is staged through the stream, or the block copy goes through it too, or the flush never completes |
| AsyncCopy.StaleBlock | src/core/backend_context.cc:1205-1227 | a run in which a host block copy overtakes the staging copy of one device input, whatever the other inputs are |
| Runs.FlattenConcat | src/core/backend_context.cc:1335-1352 | buffer by buffer or input by input, the gathered bytes are the same |
| Runs.LaunchArguments | src/core/backend_context.cc:1316-1352 | the three host arrays have as many entries as buffers were counted; offsets are the prefix sums of sizes |
| Runs.FlushedOnce | src/core/backend_context.cc:652-688 | the runs flushed by a call, one after the other, are the inputs that are staged, or launched, and fit: each of them once, in order |
| Runs.PlannedAll | src/core/backend_context.cc:984-1001 | if every input is staged and all fit, there is one pending run, and it holds all of them |
| Kernel.StoresAre | src/core/kernel.cu:45-60 | a launch stores exactly the bytes below the narrowed size of each buffer, word by word or byte by byte |
| Kernel.KernelGathers | src/core/kernel.cu:32-61 | in whatever order the threads store, a launch on narrow buffers ends, lays them side by side and touches nothing else |
| Kernel.KernelExact | src/core/kernel.cu:36-61 | launches on buffers of given sizes end and gather for all bytes, alignments and orders if and only if every size and offset of a buffer with bytes survives the narrowing and no lane counts past the greatest int |
| Kernel.FarOffset | src/core/kernel.cu:41-44 | a buffer at offset 2^31 is not gathered |
| Kernel.ThreeGibibytes | src/core/kernel.cu:41-44 | a run of more than 2^31 bytes whose sizes and offsets are narrow is gathered |
| GatherBooks.CopyKeeps | src/core/backend_context.cc:1044-1065 | an issued copy of wanted bytes keeps the ledger balanced |
| GatherBooks.QueueKeeps | src/core/backend_context.cc:990-1036 | an input that extends a pending run keeps every entry at its place and the two pending runs disjoint, with both open and with inputs of no bytes |
| GatherBooks.AdvanceKeeps | src/core/backend_context.cc:652-680 | after each request the bytes written, in pending runs, deferred or with workers account for everything up to the offset |
| GatherBooks.BeginKeeps | src/core/backend_context.cc:630-650 | a new tensor may be begun with copies of earlier ones in flight |
| GatherBooks.ForgetRun | src/core/backend_context.cc:1151-1162 | when a run has failed, only the bytes of its own requests are given up |
| GatherBooks.StagedReady | src/core/backend_context.cc:1139-1145 | the second copy may be made once the pinned buffer has its bytes and nothing in flight writes to it |
| GatherBooks.DeferredReady | src/core/backend_context.cc:899-912 | the pinned buffer of a deferred copy has exactly what the tensor is to get |
| GatherBooks.IdlePosts | src/core/backend_context.cc:885-887 | with no task left to run, as many completions have come as flushes were counted if and only if every flush completes |
| GatherBooks.SmoothCompletes | src/core/backend_context.cc:1170-1246 | if the size of every flush there has been brings its counter to zero, and nothing may be refused for them, every completion will come |
| GatherBooks.StuckBlocks | src/core/backend_context.cc:1170-1186 | if some flush that had room has a size that does not, some completion never comes |
| GatherBooks.SettledDelivers | src/core/backend_context.cc:858-896 | with nothing owed, the drained memory has the inputs of live requests side by side and the bytes after them as before; if nothing failed it is the concatenation |
| GatherBooks.ReleaseKeeps | src/core/backend_context.cc:1089-1093 | a pinned buffer that no copy in flight reads or writes, and none put off will read, may be given back, whatever is written to it then |
| Collectors.BackendInputCollector.constructor | src/core/backend_context.h:230-247 | a collector with nothing pending, deferred or in flight |
| Collectors.BackendInputCollector.Send | src/core/infer_response.cc:221-227 | the response is gone afterwards; if it was gone before, the null pointer is dereferenced |
| Collectors.BackendInputCollector.Issue | src/core/cuda_utils.cc:84-127 | CopyBuffer keeps the ledger; the bytes are there once the stream drains; what failed changed nothing |
| Collectors.BackendInputCollector.QueuePinned | src/core/backend_context.cc:990-1001 | the input joins the pending pinned run, with its bytes at its offset |
| Collectors.BackendInputCollector.QueueKernel | src/core/backend_context.cc:1019-1036 | the same for the pending kernel run, and its buffers are counted |
| Collectors.BackendInputCollector.SetFixedSizeInputTensor | src/core/backend_context.cc:931-1068 | fails exactly the inputs that do not fit, and those whose own copy is refused, and uses a null pointer exactly if such a response is gone already; queues exactly the inputs that are staged or launched, and copies the others; without CUDA copy nothing new is in flight; inside a flush it never queues |
| Collectors.BackendInputCollector.CopyRun | src/core/backend_context.cc:1095-1107 | the fallback gives the whole range of a run its bytes, except those of requests whose own copy was refused; only those are lost |
| Collectors.BackendInputCollector.FlushStaged | src/core/backend_context.cc:1108-1169 | a staged run is copied on at once, or deferred if first copies are in flight, and only if an input is in device memory or copies go on the stream |
| Collectors.BackendInputCollector.FlushWorkers | src/core/backend_context.cc:1170-1246 | one flush more is counted and marked final; its job owes the run; its completion comes only if its size allows, and does if nothing may be refused for its requests; responses are lost only with a run that holds a risky request |
| Collectors.BackendInputCollector.RunTask | src/core/backend_context.cc:1198-1230 | any step of any task keeps the ledger and what every run was seen to by; a copy put in flight is known of by the completion posted |
| Collectors.BackendInputCollector.FlushPendingPinned | src/core/backend_context.cc:1070-1261 | whichever way it takes, the pending run ends empty, its bytes are seen to, and the result tells of copies in flight and of second copies put off; responses are lost only to refusals for their own copy or for a run that they share, and with workers every flush there was room for has its job |
| Collectors.BackendInputCollector.Release | src/core/memory.cc:160-183 | buffers are given back only when no copy in flight or put off reads them, and the invariant stands |
| Collectors.BackendInputCollector.LaunchCopyKernel | src/core/backend_context.cc:1310-1419 | if the kernel is launched on a narrow run, the run has its bytes once the stream drains, in whatever order the threads store |
| Collectors.BackendInputCollector.FlushPendingCopyKernel | src/core/backend_context.cc:1263-1308 | by a launch, or input by input, the pending kernel run ends empty with its bytes seen to |
| Collectors.BackendInputCollector.Place | src/core/backend_context.cc:671-680 | the bytes of the next request are accounted for, and it joins the run that it should; only its response can be lost, if it does not fit, or to a refusal of its own |
| Collectors.BackendInputCollector.ProcessTensor | src/core/backend_context.cc:629-693 | the books have the tensor with its goal, nothing is pending, every copy in flight is known of and covered by the event; the pinned flushes made are those known from the batch; exactly the requests that overflow are failed, and others only to a refusal for themselves or in a run that they share |
| Collectors.BackendInputCollector.Synchronize | src/core/backend_context.cc:861-869 | before any pinned buffer of a deferred copy is read, its first copies have landed |
| Collectors.BackendInputCollector.FinalizeDeferred | src/core/backend_context.cc:879-884 | the second copy is made, or, if something may be refused for one of its run, the requests of that run are failed |
| Collectors.BackendInputCollector.AwaitCompletions | src/core/backend_context.cc:885-887 | the Get loop ends if and only if the completion of every counted flush will come |
| Collectors.BackendInputCollector.Finalize | src/core/backend_context.cc:858-896 | returns if and only if all flushes complete; then nothing is owed; if it returns false nothing is in flight, and the event covers everything |
| Gather.SettledGathers | src/core/backend_context.cc:629-693 | from a balanced and settled ledger: all tensors gathered, and no other block changed |
| Gather.GatherTensor | src/core/backend_context.cc:629-693 | one tensor more, over what its block held at first, and the verdict on every request so far |
| Gather.GatherBatch | src/backends/tensorrt/plan_backend.cc:2645-2855 | for all batches, routes and refusals, on hostile machines too, with all pinned buffers given back in the end: if Finalize returns, every tensor is the concatenation of the inputs of the live requests and nothing else is written; a request that fits stays live unless something may be refused for it or for one in a run that it shares; it returns if every flush of the batch completes, and not if one is stuck; a null pointer is used for certain if a response is failed twice, and only if one may be; with pinned buffers, nothing refused and room, a batch all of whose first buffers cross between host and device returns if and only if there is one worker, or a flush of its size completes; with workers, a batch with a tensor that no first buffer crosses to never returns |
| Gather.Dispose | src/core/backend_context.h:323-325 | once the copies have landed, all pinned buffers are given back with the collector, and the ledger stays balanced |
| Gather.NothingRefused | src/core/backend_context.cc:943-957 | if nothing may be refused, a response may be failed twice exactly if an input overflows whose response has been sent, or overflowed before |
| Gather.UsedTwice | src/core/backend_context.cc:943-957 | two batches that end with the use of a null pointer |
| Gather.WhatJoins | src/core/backend_context.cc:984-1036 | an input joins the pinned run exactly if pinned buffers are enabled and its first buffer is on the host for a device tensor, or the other way round; it joins the kernel run exactly if the kernel is enabled, the tensor is in device memory, and its first buffer is pinned or on the same device; either way only if it fits; how many buffers it has does not matter |
| Gather.CrossingReturns | src/core/backend_context.cc:984-1001 | told from the memory of first buffers: which batches have only flushes of the whole batch, and which have an empty one |
| Gather.ReachingLaunches | src/core/backend_context.cc:1019-1036 | if the first buffers of all inputs are pinned, or on the device of the tensor, there is one kernel run and it has the whole batch |
| Gather.StagedReturns | src/core/backend_context.cc:885-887 | with every input of every tensor staged, room in the pool and nothing refused, Finalize returns if and only if a flush of the whole batch completes |
| Gather.UnstagedSticks | src/core/backend_context.cc:682-687 | with workers and a tensor none of whose inputs is staged, Finalize never returns |
| ScatterBooks.SlotCopy | src/core/backend_context.cc:437-460 | a slice may be copied from the tensor to its response buffer at any time |
| ScatterBooks.PinCopy | src/core/backend_context.cc:526-536 | a pending run may be copied to its pinned buffer in one piece |
| ScatterBooks.HandOut | src/core/backend_context.cc:563-600 | the part of a response in a pinned buffer is its slice, once the buffer has its bytes |
| ScatterBooks.ForgetSlot | src/core/backend_context.cc:452-458 | when a copy has failed, only the buffer of the response that was sent is given up |
| ScatterBooks.SettledSupplies | src/core/backend_context.cc:329-402 | with nothing owed, the buffer of a live response holds its slice, unless it is spoilt, and then the bytes that spoilt it |
| ScatterBooks.ReleaseKeeps | src/core/backend_context.cc:399 | when a pinned buffer is given back under copies in flight, exactly the buffers they go to are spoilt, by what the pinned buffer holds from then on; everything else stands |
| Handouts.GivenJoin | src/core/backend_context.cc:345-391 | handing out one list of outputs after another is handing out both: responses lost, and the end of the program, depend on the whole list only by what was gone before and what may be refused in front of another output of the same response |
| Handouts.EndBlamed | src/core/backend_context.cc:345-391 | if handing out the deferred outputs ends the program, some risky request has a staged output from device memory, or one under copy_on_stream and a second use |
| Handouts.TwoWaiting | src/core/backend_context.cc:345-391 | two deferred outputs of one response are handed out in the order of their buffers, so that a refusal for the first is met by the second |
| Handouts.AsyncWaits | src/core/backend_context.cc:372-377 | a deferred output is copied on the stream only under copy_on_stream, and only if it is staged |
| Handouts.InFlightApart | src/core/backend_context.cc:372-377 | the copies in flight after that go to the buffers of different outputs, one each |
| Handouts.SpoiltAre | src/core/backend_context.cc:372-399 | spoilt are only deferred outputs with bytes that were copied on the stream; and on a hostile machine all of these that were not refused |
| Handouts.WrongBytes | src/core/backend_context.cc:372-399 | if no byte of the pinned buffer is what it was, no byte that a copy brings out of it is the right one |
| Responders.BackendResponder.constructor | src/core/backend_context.h:137-148 | a responder with nothing pending, deferred or in flight |
| Responders.BackendResponder.SetFixedSizeOutputBuffer | src/core/backend_context.cc:404-463 | a live response gets a buffer where the client wants it, which is filled, in flight, or pending exactly if it is staged; only this response can be lost, and only if something may be refused for it |
| Responders.BackendResponder.FlushDirect | src/core/backend_context.cc:486-522 | without a pinned buffer every pending response gets its slice out of the tensor, or is lost to a refusal of its own |
| Responders.BackendResponder.HandOutAll | src/core/backend_context.cc:563-600 | every response of a run gets its slice out of the pinned buffer, and other pinned buffers keep theirs; a response is lost only to a refusal of its own; one gone before its turn is used for certain, and none is without that; the copies in flight are those of the run |
| Responders.BackendResponder.FailAll | src/core/backend_context.cc:537-567 | when the block copy is refused all responses of the run are sent, and then their released outputs are read |
| Responders.BackendResponder.FlushPendingPinned | src/core/backend_context.cc:465-623 | the pending run ends empty; the result tells of copies in flight and of slices put off; responses are lost only to a refusal of their own, unless a refused block copy ends the program |
| Responders.BackendResponder.ProcessTensor | src/core/backend_context.cc:197-256 | the new outputs are those of the requests that asked, each with the slice after all requests before it by batch size; unless the program ends, a response is lost only to a refusal of its own |
| Responders.BackendResponder.ProcessTensorLikeInput | src/core/backend_context.cc:258-327 | the same with the shapes of an input in place of wildcards |
| Responders.BackendResponder.Synchronize | src/core/backend_context.cc:332-341 | before a pinned buffer is read, its copy has landed |
| Responders.BackendResponder.Finalize | src/core/backend_context.cc:329-402 | nothing is owed any more; if it returns false nothing is in flight, and the event covers everything; the released output of a response is read only if it was gone before the call, or a copy for it is refused with another deferred output of it to come, and for certain if it was gone or such copies are refused; spoilt are only staged outputs with bytes under copy_on_stream, and on a hostile machine all of them that wait and are not refused |
| Responders.BackendResponder.ReleaseOne | src/core/backend_context.cc:399 | the next pinned buffer is given back while copies out of it are in flight, and the books say what they bring |
| Scatter.FindSlice | src/core/backend_context.cc:466-623 | the buffer of a requested output of a live response exists, and holds the slice or is endangered |
| Scatter.SliceByRows | src/core/backend_context.cc:222-247 | with batching, the slice of a request is batch size times row bytes long, a row being the element size times all dimensions but the first, and lies after the rows of all requests before it; the first dimension of the tensor is of no account |
| Scatter.SliceWhole | src/core/backend_context.cc:229-247 | without batching (a maximum batch size of 0), every slice has the bytes of the shape of the output itself, request k's after k others |
| Scatter.SliceLike | src/core/backend_context.cc:290-316 | by the shape of an input, the slice has the bytes of the output's shape with the input's dimensions in place of -1, and of these only |
| Scatter.SlicesTouch | src/core/backend_context.cc:246-247 | slices of the same tensor lie end to end from its beginning, whatever tells their sizes |
| Scatter.StagedBetween | src/core/backend_context.cc:206-211 | an output is staged exactly if pinned buffers are enabled and it goes from device to host, or from host to device |
| Scatter.ScatterBatch | src/core/backend_context.cc:197-402 | for all batches, routes and refusals: every live response has exactly the outputs it asked for, no more of them than it asked for, each with its slice unless it is endangered; on a hostile machine with room the endangered ones are lost; the program ends only as MayEnd says, and on a hostile machine if MustEnd says so; tensors stay as they are; live are the responses not sent before, without exception if nothing may be refused, and otherwise but for those of risky requests |
| Scatter.OverwrittenNever | src/core/backend_context.cc:372-399 | a buffer in which no byte is right does not hold its slice, so that the two halves of ScatterBatch exclude each other |
| Scatter.OverwrittenBatch | src/core/backend_context.cc:372-399 | a batch of one request whose response is sent as good with not one right byte |
| Scatter.EndedBatch | src/core/backend_context.cc:345-391 | a batch of one request with two outputs that waits for both, and uses the response after a refused copy for the first |
| RoundTrip.SlicesMirror | src/core/backend_context.cc:290-323 | slices by input shape lie exactly where the inputs were gathered |
| RoundTrip.GatherThenScatter | src/core/backend_context.cc:258-402 | gathering and scattering the same buffer gives every request that asked exactly its own input, for every batch and all routes on both sides, unless it is exposed under copy_on_stream; on a hostile machine with room exposed ones do not get it, unless a copy was refused; left out are only the responses sent before, and those that something may be refused for, themselves or in a run that they share |
| Shapes.GetElementCount | src/core/model_config.cc:97-116 | the product of the dimensions, 0 for no dimension, -1 for a wildcard |
| Shapes.ProductJoin | src/core/model_config.cc:97-116 | the product of a shape is that of its parts, and 1 for no dimension |
| Shapes.NeverWildcard | src/core/model_config.cc:97-116 | fixed dimensions never multiply to the number that stands for a wildcard |
| Shapes.GetByteSize | src/core/model_config.cc:146-160 | elements times element size, -1 for a wildcard or a type without a size |
| Shapes.Resolve | src/core/backend_context.cc:293-302 | wildcards are replaced by the dimensions of the input, everything else stays |
| BatchInputs.BatchInputShape | src/core/backend_context.cc:695-725 | the number of requests, one more with a leading zero, or the greatest element count |
| BatchInputs.SetElementCount | src/core/backend_context.cc:802-828 | every word reached has its count, padding is zero, no other word changes; the status is the first error that occurs |
| BatchInputs.SetAccumulatedElementCount | src/core/backend_context.cc:830-856 | every word reached has the sum so far, padding repeats the total, through the wrap-around of size_t and int32_t |
| BatchInputs.ProcessBatchInput | src/core/backend_context.cc:727-800 | only the copy to the device can be reported as failed; on success the words the setters reached have their values, unless the copy to the device had not landed on return; on a hostile machine that is so for every value in device memory, and not one is right |
| BatchInputs.AccumulatedSums | src/core/backend_context.cc:769-782 | at every word, padding included, the accumulated buffer is the prefix sum of the count buffer, and the form with zero is the same shifted by one |
| BatchInputs.AllThere | src/core/backend_context.cc:802-856 | every request has its value if and only if all have the input and there is room, which is when the setters succeed |
| BatchInputs.FirstError | src/core/backend_context.cc:807-818 | the status of the setters is the first error: an input that is not there, unless an earlier request has no room for its value |
| BatchInputs.SilentFailure | src/core/backend_context.cc:749-782 | two calls of ProcessBatchInput that return success with a value missing |
| BatchInputs.StaleValue | src/core/backend_context.cc:740-795 | a call that returns success with a wrong value in device memory |
| BatchInputs.ShapeHasRoom | src/core/backend_context.cc:695-725 | a buffer of the size BatchInputShape asks for never meets the size error and has no padding |
| BatchInputs.RaggedAgrees | src/core/backend_context.cc:769-782 | the gathered tensor between elements acc[i] and acc[i+1] is exactly the data of request i |
| Ragged.GatherRagged | src/backends/tensorrt/plan_backend.cc:2696-2775 | tensor and index made for the same batch agree for every request not sent before, but for those that something may be refused for, themselves or in a run that they share |
| Schedules.ListedEquation | qa/common/gen_ensemble_model_utils.py:75-288 | every tensor of a schedule with one producer each is what its producer makes of the tensors it reads |
| Schedules.OrderAgrees | qa/common/gen_ensemble_model_utils.py:75-288 | whatever has been fired, in any order of ready steps, agrees with the order of the list |
| Schedules.Confluence | qa/common/gen_ensemble_model_utils.py:75-288 | every order that cannot go on has fired each step once and ends with the same tensors |
| Schedules.Progress | qa/common/gen_ensemble_model_utils.py:75-288 | an order that has not fired every step can go on |
| Ensembles.BuildIdentity | qa/common/gen_ensemble_model_utils.py:312-493 | the loops append the steps of the chain of every tensor, for all three types with and without tunnels |
| Ensembles.IdentityWellFormed | qa/common/gen_ensemble_model_utils.py:312-493 | for any number of tensors, each tensor has one producer and no step reads what is not there |
| Ensembles.IdentityShape | qa/common/gen_ensemble_model_utils.py:312-493 | one, two or three nop-like steps for each tensor, with the two ends of a tunnel around the others where reshaping is asked for |
| Ensembles.IdentityMeaning | qa/common/gen_ensemble_model_utils.py:291-493 | in every firing order, output i is input i; through tunnels its shape is the one they are made for |
| Ensembles.TunnelShape | qa/common/gen_ensemble_model_utils.py:902-910 | the product of the dimensions, [] read as [1], and an error exactly for a dimension that is not fixed |
| Ensembles.TunnelKeepsCount | qa/common/gen_ensemble_model_utils.py:897-960 | inside a tunnel the number of elements fits the shape, and both ends together give the tensor back |
| Ensembles.AddSubShape | qa/common/gen_ensemble_model_utils.py:88-288 | which models an add/sub ensemble runs in which order, and the tensors and port names of the model's step, for both platforms |
| Ensembles.AddSubMeaning | qa/common/gen_ensemble_model_utils.py:75-288 | all three add/sub schedules give what the base model gives, in every firing order |
| Ensembles.SequenceShape | qa/common/gen_ensemble_model_utils.py:516-656 | for strings every type gives the one step that runs the model on the ensemble's own tensors, and no nop; otherwise one, two or three steps, with nops before and after the model, and its port named by the platform |
| Ensembles.SequenceMeaning | qa/common/gen_ensemble_model_utils.py:496-656 | all three sequence schedules give what the base model gives in every firing order; the model takes in what the ensemble was given |
| Ensembles.SessionMeaning | qa/common/gen_ensemble_model_utils.py:496-656 | a whole sequence of requests is answered as by the base model, with the state that it keeps from request to request, whatever the order of the steps each time |
| TraceSummary.SortSorted | qa/common/trace_summary.py:127-128 | sorting by id orders the records and loses none |
| TraceSummary.SortStable | qa/common/trace_summary.py:127-128 | records of the same id keep their order |
| TraceSummary.Select | qa/common/trace_summary.py:130-168 | the loop yields the matched ids and, for each, all that its kept records say |
| TraceSummary.MarksByName | qa/common/trace_summary.py:142-145 | a timestamp marks a request exactly if the frontend's name occurs in its name |
| TraceSummary.ClosedByName | qa/common/trace_summary.py:140-154 | what it is for a set of ids to be closed, in terms of names and parents |
| TraceSummary.KeptNext | qa/common/trace_summary.py:140-156 | a root record is kept exactly if its id is matched by then, any other exactly if its parent is |
| TraceSummary.MergedJoin | qa/common/trace_summary.py:156-168 | of several records of an id the last model and the last version count, and all timestamps in their order |
| TraceSummary.MatchedSound | qa/common/trace_summary.py:140-154 | in whatever order, only ids in every set closed under roots and children are matched |
| TraceSummary.OnePassExact | qa/common/trace_summary.py:127-154 | one pass over the sorted records finds the least closed set if and only if every id in it is a marked root, or has a record whose parent is in the set and sorted before it |
| TraceSummary.OnePassIsLeast | qa/common/trace_summary.py:127-154 | if no parent has a greater id than its child, one pass over the sorted records finds the least closed set |
| TraceSummary.ChildFirst | qa/common/trace_summary.py:151-154 | a child with a smaller id than its parent is missed |
| TraceSummary.KeptMatched | qa/common/trace_summary.py:170-173 | an id has a kept record if and only if it is matched, so that nothing is ever popped |
| TraceSummary.AddSpan | qa/common/trace_summary.py:36-46 | the span grows by the difference, or an exception is raised if a timestamp is missing or out of order |
| TraceSummary.LastStampCounts | qa/common/trace_summary.py:174-176 | of timestamps with the same name the last one counts |
| TraceSummary.CallsComplete | qa/common/trace_summary.py:36-46 | no call for a trace raises an exception exactly if each span that is begun and ended has all its timestamps, in order |
| TraceSummary.CallsMeasure | qa/common/trace_summary.py:177-212 | the calls for a trace add to each span the time between its own two timestamps: QUEUE from QUEUE_START to COMPUTE_START, REQUEST from REQUEST_START to REQUEST_END, and so for all twelve |
| TraceSummary.Summarize | qa/common/trace_summary.py:170-212 | per model and version, the count is the number of answered traces, and each span the sum over them of the time between its two timestamps; an exception exactly if an answered trace has no model or version, or a span with a timestamp missing or out of order |
| TraceSummary.Conservation | qa/common/trace_summary.py:188-212 | total compute time is input, infer and output time plus that of traces without the timestamps in between; never less, and equal if and only if those took no time |
| TraceSummary.SummarizeRecords | qa/common/trace_summary.py:127-212 | from the raw records to counts and totals: the times between timestamps, over the traces of the selected ids, each once; nothing is popped on the way |
| Warmup.Measure | src/core/backend.cc:345-384 | the greatest signed size for each of the two buffers, or an error for an open dimension |
| Warmup.Prepare | src/core/backend.cc:405-495 | a request carries, for every input in order, the right buffer and length; an error exactly if an input has no data, a file that is not there or too short, or is not taken, or the request cannot be prepared |
| Warmup.GenerateWarmupData | src/core/backend.cc:331-505 | a sample for every setting whose batch size is not zero, in order, each of whose requests carries every input; an error exactly if one of these settings is not good: a dimension left open, data that is not there or too short, or a request that does not take it |
| Warmup.BytesGiven | src/core/backend.cc:411-492 | what a request holds in bytes: element count times element size out of the zero buffer, the random buffer, or a file with at least as many; zeros for random strings; the whole file for strings from a file |
| Warmup.WantedJoin | src/core/backend.cc:335-340 | settings with batch size zero are skipped, the others stay in their order |
| Warmup.MaxIsOne | src/core/backend.cc:362-384 | a synthetic buffer is no larger than one of the inputs that use it needs |
| Warmup.SampleSafe | src/core/backend.cc:345-495 | all lengths are within their buffers if and only if no synthetic input has 2^63 bytes or more as an unsigned number |
| Warmup.NonNegativeSafe | src/core/backend.cc:345-384 | dimensions that are not negative and of reasonable size are safe |
| Warmup.NegativeUnsafe | src/core/backend.cc:352-366 | a dimension of -2 passes the checks and is not safe |
| Warmup.SetCallbacks | src/core/backend.cc:220-227 | exactly the first request of a sample has the promise |
| Warmup.SamplesHaveRequests | src/core/backend.cc:335-340 | every sample has as many requests as its batch size, at least one |

## Left out

- Collectors.BackendInputCollector.ProcessTensor: a second call on the same block is not modelled, the books having one entry for each block.
- Collectors.BackendInputCollector.constructor: copies that others have put on the stream before are not modelled; the same holds for the responder.
- Collectors.BackendInputCollector.RunTask: a task's staging writes to the pinned buffer of its job, not to the block of the device memory; steps of tasks are interleaved with the main thread between two requests and between two AddTask calls, not inside a single copy.
- Collectors.BackendInputCollector.FlushWorkers: staging from device memory or with copy_on_stream is excluded by a precondition; what happens then is AsyncCopy.StagingIsSafe.
- Collectors.BackendInputCollector.LaunchCopyKernel: the upload of the three arrays to the device is not modelled, nor that it may be in flight when the launch is refused.
- Collectors.BackendInputCollector.Finalize: a device copy issued by ProcessBatchInput on the same collector is not part of what the event covers.
- Responders.BackendResponder.FailAll: what the copies out of the unfilled pinned buffer do, after released outputs have been read, is not modelled.
- Devices.Device.Allocate: running out of memory altogether is not modelled, and a block given back is not allocated again under its old number.
- Shapes.GetElementCount: products are unbounded integers; overflow of int64_t is not modelled here, but it is in Warmup.Bytes and in the sums of BatchInputs.
- BatchInputs.ProcessBatchInput: 32-bit integers only, no FP32 values; the buffer stands for what it holds once the copy to the device has landed.
- Devices.Device.RunGatherKernel: bytes that no thread stores to are taken as they are at the launch; a launch whose lanes count past the greatest int is excluded by a precondition.
- Warmup.Prepare: whether a request takes an input, and can be prepared, is a parameter.
- What a program does after it has used a response that is gone: the model goes on as if it had not, and reports it at the end.
- String outputs, output label handling and the shapes written into the responses.
- `buffer_ready_event_`, logging, metrics, NVTX, streams and events as CUDA objects: no effect on the bytes.
- `CompareOutputDims`, `GetInput`, `GetOutput`, `SetScheduler`, autofill: settled by reading them.
- The dynamic and sequence batchers, and the other backends' own copies.
- The text of config.pbtxt: schedules are modelled as data.
- Printing of the trace summary and the averages.
