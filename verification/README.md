# OrbitKV verified

A Dafny model of the parts of OrbitKV that own memory, count it, or decide whether evidence about it is genuine. Each part
is modelled as the code runs it: code guarded by mutexes or atomics is a state machine whose actions are single critical
sections or single atomic operations, for any number of threads; code that loops over data is a method with that loop; an
object whose fields change is a class. The main results are statements about every run or every input.

| part | files |
|---|---|
| Saves of the cache client: prepare, submit, cancel, publish, unregister, close | `SaveLifecycle`, `SaveSafety`, `SaveEffects`, `SaveRuns`, `SaveTheorems`, `SaveBatches`, `SaveProgress`, `BatchMerge` |
| The engine-local restore worker and its result cells | `RestoreWorker`, `RestorePass`, `RestoreCell`, `RestoreDelivery` |
| Registered transfer memory | `MemoryBooks`, `RegisteredMemory`, `MemoryMachine`, `MemorySteps`, `MemoryRuns` |
| Copy-descriptor codec, log acceptor, shape check | `Base64`, `CopyCodec`, `CopyGeometry`, `LogAcceptor`, `LogCollector`, `ShapeCheck` |
| Trace sealing | `DriverTraceSeal`, `SpanTraceSeal` |
| The two-host lease and drain protocol | `HostLease` |
| Closed-loop admission and interval measure | `SustainedWindow`, `IntervalSweep`, `CudaSubmission` |

`Wrappers` holds `Option` and `Result`. `dafny verify dfyconfig.toml` covers the whole project.

How the concurrent parts are read. `SaveLifecycle`, `RestoreWorker`, `RestoreDelivery`, `MemoryMachine`,
`DriverTraceSeal`, `SpanTraceSeal` and `HostLease` each define a `State`, an `Action` and a relation `Next`; a run is a
sequence of states joined by `Next`. In `SaveLifecycle` and `MemoryMachine` a thread's place in the code says which mutexes
it holds, and `Step` takes and releases them accordingly. A `PendingSave` is a heap object that its map, its handle and the
running threads refer to, and dropping it is an action. A submit locks its payloads one by one, looks at all of them, and
then takes them one by one; that it takes all or none is proved over the steps. `Ledger` records who claimed each payload
and what each submitted batch came to. In `MemoryBooks` each region has a serial number so that its whole history can be
stated; `MemoryMachine` tests a call's regions once under the engine's mutex and then works on them one at a time, and that
the tests still hold at each step is proved. In `RestoreDelivery` each result cell is the sequence of operations on it.

Three properties hold only under a condition, and the condition is proved exact. `covered_ns` starts its sweep at zero, so
an interval that begins below zero loses its negative part: `IntervalSweep.MeasuresUnionIff`. Merging saves concatenates
ids and hashes separately, so a (block, hash) pair can be torn apart: `BatchMerge.PairsKeptExactly` says that under a name
pairs stay together, and none is lost, if and only if no layer gives hashes after the earlier layers of that name gave more
ids than hashes, nor ids after they gave more hashes; `BatchMerge.UnpairedLayersShift` shows a hash moving to another
block. What `run_window` returns passes every check of `validate` exactly when it admitted a request and its clock moved:
`SustainedWindow.RunWindow`.

## Model

| member | source | states |
|---|---|---|
| SaveRuns.NextKeeps | python/src/client.rs:1378-1645 | every action of every thread keeps the invariant: lock ownership, references, one claimant per payload, receipts that match their claim, live workers, exact budget |
| SaveTheorems.RunKeeps | python/src/client.rs:1378-1645 | the invariant holds in every state of every run from the start |
| SaveTheorems.QuietAtUnregister | python/src/client.rs:1099-1134 | whenever the Unregister call or the session close is issued, every admitted save of that scope has its receipt |
| SaveTheorems.ReceiptInScope | python/src/client.rs:426-447 | after the drain loop no save of the scope is prepared or in flight, in the state itself |
| SaveTheorems.NoAdmission | python/src/client.rs:1436-1484 | a step taken while a client retires admits none of its saves |
| SaveTheorems.RetirementFreezes | python/src/client.rs:529-545 | over any stretch of a run in which one thread retires a client, that client's admitted saves only shrink |
| SaveTheorems.PendingIsReachable | python/src/client.rs:457-479 | a save that is prepared or in flight is in its client's map and its worker is the one registered now under its key |
| SaveRuns.ChargingOk | python/src/client.rs:1436-1453 | when a save is charged, its worker is the one registered at that moment under its key |
| SaveTheorems.FateIsFinal | python/src/client.rs:85-96 | over any stretch of a run the claimant of a payload and a written receipt never change, and a cancelled or retired payload is never published |
| SaveTheorems.OneClaim | python/src/client.rs:1529-1637 | a save is taken by at most one batch, at one position |
| SaveTheorems.ReceiptTellsTruth | python/src/client.rs:1488-1645 | a receipt reports a publish result if and only if the payload was given to a publish thread |
| SaveTheorems.BatchSharesReceipt | python/src/client.rs:1547-1563 | all saves of a batch get one and the same receipt |
| SaveBatches.SubmitAllOrNothing | python/src/client.rs:1529-1637 | over any run: a submit that began and has left its critical section either took nothing and changed nothing, some payload being gone, or took every payload of the batch in order, and goes on to publish if and only if all targets agree |
| SaveBatches.BatchForGood | python/src/client.rs:1599-1637 | from then on each of its saves stays claimed by that batch, the merged request stays, and every receipt written is the batch's |
| SaveTheorems.RunGrows | python/src/client.rs:62-149 | over any stretch of a run targets, requests, claims, batches and receipts only grow, and operation numbers are not reused |
| SaveTheorems.BudgetExact | python/src/client.rs:30-32 | usage equals the number and byte total of live charged saves, at most 1024 and 32 MiB, zero when there are none |
| SaveEffects.UsageFreed | python/src/client.rs:141-149 | dropping a save, charged or not, leaves the usage exact, so it never underflows |
| SaveEffects.UsageCharged | python/src/client.rs:1454-1483 | an admission within both limits leaves the usage exact |
| SaveProgress.DebtorCanMove | python/src/client.rs:1488-1645 | a thread that owes a receipt is never blocked on a mutex |
| SaveProgress.EachStepCloser | python/src/client.rs:126-139 | each step of the thread that owes a receipt writes it or strictly lowers what is left, and no other thread's step raises it |
| BatchMerge.Merge | python/src/client.rs:1565-1597 | the merge loops compute the reference merge |
| BatchMerge.Find | python/src/client.rs:1584-1588 | the first merged layer of that name, or none |
| BatchMerge.MergePreservesPairs | python/src/client.rs:1565-1597 | for paired layers the merged request names each layer once, keeps every name, and lists under each name the inputs' (block, hash) pairs in batch order |
| BatchMerge.PairsKeptExactly | python/src/client.rs:1575-1597 | for any batch and name: the k-th merged id and hash are a pair of one input layer for all k, and no input pair is lost, if and only if no layer gives hashes where the earlier ones' ids run ahead, nor ids where their hashes do |
| BatchMerge.MergedComesFrom | python/src/client.rs:1575-1597 | every merged id and hash stood at its stated place in a layer of that name, and their numbers agree |
| BatchMerge.UnpairedLayersShift | python/src/client.rs:1589-1592 | a batch whose pairs are torn apart: a hash ends up with another block |
| RestoreWorker.NextKeeps | python/src/local_restore.rs:291-498 | every caller and worker action keeps the token count, lock, stop and ownership invariants and the job accounting |
| RestoreWorker.TokensConserved | python/src/local_restore.rs:395-444 | in every state of every run the pending counter is reserved + queued + active + being completed, at most 1024 |
| RestoreWorker.SendNeverBlocks | python/src/local_restore.rs:464-498 | a caller with a grant finds room in the bounded channel and its receiver alive |
| RestoreWorker.DrainedMeansDone | python/src/local_restore.rs:431-444 | after `wait_drained`, until `local` is released, nothing is outstanding and every accepted restore has its result |
| RestoreWorker.OwnersOutlive | python/src/local_restore.rs:356-369 | the executor and tensors go only when nothing is reserved, queued, active or completing and every accepted restore has its terminal result |
| RestoreWorker.OwnersGoneForGood | python/src/local_restore.rs:446-462 | once stopping, no restore is accepted and no result changes |
| RestoreWorker.ExecutorPresent | python/src/local_restore.rs:510-546 | while a restore is active the executor and tensors are there |
| RestoreWorker.ResultIsFinal | python/src/local_restore.rs:307-343 | over any stretch of a run a stored result stays as it is |
| RestoreWorker.StoredOnce | python/src/local_restore.rs:320-335 | no job's result is stored twice in a run, though the store overwrites whatever is there |
| RestoreWorker.SwapRemoves | python/src/local_restore.rs:315 | swap_remove takes out exactly one element and leaves those before it in place |
| RestorePass.Pass | python/src/local_restore.rs:307-343 | one pass advances every active job exactly once; finished jobs are stored with their outcome, the rest stay, none is lost; the worker thread reaches the resulting state by its own steps |
| RestoreDelivery.DeliveredExactly | python/src/local_restore.rs:102-136 | in every run of worker and cells a poll or wait delivers a terminal response if and only if it is the first after the worker stored the result, and delivers that result |
| RestoreDelivery.DeliveredOnce | python/src/local_restore.rs:205-237 | at most one terminal response is delivered per restore |
| RestoreDelivery.EnqueuedTellsTruth | python/src/local_restore.rs:156-181 | what `wait_enqueued` answers in any state of a run: before the result is stored whether the records were marked; then, until someone takes it, whether the restore succeeded or its message; then that it is gone |
| RestoreDelivery.NextKeeps | python/src/local_restore.rs:291-343 | every step of the worker, its reports and the observers keeps one completion per cell, the stored one, exactly for jobs with a result |
| RestoreCell.NoEarlyDelivery | python/src/local_restore.rs:205-237 | nothing terminal is delivered before completion |
| RestoreCell.FinishedStays | python/src/local_restore.rs:144-203 | a finished cell never becomes pending again |
| RestoreCell.Truncate | python/src/local_restore.rs:183-203 | a retained message is the longest prefix of at most 1024 bytes that ends at a character boundary |
| RestoreCell.CutOnce | python/src/local_restore.rs:189-193 | that prefix is unique and cutting again changes nothing |
| RestoreCell.LocalRestore.MarkEnqueued | python/src/local_restore.rs:145-154 | marks a pending cell, leaves a finished one alone |
| RestoreCell.LocalRestore.RetainUnproven | python/src/local_restore.rs:183-203 | keeps the cut message in a pending cell, leaves a finished one alone |
| RestoreCell.LocalRestore.TakeResult | python/src/local_restore.rs:111-136 | pending stays, ready is handed over and consumed, consumed is refused |
| RestoreCell.LocalRestore.Poll | python/src/local_restore.rs:205-222 | a retained pending cell answers with its message, otherwise as a take |
| RestoreCell.LocalRestore.Wait | python/src/local_restore.rs:224-236 | a take |
| MemorySteps.NextKeeps | python/src/mooncake.rs:207-264 | every step of every registering, unregistering, closing, dropping or transferring call, interleaved one region at a time, keeps the books, the mutexes and what each call relies on |
| MemoryRuns.ChecksStillHold | python/src/mooncake.rs:447-483 | in every run, whatever other calls did since the one check under the mutex: the next region to insert fits under a vacant key, and the next region taken out is there and unregistered |
| MemoryRuns.TransfersStayInside | python/src/mooncake.rs:513-565 | in every run, while a transfer is under way its engine is not retiring and each slice lies in one registered region |
| MemoryRuns.SafeThroughout | python/src/mooncake.rs:416-484 | in every state of every run of such calls each engine's regions are pairwise disjoint, nonempty, within the address space and of one kind, and the budget equals the live admissions within both limits |
| MemoryRuns.OwnedThroughout | python/src/mooncake.rs:465-511 | in every run of such calls a region whose native registration was attempted and not confirmed unregistered is still in a live map or on the retained list |
| MemoryRuns.ForgottenOnce | python/src/mooncake.rs:486-499 | no region is successfully unregistered twice in a run |
| MemoryBooks.OneHolder | python/src/mooncake.rs:27-52 | every admission has one holder and every held region one admission |
| MemoryBooks.NeverLost | python/src/mooncake.rs:583-612 | attempted and not unregistered means still owned, with a status that says so |
| RegisteredMemory.CheckParsed | python/src/mooncake.rs:421-438 | accepts exactly the calls whose regions are nonzero, nonempty, without wrap or NUL, and pairwise disjoint |
| RegisteredMemory.CheckFits | python/src/mooncake.rs:447-464 | accepts exactly the calls whose regions share no byte with the map and are of its kind; no bound wraps |
| RegisteredMemory.StillFits | python/src/mooncake.rs:465-483 | regions checked together still fit one after another, so each goes into a vacant key |
| RegisteredMemory.Process.Acquire | python/src/mooncake.rs:30-43 | admits exactly within 1024 regions and 2^40 bytes, and charges the budget |
| RegisteredMemory.Process.Abandon | python/src/mooncake.rs:46-52 | every admission of an abandoned call is returned, nothing else changes |
| RegisteredMemory.Process.RegisterRegions | python/src/mooncake.rs:416-484 | a refused call changes no engine; otherwise the regions before the first native refusal are registered, the refused one stays attempted and the engine retires |
| RegisteredMemory.Process.UnregisterRegion | python/src/mooncake.rs:486-499 | asks the native library only for a region not yet unregistered |
| RegisteredMemory.Process.UnregisterMemory | python/src/mooncake.rs:207-248 | refused without effect for null, repeated, unknown or owned addresses; otherwise all leave the map, or all stay and the engine retires |
| RegisteredMemory.Process.CloseRegions | python/src/mooncake.rs:501-511 | retires the engine and succeeds exactly if the source drained and every region was given up |
| RegisteredMemory.Process.Close | python/src/mooncake.rs:251-264 | empties the map on success, keeps every region on failure |
| RegisteredMemory.Process.Transfer | python/src/mooncake.rs:513-565 | submits exactly if the engine is not retiring and each slice is nonempty, does not wrap and lies in one registered region |
| RegisteredMemory.Process.DropEngine | python/src/mooncake.rs:583-612 | a dropped engine releases its regions or leaves them all on the retained list; an already retiring one is not retried |
| ShapeCheck.ValidateShape | benches/transfer/raw_copy_shapes.py:42-81 | accepts a record if and only if some list of sizes has exactly its count, sum, zeros, minimum, maximum and histogram |
| ShapeCheck.ShapeIsExact | benches/transfer/raw_copy_shapes.py:42-81 | the checks hold if and only if such a list exists |
| ShapeCheck.SoundShape | benches/transfer/raw_copy_shapes.py:64-81 | checks that pass give a list |
| ShapeCheck.CompleteShape | benches/transfer/raw_copy_shapes.py:42-81 | a list passes the checks |
| ShapeCheck.Fill | benches/transfer/raw_copy_shapes.py:72-81 | any total between the bucket bounds is the sum of sizes within them |
| ShapeCheck.TakeExtremes | benches/transfer/raw_copy_shapes.py:63-71 | the loop removes the extremes from the histogram, or fails exactly when a bucket runs out |
| ShapeCheck.TotalBounds | benches/transfer/raw_copy_shapes.py:72-81 | the loop computes the least and greatest total of the remaining buckets |
| Base64.RoundTrip | benches/transfer/local_restore_shapes.py:66-68 | decoding inverts encoding on every byte string |
| Base64.CanonicalText | benches/transfer/local_restore_shapes.py:66-68 | text equal to the re-encoding of its decoding is the canonical text of exactly one byte string |
| CopyCodec.DecodeInteger | benches/transfer/local_restore_shapes.py:34-48 | the digit loop computes the reference reader, errors included |
| CopyCodec.IntegerExact | benches/transfer/local_restore_shapes.py:34-48 | a prefix is read as a value if and only if it is that u64 value's canonical LEB128 form |
| CopyCodec.ColumnExact | benches/transfer/local_restore_shapes.py:72-84 | a column is read as a list of cells if and only if the bytes are its canonical run-length form |
| CopyCodec.DecodeColumn | benches/transfer/local_restore_shapes.py:72-84 | the run loop fills exactly one column and no other cell |
| CopyCodec.DecodeTable | benches/transfer/local_restore_shapes.py:69-86 | the loops compute the reference table reader |
| CopyCodec.TableExact | benches/transfer/local_restore_shapes.py:69-86 | bytes are read as a table if and only if they are its canonical bytes |
| CopyCodec.TableSize | benches/transfer/local_restore_shapes.py:63-68 | every canonical encoding fits the rows x 15 x 11 guard and its base64 bound |
| CopyCodec.FrameExact | benches/transfer/local_restore_shapes.py:51-91 | a frame is accepted as a table if and only if it is that table's canonical frame |
| CopyCodec.FrameInjective | benches/transfer/local_restore_shapes.py:51-91 | no two tables share a frame |
| CopyCodec.DecodeCopies | benches/transfer/local_restore_shapes.py:51-91 | the decoder is the reference reader, hence accepts exactly canonical frames |
| CopyGeometry.CopyStaysInside | benches/transfer/local_restore_shapes.py:124-140 | an accepted copy lies inside its registered destination and its granted source span, without wrap |
| CopyGeometry.Geometry | benches/transfer/local_restore_shapes.py:94-153 | accepts exactly the batches whose copies are well placed, agree on allocation bounds and have the declared shape |
| CopyGeometry.Scan | benches/transfer/local_restore_shapes.py:98-146 | the loop computes sizes, histogram and the allocation ledger, or stops at the first bad copy |
| CopyGeometry.NoteAllExact | benches/transfer/local_restore_shapes.py:157-179 | the part's `setdefault` loop succeeds if and only if its copies agree with each other and with all earlier ones |
| CopyGeometry.SortedApart | benches/transfer/local_restore_shapes.py:180-182 | the sorted-neighbour test holds if and only if all destination ranges are pairwise disjoint |
| CopyGeometry.PartBooksExact | benches/transfer/local_restore_shapes.py:156-182 | a part is accepted if and only if its copies are consistent and its destinations share no byte |
| CopyGeometry.PartGeometry | benches/transfer/local_restore_shapes.py:156-182 | the two loops compute that decision and the updated books |
| LogAcceptor.TraceExact | benches/transfer/local_restore_shapes.py:185-305 | the state machine accepts one trace's records if and only if they are one or more segments open, batches, part, complete with contiguous numbers, matching counts, consistent copies and reserved records within the limit |
| LogAcceptor.PartAdmitted | benches/transfer/local_restore_shapes.py:263-279 | the part record's check is the grammar's condition on it |
| LogAcceptor.CompleteAdmitted | benches/transfer/local_restore_shapes.py:280-298 | the complete record's check is the grammar's condition on it |
| LogCollector.Collect | benches/transfer/local_restore_shapes.py:185-310 | a log is accepted if and only if its projection on every (pid, trace) is in the grammar and some batch is present |
| LogCollector.CheckpointBudget | benches/transfer/local_restore_shapes.py:280-298 | at every complete record of an accepted log, reserved is twice the descriptors its trace declared so far plus its parts so far, within the limit of its first record |
| DriverTraceSeal.NextKeeps | benches/transfer/native/cuda_driver_trace.cpp:44-147 | every atomic operation of every call and of the sealer keeps the counter, slot and seal invariants |
| DriverTraceSeal.SealSound | benches/transfer/native/cuda_driver_trace.cpp:105-147 | a footer that says complete counts exactly the calls admitted before the seal, each once, in a slot of its own holding its finished event, whose EXIT agreed with its ENTER and did not precede it |
| DriverTraceSeal.NoneAfterSeal | benches/transfer/native/cuda_driver_trace.cpp:52-57 | no call that enters after the seal is admitted |
| DriverTraceSeal.SealFinal | benches/transfer/native/cuda_driver_trace.cpp:44-93 | after a complete footer no call takes or changes a slot |
| DriverTraceSeal.OneHolder | benches/transfer/native/cuda_driver_trace.cpp:58-67 | no two calls hold one slot |
| DriverTraceSeal.ScanStaysComplete | benches/transfer/native/cuda_driver_trace.cpp:126-139 | a trace that was clean when its sealer looked is not rejected by the scan |
| SpanTraceSeal.NextKeeps | benches/distributed/native/tent_native_trace.cpp:89-176 | every operation of every span and of the sealer keeps the invariants while the process lives |
| SpanTraceSeal.SealSound | benches/distributed/native/tent_native_trace.cpp:118-176 | a written file counts every span ever constructed, flags overflow exactly, and holds each retained span once in its own slot |
| SpanTraceSeal.SealFinal | benches/distributed/native/tent_native_trace.cpp:91-122 | after the seal the process has ended or no span was opened and no slot changed |
| HostLease.NextKeeps | benches/distributed/rdma_owner.py:229-387 | every endpoint, owner and failure action keeps the ownership invariant |
| HostLease.PeerOutlivesReader | benches/distributed/tent_gpu.py:252-376 | in every run a peer that has not crashed gives up exported memory only after the same cell's reader stopped natively with nothing left and was reaped |
| HostLease.LeasesOutliveWork | benches/distributed/rdma_owner.py:771-780 | an owner that closed its leases finished, or admitted no child and was never quarantined, and every process it started has exited with its memory gone |
| HostLease.QuarantineIsFinal | benches/distributed/rdma_owner.py:201-231 | a quarantined owner starts nothing more and never closes its leases |
| HostLease.ReceiptLetsPeerStop | benches/distributed/rdma_profile.py:277-287 | the receipt sent for a reader that stopped natively and exited normally is accepted by its peer |
| HostLease.MoveKeepsMemory | benches/distributed/tent_gpu.py:43-57 | each endpoint step keeps the memory rules, a peer's stop only on a reaped reader's receipt |
| SustainedWindow.RunWindow | benches/serving/sustained.py:43-85 | for every clock and completion order the loop ends and its result passes the checks if and only if it admitted a request and the clock moved; the peak is the largest number in flight |
| SustainedWindow.Admit | benches/serving/sustained.py:48-70 | the admission loop keeps the books and lowers 2 x requests left + pending by at least the number submitted |
| SustainedWindow.Collect | benches/serving/sustained.py:73-77 | every finished request becomes one sample within the window |
| IntervalSweep.Union | benches/transfer/cuda_submission.py:36-42 | the sweep counts the instants of the union from -1 on, for any order, and all of the union exactly when no nonempty interval begins below -1 |
| IntervalSweep.CoveredNs | benches/distributed/tent_trace.py:19-25 | the sweep counts the instants of the union from zero on, and all of it exactly when no nonempty interval begins below zero |
| IntervalSweep.MeasuresUnionIff | benches/distributed/tent_trace.py:21 | a sweep from a floor measures the whole union if and only if no nonempty interval begins below the floor |
| IntervalSweep.FloorIsHarmlessIff | benches/distributed/tent_trace.py:21 | starting at a floor changes no measure if and only if no nonempty interval begins below it |
| IntervalSweep.ClippedCovers | benches/distributed/tent_trace.py:34-36 | clipping covers exactly the union's intersection with the window |
| IntervalSweep.StageOverlap | benches/distributed/tent_trace.py:28-43 | the stage's overlap is the measure of its union inside the window, at most the window's length |
| CudaSubmission.Submission | benches/transfer/cuda_submission.py:78-121 | accepts exactly the compatible windows; driver and unattributed time are the measures of the covered and uncovered instants and add up to the wall time |
| CudaSubmission.WindowMeasure | benches/transfer/cuda_submission.py:87-121 | the calls inside a window cover the same instants as all calls do inside it |

## Left out

- Synchronous `save` and `save_diagnostic` and the close after a failed registration (python/src/client.rs:942-957, 1343-1362, 1667-1689): they neither enter nor wait on the `saves` map.
- `register_context_batch`: its final critical section is the action `Register`; that a key which already has a worker is refused is taken from the registration module, which is not part of this model.
- The generation comparison of `registered_worker` (python/src/client.rs:476) and the size arithmetic of `save_request_bytes` (python/src/client.rs:34-60): refusals before anything is owned; a save's byte cost is a parameter.
- A publish that panics parks its thread for good (python/src/client.rs:1612-1623): in the model that thread takes no further step, so its saves stay in flight and retirement waits.
- `LocalRestoreWorker::drop` as an exit path (python/src/local_restore.rs:501-508): the exit test reads `stopping` after the queue was drained, so a job sent in between is outside the shutdown argument.
- Manager grants, claims and reaping inside `advance` (python/src/local_restore.rs:510-619): what a restore comes to is chosen arbitrarily.
- Lock poisoning, eventfd and poll details, Python reference counting: atomic steps. Weak memory orderings: every interleaving is sequentially consistent.
- JSON parsing, hashing, digests, argument handling and `/proc` reading in the benches: the values are taken as parsed.
- The JSON lines a trace writes, their timestamps and the reports built from them.
- DriverTraceSeal.NextKeeps: an EXIT callback is taken to see its own call's correlation cell, and fewer than 2^63 callbacks run at once; SpanTraceSeal.NextKeeps assumes the same bound on open spans.
- HostLease.NextKeeps: the controller may use any receipt that an owner has sent it, whichever request it answered; its matching of request ids, which only restricts it further, is not modelled. The frozen contract's checks on files, environment and boot identity are refusals that change nothing.
- HostLease.PeerOutlivesReader: a peer whose process dies loses its memory with the process; nothing orders that after the reader.
- MemorySteps.NextKeeps: a region taken out of the map returns its admission at that step; the code does so after releasing the mutex, so its budget may be charged a little longer.
- SustainedWindow.RunWindow: one concurrency at a time; time to first token, end-to-end latency and the Manager gauges come from the server and are not checked here; times are reals.
- Statistics, medians, bootstrap intervals and report builders: no invariant beyond their formula.
- python/src/recovery.rs, python/src/lib.rs, website, examples, packaging and migration scripts: thin wrappers or one-shot tools.
