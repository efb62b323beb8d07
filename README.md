# pyocf volume stack and metadata IO arithmetic, in Dafny

This project models two parts of Open CAS Framework (OCF).

**The simulated volumes of the Python test harness (pyocf).**
- Every volume has a small base state. It has an opened flag, an online flag and per-direction IO counters. Every submit and forward entry point is gated on the online flag: offline, the request is refused with an IO error.
- `RamVolume` is a byte buffer filled with the poison byte `0x13` when it is created or resized.
  - Reads and writes copy between the buffer and the data buffer attached to the request, at the request's offset cursor.
  - Discard zero-fills a range.
  - Flush only completes.
- `ErrorDevice` wraps a `RamVolume` and fails chosen operations. It fails an operation when its address is a faulty sector, or when its direction's sequence counter has reached that direction's threshold. A failed operation never reaches the inner volume. It sets the `error` flag and adds one to the error tally of its direction.
- `TraceDevice` wraps a `RamVolume` and passes each operation on only when its trace predicate allows it. A refused operation is dropped without a completion.

**The chunking and error arithmetic of OCF's metadata IO (`src/metadata/metadata_io.c`).**
- An iterative asynchronous transfer of `count` pages from `page` is cut into chunks of at most `max_count` pages.
- A pool of at most 128 requests walks through the chunks, each request taking the next chunk from a shared cursor.
- The first error any chunk reports is latched and stops the walk.
- The atomic-metadata read walks a sector count in steps of one page's worth of atomic metadata.

The volumes are classes whose methods update their fields in place. The base state is a `Volume` object that each concrete volume holds as `base`, in place of inheritance. A request is an `Io` object: direction, address, length, flags, a data buffer and its offset cursor. A forward token is a `ForwardToken` that resolves to its `Io`. Completions are recorded as the sequence of codes delivered to the request or token (`ends`).

Each data-moving operation is specified by a function on contents (`Move`, `SubmitIoOutcome`, `Discard`). The fault-injection decision is specified by the function `Forwards` on a value `Gate`. The lemmas about runs of operations are stated on those functions. The metadata IO pool is a class `AsynchRequest` holding `MioRequest` objects. It is proved against value-level chunk functions (`ChunkPage`, `ChunkLen`, `NumChunks`) and the latch function `FirstError`.

`ErrorDevice` statistics are only its own per-direction counters and its own error tally. Nothing in `ErrorDevice` merges the inner volume's counters into its statistics: `get_stats` is not overridden (`tests/functional/pyocf/types/volume.py:311-312`). The model follows the code here.

## Model

| member | source | states |
|---|---|---|
| VolumeBase.Volume.constructor | tests/functional/pyocf/types/volume.py:284-297 | a new volume is online, not opened, and both counters are zero |
| VolumeBase.Volume.Open | tests/functional/pyocf/types/volume.py:219-225 | opening an opened volume returns NOT_OPEN_EXC; otherwise it returns success; the volume is opened afterwards either way |
| VolumeBase.Volume.Close | tests/functional/pyocf/types/volume.py:227-231 | afterwards the volume is not opened; an unopened volume is left as it was |
| VolumeBase.Volume.Offline | tests/functional/pyocf/types/volume.py:329-330 | clears the online flag and nothing else |
| VolumeBase.Volume.Online | tests/functional/pyocf/types/volume.py:332-333 | sets the online flag and nothing else |
| VolumeBase.Volume.ResetStats | tests/functional/pyocf/types/volume.py:314-315 | both counters become zero |
| VolumeBase.Volume.IncStats | tests/functional/pyocf/types/volume.py:317-318 | the counter of the given direction grows by one; the other is unchanged |
| IoTypes.Inc | tests/functional/pyocf/types/volume.py:317-318 | one more in direction `d`, the other direction unchanged |
| Memory.Splice | tests/functional/pyocf/types/volume.py:513 | the written window holds the source bytes; every other byte is unchanged; the length is kept |
| Memory.SpliceThenSlice | tests/functional/pyocf/types/volume.py:513 | reading back the window a copy wrote returns what was written |
| Memory.Memmove | tests/functional/pyocf/types/volume.py:513 | the destination array afterwards equals `Splice` of its old contents with the source window read before the copy, so overlapping arrays are handled |
| Memory.Fill | tests/functional/pyocf/types/volume.py:488 | the filled window holds the fill byte; every other byte is unchanged |
| Memory.Memset | tests/functional/pyocf/types/volume.py:488 | the array afterwards equals `Fill` of its old contents |
| RamVolumes.RamVolume.constructor | tests/functional/pyocf/types/volume.py:458-463 | a new volume of `size` bytes, every byte `0x13`, with a fresh base that is online, unopened and has zero counters |
| RamVolumes.RamVolume.Resize | tests/functional/pyocf/types/volume.py:473-477 | the buffer is a new one of `n` bytes, all `0x13`; nothing of the old contents is kept |
| RamVolumes.RamVolume.GetCopy | tests/functional/pyocf/types/volume.py:465-468 | a new volume with a buffer of its own, of the same size and contents |
| RamVolumes.RamVolume.GetLength | tests/functional/pyocf/types/volume.py:470-471 | the length is the buffer's length |
| RamVolumes.RamVolume.GetMaxIoSize | tests/functional/pyocf/types/volume.py:479-480 | 128 KiB, whatever the size of the volume |
| RamVolumes.Move | tests/functional/pyocf/types/volume.py:494-518 | a write copies the buffer window into the volume range and a read does the reverse; the other side and every byte outside the range are unchanged; a range that does not fit either side fails with an IO error and moves nothing |
| RamVolumes.SubmitIoOutcome | tests/functional/pyocf/types/volume.py:494-518 | an IO with the FLUSH flag moves nothing and succeeds; otherwise the cursor advances by exactly `bytes` on success and stays put on failure |
| RamVolumes.Discard | tests/functional/pyocf/types/volume.py:485-492 | exactly the bytes `[addr, addr+bytes)` become zero and the rest are unchanged, completing with success; a range outside the volume completes with NOT_SUPP and changes nothing |
| RamVolumes.WriteThenRead | tests/functional/pyocf/types/volume.py:494-518 | a write followed by a read of the same range returns the bytes written, both succeed, and each cursor advances by `bytes` |
| RamVolumes.WriteLeavesOtherRanges | tests/functional/pyocf/types/volume.py:494-518 | after a write, a read of a range that does not overlap it returns what was there before |
| RamVolumes.ScenarioContents | tests/functional/pyocf/types/volume.py:458-518 | in a poisoned 64 KiB volume, 4 KiB of pattern written at 0 read back as the pattern, and the next 4 KiB are still poison |
| RamVolumes.RamVolume.DoSubmitFlush | tests/functional/pyocf/types/volume.py:482-483 | completes with success and touches nothing else |
| RamVolumes.RamVolume.DoSubmitDiscard | tests/functional/pyocf/types/volume.py:485-492 | buffer and completion are those of `Discard` on the old contents |
| RamVolumes.RamVolume.DoSubmitIo | tests/functional/pyocf/types/volume.py:494-518 | buffer, data buffer, cursor and completion are those of `SubmitIoOutcome` on the old state |
| RamVolumes.RamVolume.DoForwardIo | tests/functional/pyocf/types/volume.py:520-537 | buffer, the token's data buffer and the token's completion are those of `Move` on the old state; no cursor moves |
| RamVolumes.RamVolume.DoForwardFlush | tests/functional/pyocf/types/volume.py:539-540 | the token completes with success |
| RamVolumes.RamVolume.DoForwardDiscard | tests/functional/pyocf/types/volume.py:542-549 | buffer and token completion are those of `Discard` |
| RamVolumes.RamVolume.SubmitIo | tests/functional/pyocf/types/volume.py:344-349 | online: the IO's direction is counted once and the IO is carried out; offline: it completes with an IO error, and counters, cursor and both buffers are unchanged |
| RamVolumes.RamVolume.SubmitFlush | tests/functional/pyocf/types/volume.py:338-342 | completes with success when online and with an IO error when offline; never counted |
| RamVolumes.RamVolume.SubmitDiscard | tests/functional/pyocf/types/volume.py:351-355 | online: a discard; offline: an IO error with the buffer unchanged; never counted |
| RamVolumes.RamVolume.ForwardIo | tests/functional/pyocf/types/volume.py:360-365 | online: the direction is counted once and the copy is made; offline: an IO error on the token, with counters and buffers unchanged |
| RamVolumes.RamVolume.ForwardFlush | tests/functional/pyocf/types/volume.py:367-371 | the token completes with success when online and with an IO error when offline |
| RamVolumes.RamVolume.ForwardDiscard | tests/functional/pyocf/types/volume.py:373-377 | online: a discard; offline: an IO error with the buffer unchanged |
| RamVolumes.PatternScenario | tests/functional/pyocf/types/volume.py:494-518 | through the class and its entry points, 4 KiB written to a fresh volume and read back at the same address give back the pattern |
| ErrorInjection.AfterCounts | tests/functional/pyocf/types/volume.py:598-611 | after a run of evaluations, each direction's counter has grown by the number of evaluations in that direction while armed; nothing else changes; nothing changes while disarmed |
| ErrorInjection.DecisionAt | tests/functional/pyocf/types/volume.py:598-611 | the j-th evaluation of a run is forwarded iff the gate is disarmed, or the address is not faulty and the threshold is negative or above the counter value at that point (both directions of the iff) |
| ErrorInjection.ThresholdFirstFailure | tests/functional/pyocf/types/volume.py:598-611 | from a fresh armed device with threshold `t >= 0`, an evaluation on a non-faulty sector is forwarded iff fewer than `t` evaluations in its direction came before it |
| ErrorInjection.ErrorDevice.ShouldForwardIo | tests/functional/pyocf/types/volume.py:598-611 | the decision is `Forwards` on the old gate; when armed the direction's counter grows by one whatever the decision, and when disarmed nothing changes |
| ErrorInjection.ErrorDevice.constructor | tests/functional/pyocf/types/volume.py:567-583 | a device with the given sectors, thresholds, data-only switch and arming, zero counters, no error, zero tallies; the inner volume's counters are reset too |
| ErrorInjection.ErrorDevice.SetMapping | tests/functional/pyocf/types/volume.py:585-586 | replaces the faulty sectors; the rest of the gate is unchanged |
| ErrorInjection.ErrorDevice.Open | tests/functional/pyocf/types/volume.py:588-592 | the inner volume is opened first; if that fails its code is returned and this device is left as it was; otherwise this device is opened as a plain volume is |
| ErrorInjection.ErrorDevice.Close | tests/functional/pyocf/types/volume.py:690-692 | both this device and the inner volume end up closed |
| ErrorInjection.ErrorDevice.CompleteSubmitWithError | tests/functional/pyocf/types/volume.py:613-617 | sets `error`, adds exactly one to the tally of the IO's direction, and completes the IO with an IO error |
| ErrorInjection.ErrorDevice.CompleteForwardWithError | tests/functional/pyocf/types/volume.py:637-641 | sets `error`, adds exactly one to the tally of the given direction, and completes the token with an IO error |
| ErrorInjection.ErrorDevice.DoSubmitIo | tests/functional/pyocf/types/volume.py:619-623 | the gate advances; a forwarded IO has exactly the inner volume's effect and records no error; a rejected one records one error, completes with an IO error and leaves the buffers and the cursor alone |
| ErrorInjection.ErrorDevice.DoSubmitFlush | tests/functional/pyocf/types/volume.py:625-629 | with `data_only` the gate is neither consulted nor advanced and the flush succeeds; otherwise as for an IO |
| ErrorInjection.ErrorDevice.DoSubmitDiscard | tests/functional/pyocf/types/volume.py:631-635 | with `data_only` the gate is neither consulted nor advanced and the discard reaches the inner volume; otherwise forwarded or failed by the gate |
| ErrorInjection.ErrorDevice.DoForwardIo | tests/functional/pyocf/types/volume.py:643-647 | the gate advances in the forwarded direction; a forwarded request has exactly the inner volume's effect; a rejected one records one error and leaves both buffers alone |
| ErrorInjection.ErrorDevice.DoForwardFlush | tests/functional/pyocf/types/volume.py:649-653 | the gate is evaluated as a read at address 0 unless `data_only`; the token's completion is `ForwardFlushEnd` |
| ErrorInjection.ErrorDevice.DoForwardDiscard | tests/functional/pyocf/types/volume.py:655-659 | the gate is evaluated as a read at `addr` unless `data_only`; the token's completion is `ForwardDiscardEnd` of the inner volume's answer; a forwarded discard is the inner volume's; a rejected one records one read error and leaves the volume alone |
| ErrorInjection.ErrorDevice.SubmitIo | tests/functional/pyocf/types/volume.py:344-349 | online: counted once, then handled as `DoSubmitIo`; offline: an IO error, with the gate, tallies, counters, cursor and buffers unchanged |
| ErrorInjection.ErrorDevice.SubmitFlush | tests/functional/pyocf/types/volume.py:338-342 | online: handled as `DoSubmitFlush`; offline: an IO error, with the gate and tallies unchanged |
| ErrorInjection.ErrorDevice.SubmitDiscard | tests/functional/pyocf/types/volume.py:351-355 | online: handled as `DoSubmitDiscard`; offline: an IO error with nothing else changed |
| ErrorInjection.ErrorDevice.ForwardIo | tests/functional/pyocf/types/volume.py:360-365 | online: counted once, then handled as `DoForwardIo`; offline: an IO error with nothing else changed |
| ErrorInjection.ErrorDevice.ForwardFlush | tests/functional/pyocf/types/volume.py:367-371 | online: handled as `DoForwardFlush`; offline: an IO error with the gate and tallies unchanged |
| ErrorInjection.ErrorDevice.ForwardDiscard | tests/functional/pyocf/types/volume.py:373-377 | online: handled as `DoForwardDiscard`; offline: an IO error with nothing else changed |
| ErrorInjection.ErrorDevice.Arm | tests/functional/pyocf/types/volume.py:661-662 | arms the gate; counters, thresholds, sectors and the error flag are kept |
| ErrorInjection.ErrorDevice.Disarm | tests/functional/pyocf/types/volume.py:664-665 | disarms the gate; counters, thresholds, sectors and the error flag are kept |
| ErrorInjection.ErrorDevice.ErrorTriggered | tests/functional/pyocf/types/volume.py:667-668 | the error flag |
| ErrorInjection.ErrorDevice.ResetStats | tests/functional/pyocf/types/volume.py:670-673 | the inner volume's counters, this device's counters and its error tallies become zero |
| ErrorInjection.ErrorDevice.GetLength | tests/functional/pyocf/types/volume.py:675-676 | the inner volume's length |
| ErrorInjection.ErrorDevice.GetMaxIoSize | tests/functional/pyocf/types/volume.py:678-679 | the inner volume's maximum IO size |
| ErrorInjection.ErrorDevice.GetCopy | tests/functional/pyocf/types/volume.py:687-688 | a fresh copy of the inner volume's contents |
| ErrorInjection.ForwardFlushEndAsWritten | tests/functional/pyocf/types/volume.py:649-653 | as written, a forwarded flush is completed iff `data_only` or the gate forwards it, and then with success |
| ErrorInjection.ForwardFlushRejectionLost | tests/functional/pyocf/types/volume.py:649-653 | as written, a forwarded flush to an armed device with sector 0 faulty is never completed |
| ErrorInjection.ForwardFlushEnd | tests/functional/pyocf/types/volume.py:649-653 | corrected: a forwarded flush always completes, with success iff `data_only` or the gate forwards it, and otherwise with an IO error |
| ErrorInjection.ForwardFlushEndAgrees | tests/functional/pyocf/types/volume.py:649-653 | the corrected completion equals the as-written one wherever the code completes at all, and is an IO error where it does not |
| ErrorInjection.ForwardDiscardEndAsWritten | tests/functional/pyocf/types/volume.py:655-659 | as written, a forwarded discard is completed iff `data_only` or the gate (a read at `addr`) forwards it, and then with the inner volume's answer |
| ErrorInjection.ForwardDiscardRejectionLost | tests/functional/pyocf/types/volume.py:655-659 | as written, a forwarded discard of a faulty sector on an armed device is never completed, whatever the inner volume would answer |
| ErrorInjection.ForwardDiscardEnd | tests/functional/pyocf/types/volume.py:655-659 | corrected: a forwarded discard always completes, with the inner volume's answer when forwarded and an IO error otherwise |
| ErrorInjection.ForwardDiscardEndAgrees | tests/functional/pyocf/types/volume.py:655-659 | the corrected completion equals the as-written one wherever the code completes at all, and is an IO error where it does not |
| Tracing.Admits | tests/functional/pyocf/types/volume.py:716-722 | with no predicate every operation passes; with one, an operation passes iff the predicate returns true |
| Tracing.DropKindAdmitsOthers | tests/functional/pyocf/types/volume.py:716-722 | a predicate dropping one kind admits an operation iff it is of another kind |
| Tracing.DropDiscardScenario | tests/functional/pyocf/types/volume.py:748-758 | with a trace that drops discards, a submitted discard leaves the volume all poison and gets no completion, while a flush completes with success |
| Tracing.TraceDevice.constructor | tests/functional/pyocf/types/volume.py:701-704 | a device over `vol` with the given predicate and a fresh online, unopened base; the inner volume's counters are not touched |
| Tracing.TraceDevice.Open | tests/functional/pyocf/types/volume.py:706-710 | the inner volume is opened first; its failure is returned and this device left as it was; otherwise this device is opened |
| Tracing.TraceDevice.Close | tests/functional/pyocf/types/volume.py:712-714 | both this device and the inner volume end up closed |
| Tracing.TraceDevice.DoSubmitIo | tests/functional/pyocf/types/volume.py:724-734 | an admitted IO has exactly the inner volume's effect; a refused one changes nothing and gets no completion |
| Tracing.TraceDevice.DoSubmitFlush | tests/functional/pyocf/types/volume.py:736-746 | an admitted flush completes with success; a refused one gets no completion |
| Tracing.TraceDevice.DoSubmitDiscard | tests/functional/pyocf/types/volume.py:748-758 | an admitted discard is the inner volume's; a refused one changes nothing and gets no completion |
| Tracing.TraceDevice.DoForwardIo | tests/functional/pyocf/types/volume.py:760-771 | traced with the forwarded range and the original IO's flags; admitted: the inner volume's copy; refused: nothing changes and no completion |
| Tracing.TraceDevice.DoForwardFlush | tests/functional/pyocf/types/volume.py:773-784 | traced as a write of 0 bytes at 0; admitted: success; refused: no completion |
| Tracing.TraceDevice.DoForwardDiscard | tests/functional/pyocf/types/volume.py:786-797 | traced as a write over the discarded range; admitted: the inner volume's discard; refused: nothing changes and no completion |
| Tracing.TraceDevice.SubmitIo | tests/functional/pyocf/types/volume.py:344-349 | online: counted once whatever the trace decides, then handled as `DoSubmitIo`; offline: an IO error with nothing else changed |
| Tracing.TraceDevice.SubmitFlush | tests/functional/pyocf/types/volume.py:338-342 | an IO error when offline; otherwise success iff admitted, and no completion when refused |
| Tracing.TraceDevice.SubmitDiscard | tests/functional/pyocf/types/volume.py:351-355 | online: as `DoSubmitDiscard`; offline: an IO error with the buffer unchanged |
| Tracing.TraceDevice.ForwardIo | tests/functional/pyocf/types/volume.py:360-365 | online: counted once, then as `DoForwardIo`; offline: an IO error with nothing else changed |
| Tracing.TraceDevice.ForwardFlush | tests/functional/pyocf/types/volume.py:367-371 | an IO error when offline; otherwise success iff admitted, and no completion when refused |
| Tracing.TraceDevice.ForwardDiscard | tests/functional/pyocf/types/volume.py:373-377 | online: as `DoForwardDiscard`; offline: an IO error with the buffer unchanged |
| Tracing.TraceDevice.GetLength | tests/functional/pyocf/types/volume.py:799-800 | the inner volume's length |
| Tracing.TraceDevice.GetMaxIoSize | tests/functional/pyocf/types/volume.py:802-803 | the inner volume's maximum IO size |
| Tracing.TraceDevice.GetCopy | tests/functional/pyocf/types/volume.py:811-812 | a fresh copy of the inner volume's contents |
| MetadataIo.MaxPage | src/metadata/metadata_io.c:311-319 | the chunk size is one of the two limits and within both: whole pages of one volume IO, and bits of the lock-status map; it is positive iff both limits are |
| MetadataIo.ChunkIndexValid | src/metadata/metadata_io.c:334 | a chunk index is below the rounded-up chunk count iff the chunk starts inside the transfer |
| MetadataIo.ChunkLen | src/metadata/metadata_io.c:340-341 | every chunk is non-empty, at most `max_count` pages and ends inside the transfer; it is full or it is the last |
| MetadataIo.ChunksContiguous | src/metadata/metadata_io.c:340-341 | every chunk but the last is full, and the next chunk starts where it ends |
| MetadataIo.ChunksDisjoint | src/metadata/metadata_io.c:340-341 | a chunk ends before any later chunk begins |
| MetadataIo.ChunksCoverFrom | src/metadata/metadata_io.c:340-341 | the chunks from any index on list exactly the pages from that chunk's start to the end of the transfer, in order |
| MetadataIo.ChunksCover | src/metadata/metadata_io.c:321-343 | all chunks together list exactly `[page, page+count)`, in order, each page once |
| MetadataIo.ChunkFitsIo | src/metadata/metadata_io.c:311-319 | with the chunk size of `metadata_io_max_page`, every chunk fits in one IO to the cache volume |
| MetadataIo.ReqCount | src/metadata/metadata_io.c:387-389 | the pool has at most 128 requests and no more than there are chunks; it is non-empty iff `count > 0` |
| MetadataIo.PoolBuffersFit | src/metadata/metadata_io.c:431-436 | request `i`'s buffer holds its first chunk and every chunk it can be handed later |
| MetadataIo.Latch | src/metadata/metadata_io.c:283-284 | a stored error is kept; with none stored, the new code is stored |
| MetadataIo.FirstErrorZero | src/metadata/metadata_io.c:283-284 | the latched error is zero iff every completion succeeded |
| MetadataIo.FirstErrorIsFirst | src/metadata/metadata_io.c:283-284 | the latched error is the code of the first failing completion |
| MetadataIo.LatchSticks | src/metadata/metadata_io.c:283-284 | once an error is latched, later completions never change it |
| MetadataIo.AsynchRequest.constructor | src/metadata/metadata_io.c:401-408 | no error, the cursor before the first chunk, an empty pool |
| MetadataIo.AsynchRequest.Advance | src/metadata/metadata_io.c:321-343 | with an error latched nothing moves and the request is ended; otherwise the cursor moves on by one, and the request takes the chunk under it, or is emptied and ended when the chunks are exhausted |
| MetadataIo.AsynchRequest.Start | src/metadata/metadata_io.c:345-360 | the request advances and is submitted iff it got a chunk |
| MetadataIo.AsynchRequest.End | src/metadata/metadata_io.c:275-298 | the IO's code is latched, the request advances, and it is resubmitted iff it got a chunk and no error is latched |
| MetadataIo.IAsynch | src/metadata/metadata_io.c:379-460 | an empty transfer allocates nothing; otherwise `ReqCount` distinct fresh requests, request `i` with a `ChunkLen(i)`-page buffer carrying chunk `i`, and the cursor on the last chunk handed out |
| MetadataIo.PoolViewStep | src/metadata/metadata_io.c:362-374 | one completion keeps the pool's view: the oldest chunk is served, and its request either rejoins the queue with the next chunk or leaves |
| MetadataIo.ServeOldest | src/metadata/metadata_io.c:362-374 | the oldest request completes as `End` says; it goes to the back of the queue iff it is resubmitted |
| MetadataIo.ServeStep | src/metadata/metadata_io.c:362-374 | serving the oldest request keeps the pool invariant and serves the next chunk in order |
| MetadataIo.RunIAsynch | src/metadata/metadata_io.c:379-460 | an empty transfer never completes; otherwise chunks are served in order without gaps or repeats, the completion code is the first failure's, and a zero code means every chunk was served |
| MetadataIo.StepsTile | src/metadata/metadata_io.c:76-122 | the planned steps of an atomic read cover every sector once, in order |
| MetadataIo.StepsBounded | src/metadata/metadata_io.c:102-122 | every step is at most one page of atomic metadata, and only the lone step of an empty read is empty |
| MetadataIo.AtomicReadContext.constructor | src/metadata/metadata_io.c:127-174 | all sectors remain, the offset is 0, and the step size is `PAGE_SIZE / OCF_ATOMIC_METADATA_SIZE` |
| MetadataIo.AtomicReadContext.Step | src/metadata/metadata_io.c:102-122 | the step reads `min(step size, remaining)` sectors, at the byte address and length the read is issued with |
| MetadataIo.AtomicReadContext.StepEnd | src/metadata/metadata_io.c:76-100 | an error completes at once with that error and consumes nothing; success drains the step, moves `curr_offset` up and `count` down by the same amount, and completes with 0 exactly when nothing remains |
| MetadataIo.ReadIAtomic | src/metadata/metadata_io.c:127-174 | the drained ranges are the planned steps up to the first failing one; the completion is that step's error, or 0 when every step succeeded |

## Left out

- The foreign-function bridge of `get_ops`, `get_props`, `get_io_ops`, `_io_set_data` and `_io_get_data` is not modelled. The engine's IO structures become the `Io` and `ForwardToken` classes, and the `_end` / `forward_end` callbacks become the recorded `ends` sequence.
- The volume registries (`_instances_`, `_uuid_`), uuids and the `handle` field are not modelled. They are process-global bookkeeping outside the volume's behaviour.
- `new_io`, `sync_io`, `write_sync_4k` and `read_sync` are not modelled. They submit real IO through the OCF library and wait on it.
- `md5`, `dump` and `get_bytes` are not modelled. They are hashing and printing; `data[..]` stands in for the raw contents.
- `_submit_metadata` and `_submit_write_zeroes` are not modelled. Both raise `NotImplementedError` (tests/functional/pyocf/types/volume.py:130-132, 141-143), so such a request is never completed. `_forward_metadata` and `_forward_write_zeros` are not registered at all in the `VolumeOps` table (tests/functional/pyocf/types/volume.py:200-215).
- Completion codes are the symbolic `Status` values. The numeric `OcfErrorCode` values are defined outside these files.
- Decorators wrap a `RamVolume` only. Stacking one decorator on another needs dynamic dispatch over volume kinds, which this model does not have.
- Tracing.Admits: the trace predicate is a pure function of the operation's description. The source also passes it the device itself, and a predicate may have side effects, for example appending to a list. The model keeps neither.
- RamVolumes.Move: the source copies with raw pointers, and an out-of-range copy is undefined behaviour rather than an exception. The model sends such a request down the `except` branch: an IO error for reads and writes, NOT_SUPP for discards.
- ErrorInjection.ErrorDevice.constructor: `error_seq_no` is a record with both directions. A dictionary missing a direction, which would raise in the source, cannot be expressed. Passing `NoThreshold` models both the omitted argument and the empty dictionary, which also falls back to the default.
- MetadataIo.RunIAsynch: completions are delivered one at a time in submission order, after every request has been started. The source may complete requests in any order, concurrently, and while the start loop is still running. The atomic counters `req_remaining` and `req_active` that detect the last completion are therefore not modelled.
- MetadataIo.RunIAsynch: an empty transfer returns without ever calling the completion handler. This is what `metadata_io_i_asynch` does for `count == 0`, and the model reports it as no completion.
- In `metadata_io.c`, queue pushes, page locking (`ocf_mio_async_lock`/`unlock` and the lock error at line 259), `env_mpool` and `ctx_data` allocation, data seeks and the fill/drain callbacks are not modelled. Allocation failures (`-OCF_ERR_NO_MEM`) are not modelled either. The model keeps only the chunk and error arithmetic, sequentially.
- MetadataIo.MaxPage: the volume's maximum IO size and the size of `alock_status` are parameters. `OCF_ATOMIC_METADATA_SIZE` and the sector count of the atomic read are parameters too. Their definitions lie outside these files.
- The `uint32_t` / `uint64_t` widths of the C counters are not modelled. The arithmetic is on unbounded naturals, so a wrap-around of `curr * max_count` is outside the model.
- `tests/functional/tests/conftest.py` is not part of this model. It is test-fixture plumbing.

## Findings

| source | as written | input that shows it | evidently intended | confidence | as-written member | corrected member |
|---|---|---|---|---|---|---|
| tests/functional/pyocf/types/volume.py:649-653 | when the gate rejects a forwarded flush, the rejection path passes `rw`, which is not defined in the method. This raises `NameError` after the gate has advanced but before the token is ended or the error is counted, so the token never completes | an armed `ErrorDevice` with `error_sectors={0}` and `data_only=False` receiving a forwarded flush | complete the token with an IO error and count the error in the direction the gate was evaluated in (read) | not executed | ErrorInjection.ForwardFlushRejectionLost | ErrorInjection.ForwardFlushEnd |
| tests/functional/pyocf/types/volume.py:655-659 | the same undefined `rw` on the rejection path of a forwarded discard: the token never completes and nothing reaches the inner volume | an armed `ErrorDevice` with `error_sectors={a}` and `data_only=False` receiving a forwarded discard at address `a` | complete the token with an IO error and count the error as a read | not executed | ErrorInjection.ForwardDiscardRejectionLost | ErrorInjection.ForwardDiscardEnd |
