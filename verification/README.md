# Verified model of the event-storage SDK core

A Dafny model of the parts of the SDK in which state, threads and sharing interact, with proofs
of what those parts promise. `dafny verify dfyconfig.toml` checks all of it.

## What is modelled

**Storing events.** Every feature owns a pending and a granted directory of batch files. A
`BatchWriter` decides by tracking consent which directory an event goes to, reuses or rotates the
active file, allocates a free millisecond name, enforces a directory quota and appends one
length-prefixed block (or two, with metadata) in a single write. A change of consent deletes the
pending files or moves them to the granted directory. Which platform calls fail during an
operation, and which files another thread removes under it, is an input (`Directories.Platform`):
every operation is determined by the files, the clock and the platform. The upload thread may also
remove any file between operations. A stored event carries the position of the storage message that
produced it, so that statements about whole runs can say which events are where.

- `Quantizer.dfy`, `Tlv.dfy`: buffer sizes; framing, writing and reading of blocks, in bytes.
- `Filenames.dfy`, `Directories.dfy`, `Purge.dfy`: names, listings, platform calls, quota.
- `FeatureEventStorage.dfy`, `BatchWriter.dfy`: deletion, migration, and the writer itself.
- `StorageMessages.dfy`: what consent entitles an event to, as a function of the message history
  alone, and the ledger that handles messages without files.
- `WriterRuns.dfy`, `ConsentSafety.dfy`, `ConsentLeaks.dfy`, `BatchBounds.dfy`,
  `DirectoryBounds.dfy`, `BatchContents.dfy`, `BatchAges.dfy`: whole runs of one writer: consent,
  limits and age of files, limits of directories, and what can be read back.
- `StorageThread.dfy`: the loop that feeds the writers of all features.

**Threads.** `Queue.dfy` takes the queue apart into lock, flag, wait and notification steps for
any number of threads, and shows that callers may think of it as atomic. `Pipeline.dfy` is the
transition system of the main, context, messaging and storage threads through `Start`, API
calls and `Stop`, for any number of sessions; `PipelineGuarantees.dfy` says what every run of it
keeps, `PipelineProgress.dfy` that `Stop` ends, and `PipelineFiles.dfy` runs the writers of all
features along with it. `Core.dfy` has the same calls and loops as methods on objects.

**Attributes.** `AttributeValues.dfy` gives the attribute API its meaning on plain values.
`CowHeap.dfy` is the graph of reference-counted nodes with its invariant, and `Attributes.dfy`
implements the C++ and the C interface over it, down to `AddRef`, `Release` and `Clone`.

**Tools.** `Tokenizer.dfy` is the REPL's command-line splitter, `PatchStamp.dfy` the crash-safe
patch protocol of the Crashpad bootstrap tool.

## Where the code and its documentation differ

The model follows the code. Each of these has a lemma that gives the case, and most have one that
says exactly when the promise holds.

- A revocation of consent that fails to delete a pending file, followed by a grant, uploads
  events the user refused (`ConsentSafety.FailedRevocationLeaks`; exactly when, for whole runs:
  `ConsentLeaks.LeaksExactlyWhenRevocationsFail`).
- A migration deletes a pending file whose name is taken in the granted directory, and reports
  success even if that file could not be deleted and stays pending
  (exactly when: `BatchWriters.GrantLosesFilesExactlyOnCollisions`,
  `BatchWriters.GrantLeavesFilesExactlyOnCollisions`).
- Names are searched forward in string order, which is not numeric order when a digit is added:
  across such a boundary an existing name can be handed out (`Filenames.RollOverExample`; exactly
  when: `Filenames.AllocationIsRightExactly`).
- "On failure, no data is written": a platform write that fails part-way leaves torn bytes in a
  file that stays active, and can hide later events from the reader
  (`Tlv.TornWriteHidesLaterWrite`; exactly when: `Tlv.LaterWritesReadableExactly`,
  `BatchContents.RunFilesReadBackExactly`).
- The counters of an active file do not see the bytes that a write left when it failed part-way:
  one such write and the file is larger than its counter says, enough of them and it exceeds its
  size limit (`BatchContents.TornWritesAddUp`, `BatchContents.TornWritesOutgrowLimit`; exactly when
  the counter is the file's size, and by how much a file can exceed its limit:
  `BatchContents.CounterIsFileSizeExactlyUntorn`, `BatchContents.FilesExceedLimitsByTornBytesOnly`).
- The counters of the active granted file are wrong after a migration that puts a pending file in
  its place while it does not exist on disk, and a file can then exceed its limits
  (`BatchBounds.UsurpedFileOverflowsInARun`; exactly when the counters are wrong:
  `BatchBounds.MigrationKeepsCountersExactlyUnlessUsurped`).
- The buffer quantiser wraps around for sizes above 2^64 - 2^14
  (`BufferQuantizer.QuantumCoversInputExactlyBelowWrap`).

The bootstrap tool accepts a checkout that somebody edited as long as the patch can be reversed in
it. Its documentation says so; `EnsureExactly` states when the tree is pinned plus patch after a
normal return, and `PatchStamp.EditedTreeIsAccepted` is such a call.

## Conventions

Clock readings, spurious wakeups, scheduling and what feature code does while a handler runs are
nondeterministic; platform results are inputs that may change between operations. Files of earlier processes have origin `Prior`.
Timestamps before the epoch count as zero, as in the code. The content of a patch stands for its
SHA-256 digest. Temporaries of the attribute code (local copies, elements of a vector being
destroyed) are the ghost multiset `temps`; where the code releases the old node of a variable
just before it overwrites the pointer, the model overwrites first, so that no variable ever
points to a freed node.

## Model

| member | source | states |
|---|---|---|
| BufferQuantizer.QuantizeBufferSize | src/datadog/impl/core/block.hpp:35-68 | up to 64 KB the least power of two from max(n, 256); above that the multiple of 16 KB in [n, n + 16 KB); zero where the rounding sum wraps around |
| BufferQuantizer.SmearRight | src/datadog/impl/core/block.hpp:40-60 | the shift-and-or cascade yields the least power of two not below its input |
| BufferQuantizer.SmearDoublesRun | src/datadog/impl/core/block.hpp:46-56 | one shift-and-or doubles a run of leading ones |
| BufferQuantizer.QuantumCoversInputExactlyBelowWrap | src/datadog/impl/core/block.hpp:26-35 | the result is at least the input exactly for inputs up to 2^64 - 2^14 |
| BufferQuantizer.QuantumIsMonotone | src/datadog/impl/core/block.hpp:35-68 | a larger request never gets a smaller buffer, as long as nothing wraps |
| Tlv.HeaderRoundTripsExactlyInRange | src/datadog/impl/core/tlv.cpp:49-78 | a header is read back as written exactly if its length is neither zero nor above 32 bits |
| Tlv.EncodeTLVBlock | src/datadog/impl/core/tlv.cpp:80-97 | writes header and whole payload at an offset and nothing else, or nothing at all if they are found not to fit; the check looks at the length truncated to 32 bits |
| Tlv.AssembleWrite | src/datadog/impl/core/storage_write.cpp:210-245 | the write buffer holds the metadata block, if any, then the event block, and nothing more |
| Tlv.WriteLayout | src/datadog/impl/core/storage_write.cpp:210-245 | byte by byte: type 1, length and metadata, if there is any, then type 0, length and event |
| Tlv.CutFileReadsWholeBlocks | src/datadog/impl/core/tlv.cpp:99-151 | a file cut anywhere yields exactly the blocks entirely before the cut, then end of file for a clean cut and an error for any other |
| Tlv.WritesReadBack | src/datadog/impl/core/feature_read.cpp:18-51 | any series of writes is read back block by block in order, then a clean end of file |
| Tlv.CleanEndMeansEncoded | src/datadog/impl/core/feature_read.cpp:18-51 | a file that is read to a clean end is byte for byte the encoding of the blocks read |
| Tlv.LaterWritesReadableExactly | src/datadog/impl/core/storage_write.cpp:245-271 | after a write that failed at any byte, everything written whole before and after is read back if and only if the failure fell between two blocks |
| Tlv.TornWriteHidesLaterWrite | src/datadog/impl/core/storage_write.cpp:245-271 | an instance in which a later successful write cannot be read |
| Tlv.BatchReader.ReadNext | src/datadog/impl/core/feature_read.cpp:18-51 | returns what the bytes at the file position say and advances past them, unless one of its at most two platform reads fails |
| Tlv.BatchReader.Drain | src/datadog/impl/core/feature_read.cpp:18-51 | repeated reading returns all blocks up to the first that cannot be read, or, exactly if a platform read fails, a prefix of them |
| Filenames.LowerBound | src/datadog/impl/core/storage_write.cpp:384-389 | the binary search finds the boundary between smaller and other names |
| Filenames.GetFilenameForNextWrite | src/datadog/impl/core/storage_write.cpp:372-424 | the first of 100 candidates that is unused or has a digit more than its predecessor, none if there is none |
| Filenames.AllocationIsRightExactly | src/datadog/impl/core/storage_write.cpp:372-424 | that is the least free name if and only if the names up to one with an extra digit are not all taken; otherwise the name handed out is in use |
| Filenames.FirstFreeIsLeast | src/datadog/impl/core/storage_write.cpp:372-424 | what a caller wants: the smallest unused name, none exactly when all are used |
| Filenames.SuccessorOrder | src/datadog/impl/core/storage_write.cpp:400-420 | consecutive timestamps are in string order exactly unless the second has an extra digit |
| Filenames.LessAtFirstDifference | src/datadog/impl/core/storage_write.cpp:372-424 | the order used is that of strings: the first difference decides, and a proper prefix is less |
| Filenames.DigitsAreDecimal | src/datadog/impl/core/storage_write.cpp:372-424 | a name is the decimal notation of its timestamp, without leading zeros |
| Filenames.SameDigitCountIsSafe | src/datadog/impl/core/storage_write.cpp:372-424 | allocation is right for every listing while all candidates have the same number of digits |
| Filenames.RollOverExample | src/datadog/impl/core/storage_write.cpp:400-420 | a listing for which a taken name is handed out |
| Directories.CacheKnownFilenames | src/datadog/impl/core/storage_write.cpp:426-459 | unless listing fails, the cached names are the sorted all-digit names of the directory, each once |
| Directories.ListingIsUnique | src/datadog/impl/core/storage_write.cpp:432-458 | a directory has exactly one such listing |
| Directories.ListingSum | src/datadog/impl/core/storage_write.cpp:470-490 | adding up the sizes along a listing gives the size of the directory |
| Purge.MeasureFiles | src/datadog/impl/core/storage_write.cpp:466-486 | sizes are recorded in parallel to the names, zero exactly for files that cannot be sized, and the total is their sum |
| Purge.PurgeDirectoryIfNeeded | src/datadog/impl/core/storage_write.cpp:461-531 | the vectors end up without exactly the deletable files of the shortest prefix that brings the recorded total within quota, or of the whole listing, and the directory loses just those files |
| Purge.ShortestSufficientPrefixIsUnique | src/datadog/impl/core/storage_write.cpp:500-531 | files, platform and quota determine that prefix |
| Purge.PurgeMeetsQuota | src/datadog/impl/core/storage_write.cpp:461-531 | after a purge the directory itself exceeds its quota by no more than the files that cannot be sized or deleted |
| Purge.OldestArePurgedFirst | src/datadog/impl/core/storage_write.cpp:500-531 | only batch files that can be deleted are, and no other such file that is left is older |
| Purge.PurgedForNeed | src/datadog/impl/core/storage_write.cpp:500-531 | no file is deleted without need: with it, all younger files and the older ones that are left, the directory would be over quota |
| Purge.PurgeDoesItsBest | src/datadog/impl/core/storage_write.cpp:500-531 | in any case the recorded total is within quota afterwards or nothing that is left can be deleted |
| Purge.WithinQuotaIsLeftAlone | src/datadog/impl/core/storage_write.cpp:488-498 | nothing is deleted from a directory within quota |
| Purge.RecordedAgainstDirSize | src/datadog/impl/core/storage_write.cpp:466-486 | the recorded total never exceeds the size of the directory, and falls short of it by no more than such files |
| Purge.SurvivorsAreListed | src/datadog/impl/core/storage_write.cpp:515-525 | the cached listing is still that of the directory after the purge |
| FeatureEventStorages.FeatureEventStorage.DeletePendingBatches | src/datadog/impl/core/storage/feature_event.cpp:91-174 | succeeds exactly if the directory can be listed and no batch file resists; the batch files before the first that resists are gone and no others |
| FeatureEventStorages.DeletionStopsAtFirstFailure | src/datadog/impl/core/storage/feature_event.cpp:91-174 | a file is gone exactly if it is a batch file and neither it nor an older one has too long a path or cannot be deleted |
| FeatureEventStorages.FeatureEventStorage.MigrateFile | src/datadog/impl/core/storage/feature_event.cpp:240-305 | whether the file is moved, dropped, left or found gone, as its name and the platform determine, or nothing changes and the migration stops |
| FeatureEventStorages.FeatureEventStorage.MigratePendingBatchesToGranted | src/datadog/impl/core/storage/feature_event.cpp:176-314 | exactly when it succeeds, and both directories afterwards, also for a migration that stops at the first blocked file |
| FeatureEventStorages.MigrationStopsAtFirstFailure | src/datadog/impl/core/storage/feature_event.cpp:176-314 | the migration gets to a batch file exactly if neither it nor an older one has too long a path in either directory or cannot be moved |
| FeatureEventStorages.MigrationMovesOrDeletes | src/datadog/impl/core/storage/feature_event.cpp:240-305 | a file it gets to is moved if its name is free, unless it has vanished, or else deleted if that is possible; all other files, and all granted ones, stay as they are |
| FeatureEventStorages.MigrationLosesExactly | src/datadog/impl/core/storage/feature_event.cpp:262-300 | the contents of a pending file survive a successful migration if and only if a file that has its name is the same or it cannot be deleted, or its name is free and it does not vanish |
| FeatureEventStorages.MigrationLeavesExactly | src/datadog/impl/core/storage/feature_event.cpp:262-300 | a successful migration leaves just the batch files whose name is taken and that cannot be deleted |
| BatchWriters.GrantLosesFilesExactlyOnCollisions | src/datadog/impl/core/storage_write.cpp:119-123 | from a given state a successful grant can lose a file that nobody else removes if and only if a granted file of its name has other contents |
| BatchWriters.GrantLeavesFilesExactlyOnCollisions | src/datadog/impl/core/storage_write.cpp:119-123 | it can leave pending batch files if and only if one has the name of a granted file |
| BatchWriters.StoredUnlessHindered | src/datadog/impl/core/storage_write.cpp:151-271 | an event within both size limits, in a configuration that allows events, is stored as the last entry of the active file if and only if the file can be opened and written and, when a new one is due, the directory can be listed, a name is left after the purge and it fits into a path; any other event changes nothing |
| BatchWriters.StoredWhenNothingFails | src/datadog/impl/core/storage_write.cpp:151-271 | where no call fails and one of a hundred names is free, it is stored |
| BatchWriters.FileIsKeptOrReplaced | src/datadog/impl/core/storage_write.cpp:326-370 | the active file is kept if and only if it is young, has had few enough events and has room; otherwise there is none or a new one, named after one of the next hundred milliseconds, with counters at zero |
| BatchAges.OldFileIsReplaced | src/datadog/impl/core/storage_write.cpp:339-343 | a file that has grown too old is never written to again, and what takes its place is not in the directory |
| BatchAges.EventsGoToYoungFiles | src/datadog/impl/core/storage_write.cpp:273-370 | in every run, whatever fails, an event changes only a file that is named after a time at most the maximum age ago, or after the present millisecond or a later one |
| BatchWriters.FlushedIsDetermined | src/datadog/impl/core/storage_write.cpp:151-271 | files, counters, clock and platform determine the outcome of an event |
| BatchWriters.ProductionConfig | src/datadog/impl/core/storage_write.hpp:30-64 | in production a single event is below the file limit, a file below the quota, and an event within the block format |
| BatchWriters.FileDetails.Reset | src/datadog/impl/core/storage_write.hpp:160-176 | the details point at the new empty file, or at none if its path is too long |
| BatchWriters.BatchWriter.SetTrackingConsent | src/datadog/impl/core/storage_write.cpp:95-129 | the whole new state and the result, for every transition and every platform |
| BatchWriters.BatchWriter.HandleWrite | src/datadog/impl/core/storage_write.cpp:131-149 | the event goes to the directory of the consent in force or of the bypass, and nothing else changes |
| BatchWriters.BatchWriter.FlushEvent | src/datadog/impl/core/storage_write.cpp:151-271 | the result, the directory and the counters, for rejected, hindered and stored events alike |
| BatchWriters.BatchWriter.PrepareFileForNextWrite | src/datadog/impl/core/storage_write.cpp:273-324 | the active file is reused within its limits, or else replaced by a new one after a purge, or cleared if there is none |
| BatchWriters.BatchWriter.WriteToFile | src/datadog/impl/core/storage_write.cpp:190-271 | counters advance exactly when the file can be opened and the whole write succeeds; otherwise at most the bytes that got through are left |
| StorageMessages.ReplayDescribes | src/datadog/impl/core/storage_write.cpp:95-149 | handling any history message by message gives the granted directory exactly the bypassing, granted, and pending-then-granted events, and the pending directory exactly the undecided ones |
| StorageMessages.PendingOnlyUnderPending | src/datadog/impl/core/storage_write.cpp:95-129 | nothing is undecided unless consent is pending |
| StorageMessages.UnchangedSince | src/datadog/impl/core/storage_write.cpp:95-129 | while no change followed an event, the consent it saw is in force |
| WriterRuns.RunStaysWithin | src/datadog/impl/core/storage_write.cpp:95-271 | in every run, whatever fails and whatever others remove, only events of the failure-aware ledger are stored, and no pending file is active unless consent is pending |
| WriterRuns.MayHoldExactly | src/datadog/impl/core/storage_write.cpp:109-129 | that ledger holds an event as granted exactly if a grant followed before any revocation succeeded |
| WriterRuns.FlushAddsAtMost | src/datadog/impl/core/storage_write.cpp:151-271 | one event stores at most itself, certainly itself if it reports success, and displaces nothing in a directory within quota |
| ConsentSafety.ConsentSafety | src/datadog/impl/core/storage_write.cpp:95-149 | if revocations could delete, an event is granted only if it bypassed, was handled under granted, or under pending followed first by granted; refused events are nowhere |
| ConsentSafety.FailedRevocationLeaks | src/datadog/impl/core/storage_write.cpp:114-123 | from every pending state with a batch file of a free name, a failed revocation and a grant upload that file |
| ConsentLeaks.GrantedExactlyWhenGrantReaches | src/datadog/impl/core/storage_write.cpp:95-149 | for every history and every set of failing revocations, some run holds a pending event as granted if and only if a grant follows it with no successful revocation between the two |
| ConsentLeaks.LeaksExactlyWhenRevocationsFail | src/datadog/impl/core/storage_write.cpp:109-123 | some run uploads an event that consent forbids exactly if the first change after it is a revocation and all revocations fail until some grant |
| ConsentSafety.PendingDirectoryIsEmptyUnlessPending | src/datadog/impl/core/storage_write.cpp:101-123 | while consent is not pending there are no pending batch files, given that changes succeed and that pending files whose name is taken can be deleted |
| ConsentSafety.StoredExactlyWhatConsentAllows | src/datadog/impl/core/storage_write.cpp:95-149 | in undisturbed runs each directory holds an event if and only if the history entitles it to |
| ConsentSafety.NextConsentIsFirstChange | src/datadog/impl/core/storage_write.cpp:95-100 | the next consent is that of the first message that actually changes it |
| BatchBounds.BatchFilesStayWithinLimits | src/datadog/impl/core/storage_write.cpp:326-370 | in every run the events of a batch file that the run has written to, and the bytes of its whole writes, stay within the limits, and the counters never fall below these |
| BatchBounds.CountersStayExact | src/datadog/impl/core/storage_write.cpp:255-271 | while only the writer touches the files, the counters are the number of events on disk and the bytes of their whole writes after every message |
| BatchContents.CounterIsFileSizeExactlyUntorn | src/datadog/impl/core/storage_write.cpp:248-271 | so the file is larger than its byte counter by the remains of failed writes, and as large if and only if there are none |
| BatchContents.FilesExceedLimitsByTornBytesOnly | src/datadog/impl/core/storage_write.cpp:326-370 | a file's size exceeds the limit by no more than those remains, and not at all in runs without writes that fail part-way |
| BatchContents.TornWritesAddUp | src/datadog/impl/core/storage_write.cpp:239-271 | any number of events, one for instance, that fail after k bytes leave the counters at zero and k bytes each in one file |
| BatchContents.TornWritesOutgrowLimit | src/datadog/impl/core/storage_write.cpp:326-370 | a run whose file exceeds the size limit that way |
| BatchBounds.MigrationKeepsCountersExactlyUnlessUsurped | src/datadog/impl/core/storage_write.cpp:119-123 | a migration, complete or not, keeps them exact if and only if no non-empty pending file takes the name of a missing active file |
| BatchBounds.UsurpedFileOverflows | src/datadog/impl/core/storage_write.cpp:345-350 | otherwise the next event can take a full file over its limit |
| BatchBounds.UsurpedFileOverflowsInARun | src/datadog/impl/core/storage_write.cpp:273-370 | a run from the start that ends with two events in a file limited to one |
| BatchBounds.RotationIsFresh | src/datadog/impl/core/storage_write.cpp:306-323 | a rotation picks a name that is not in the directory |
| DirectoryBounds.DirectoryStaysNearQuota | src/datadog/impl/core/storage_write.cpp:488-498 | in every run either directory exceeds its quota (or what it began with) by no more than one file limit, the bytes of files that rotations cannot size or delete, those torn by failed writes and those migrated to it |
| DirectoryBounds.DirectoryIsNearQuotaSinceRotation | src/datadog/impl/core/storage_write.cpp:302-323 | every rotation that purges starts this afresh: whatever the directory held and whatever failed before it, only bytes torn or migrated since then count |
| DirectoryBounds.DirectoryExceedsQuotaByAtMostOneFile | src/datadog/impl/core/storage_write.cpp:488-493 | from any rotation on that could size and delete its files: at most quota plus one file limit, until files are migrated, a write fails part-way or a rotation meets a file it cannot purge |
| DirectoryBounds.DirectoryBeginsNearQuota | src/datadog/impl/core/storage_write.cpp:488-493 | the same from the start, in a directory within quota |
| BatchContents.FileReadsBackExactly | src/datadog/impl/core/feature_read.cpp:18-51 | a batch file is read back whole, block by block in order to a clean end, if and only if every failed write in it failed between blocks |
| BatchContents.TornCleanlyExactlyBetweenBlocks | src/datadog/impl/core/storage_write.cpp:218-245 | which is before the write or after its metadata block |
| BatchContents.RunFilesReadBackExactly | src/datadog/impl/core/storage_write.cpp:245-271 | so for every file that a run has written to, which has the accounted size; while no write fails part-way all of them are untorn and read back |
| StorageThread.StorageThreadMain | src/datadog/impl/core/storage_thread.cpp:96-122 | draining a queue continues every feature's run, from its registration or the previous session on, with exactly these messages in order, while other threads remove files |
| StorageThread.HandleTrackingConsentChanged | src/datadog/impl/core/storage_thread.cpp:28-40 | every writer is told |
| StorageThread.HandleEventGenerated | src/datadog/impl/core/storage_thread.cpp:42-94 | only the writer of the event's feature acts; an unknown feature changes nothing |
| AtomicQueues.QueueObject.Push | src/datadog/impl/core/queue.hpp:67-84 | appends unless stopped |
| AtomicQueues.QueueObject.Pop | src/datadog/impl/core/queue.hpp:101-127 | takes the first item; nullopt only if stopped and empty |
| ConcurrentQueue.Conservation | src/datadog/impl/core/queue.hpp:67-127 | for any number of threads, accepted items are those popped followed by those queued, in order |
| ConcurrentQueue.ExhaustedForGood | src/datadog/impl/core/queue.hpp:101-127 | after a pop returned nullopt nothing is accepted, queued or popped again |
| ConcurrentQueue.NobodyWaitsAfterStop | src/datadog/impl/core/queue.hpp:137-151 | once a Stop has returned, no consumer waits or is about to wait |
| ConcurrentQueue.SomeoneIsAwake | src/datadog/impl/core/queue.hpp:76-83 | with a consumer waiting, there are at least as many awake threads as items |
| ConcurrentQueue.NeverStuck | src/datadog/impl/core/queue.hpp:67-151 | some thread inside an operation can go on without spurious wakeups, unless all wait on an empty queue that is not stopped |
| ConcurrentQueue.RefinesAtomicQueue | src/datadog/impl/core/queue.hpp:67-151 | every fine step is one atomic operation or invisible to callers |
| PipelineInvariant.InvHolds | src/datadog/impl/core/core.cpp:449-732 | lifetimes of queues and threads, conservation on all three queues, the context log and the writers' ledgers are kept by every step of every interleaving |
| PipelineInvariant.ProceedKeepsLifetimes | src/datadog/impl/core/core.cpp:475-691 | the order of creation, stopping, joining and release in Start and Stop |
| PipelineInvariant.ContextThreadKeepsUpdates | src/datadog/impl/core/context.cpp:94-109 | the provider's states are those its thunks produce in order |
| PipelineInvariant.MainKeepsConsent | src/datadog/impl/core/core.cpp:171-201 | registering and synchronous consent changes keep every ledger that of the history |
| PipelineGuarantees.CallsAreAccepted | src/datadog/impl/core/core.cpp:734-769 | feature code always finds live queues; writes are always accepted, thunks exactly until Stop, messages exactly until the context thread is joined |
| PipelineGuarantees.SnapshotsAreAccepted | src/datadog/impl/core/context.cpp:94-109 | no context snapshot of the context thread is rejected |
| PipelineGuarantees.WorkIsDoneBeforeRelease | src/datadog/impl/core/core.cpp:640-672 | before context queue and bus are released all accepted thunks have run and all handlers have seen all accepted messages in order |
| PipelineGuarantees.StorageIsDrainedBeforeRelease | src/datadog/impl/core/core.cpp:673-681 | before the storage queue is released every accepted message has been handled in order |
| PipelineGuarantees.NeverStuck | src/datadog/impl/core/core.cpp:611-691 | no join waits for a thread that cannot go on, and queued work can always be taken |
| PipelineProgress.StopEnds | src/datadog/impl/core/core.cpp:611-691 | in every interleaving the threads take no more steps in Stop than the work outstanding when it began needs, plus a fixed number for each call that feature code makes meanwhile |
| PipelineProgress.StopReturns | src/datadog/impl/core/core.cpp:611-691 | so without such calls Stop has returned after that many steps |
| PipelineGuarantees.ContextLogIsFaithful | src/datadog/impl/core/context.cpp:94-109 | all handlers see the same log: first the reset context, then one snapshot for each posted update in order, last the provider's state at the join |
| PipelineGuarantees.AsyncRefinesSync | src/datadog/impl/core/storage_thread.cpp:96-122 | at any moment, handling what is still queued gives what immediate handling would have given; with an empty queue the ledgers are equal |
| PipelineFiles.EveryRunHasFiles | src/datadog/impl/core/storage_thread.cpp:96-122 | every run of the threads can be extended by what the writers do on disk |
| PipelineFiles.WritersMakeRuns | src/datadog/impl/core/core.cpp:356-447 | in every state of such a run each feature's directories are the result of its writer's run over the messages handled since its registration |
| PipelineFiles.FilesStayWithinConsent | src/datadog/impl/core/storage_write.cpp:95-149 | in every interleaving in which revocations can delete, the granted directories hold only events of the pipeline's ledger, and refused events are nowhere on disk |
| PipelineFiles.AsyncFilesMatchSync | src/datadog/impl/core/storage_write.cpp:95-149 | with an empty queue the directories of an undisturbed writer hold exactly what immediate handling of every accepted message would have put there |
| PipelineGuarantees.ConsentIsCoherent | src/datadog/impl/core/core.cpp:171-201 | folding the queued changes into a writer's consent gives the core's, except half-way through SetTrackingConsent; stopped, they are equal |
| PipelineGuarantees.ConsentChangeCompletes | src/datadog/impl/core/core.cpp:171-192 | the push closes that gap |
| PipelineGuarantees.ContextTellsConsent | src/datadog/impl/core/core.cpp:194-199 | once outstanding updates are made the context shows the core's consent, provided feature code leaves that field alone; stopped, at once |
| Pipeline.UpdatesTouchOneField | src/datadog/impl/core/core.cpp:194-199 | a consent change replaces the context's consent alone, a reset takes away feature state alone |
| PipelineGuarantees.MainThreadUpdates | src/datadog/impl/core/core.cpp:171-201 | in every run: stopped, the context changes at once by just the call made; running, a consent change posts an update that replaces the consent of whatever context it finds |
| CoreObjects.CoreContextProvider.Update | src/datadog/impl/core/context.cpp:94-109 | the context changes and its new value is sent if a bus is installed |
| CoreObjects.ContextThreadMain | src/datadog/impl/core/context_thread.cpp:11-23 | draining makes and announces every update and executes every function, in order: whatever these call, what they publish and write is accepted, and what they post is not |
| CoreObjects.NoticesAreSnapshots | src/datadog/impl/core/context.cpp:94-109 | the contexts among the loop's announcements are the snapshots of the transition system |
| CoreObjects.ThunksOneByOne | src/datadog/impl/core/context_thread.cpp:11-23 | every update announces what it makes of the context that the thunks before it have left, every function what it calls for |
| CoreObjects.PublicationsOneByOne | src/datadog/impl/core/core.cpp:570-575 | of a function's calls every publication is announced, in order, and nothing else |
| CoreObjects.WritesOneByOne | src/datadog/impl/core/core.cpp:734-754 | and every write is enqueued |
| CoreObjects.MessagingThreadMain | src/datadog/impl/core/messaging_thread.cpp:11-21 | every handler gets every message in order |
| CoreObjects.Core.SetTrackingConsent | src/datadog/impl/core/core.cpp:171-201 | running: one message to each queue, of which the update replaces the consent of any context and nothing else; stopped: every writer's run goes on by the change and the context's consent is replaced at once, after which all agree; an equal value does nothing |
| CoreObjects.Core.RegisterFeature | src/datadog/impl/core/core.cpp:356-447 | accepted exactly before Start, for a new id and name and if storage could be initialized; the new writer has been told the current consent, and its run begins |
| CoreObjects.Core.EnqueueStorageWrite | src/datadog/impl/core/core.cpp:734-754 | accepted exactly while started, and then queued |
| CoreObjects.Core.UpdateContext | src/datadog/impl/core/core.cpp:756-769 | queued if there is a context queue, else applied at once |
| CoreObjects.Core.Start | src/datadog/impl/core/core.cpp:449-609 | accepted exactly while stopped with a feature registered: the context is reset and is what handlers will see first, and the queues are new, open and empty |
| CoreObjects.Core.Stop | src/datadog/impl/core/core.cpp:611-732 | every thunk has run, every handler has been given every notice in order, every writer's run goes on over the queued messages and then those the features wrote meanwhile, and all writers agree with the core |
| AttributeValues.LookupAfterSet | include-cpp/datadog/attribute.hpp:197-203 | a property set is seen under its own name, all others as before |
| AttributeValues.LookupAfterDelete | include-cpp/datadog/attribute.hpp:204-208 | a property deleted is absent, all others as before |
| AttributeValues.OthersStay | src/datadog/cpp/attribute.cpp:65-497 | an operation changes no other variable, except that one moved from becomes null |
| AttributeValues.SettersSet | src/datadog/cpp/attribute.cpp:65-298 | setters, initializers, copies and moves give just their value, whatever the variable held |
| AttributeValues.OtherTypesAreLeftAlone | include-cpp/datadog/attribute.hpp:168-217 | operations on a value of another type than they are for do nothing |
| AttributeValues.PushAppends | src/datadog/cpp/attribute.cpp:365-388 | a push adds the item's value behind the old items, also when an array is pushed into itself; clearing leaves none |
| AttributeValues.GetsByIndex | src/datadog/impl/types/attribute/cow.cpp:247-264 | items and properties are counted from the front; null out of range and for other types |
| AttributeValues.GetAfterPush | src/datadog/impl/types/attribute/cow.cpp:237-264 | what is pushed can be got back, what was there before is where it was |
| AttributeValues.GetsByName | src/datadog/cpp/attribute.cpp:432-441 | the value of the property of that name, null if there is none |
| AttributeValues.SetReplacesOrAppends | src/datadog/cpp/attribute.cpp:443-459 | the property of that name gets the value where it is, or comes last; the others stay where they are |
| AttributeValues.DeleteRemovesOne | src/datadog/cpp/attribute.cpp:461-466 | just the property of that name goes, the others keep their order |
| AttributeValues.GetAfterSet | include-cpp/datadog/attribute.hpp:197-203 | seen through the getter, setting affects its own name only |
| AttributeValues.GetAfterDelete | include-cpp/datadog/attribute.hpp:204-208 | and so does deleting |
| CowHeap.RecountKeepsOk | src/datadog/impl/types/attribute/cow.cpp:108-121 | AddRef and a Release that is not the last keep counts exact and all values |
| CowHeap.DeleteKeepsOk | src/datadog/impl/types/attribute/cow.cpp:114-121 | destroying a node at its last release leaves nothing dangling and changes no value |
| CowHeap.AllocateKeepsOk | src/datadog/impl/types/attribute/cow.cpp:65-86 | a new or cloned node keeps counts exact and all values |
| CowHeap.RewriteKeepsOk | src/datadog/cpp/attribute.cpp:481-497 | writing to an unshared node changes the value of its one variable and of nothing else |
| CowHeap.SoleOwner | src/datadog/impl/types/attribute/cow.cpp:130-132 | a node that a variable refers to and that is not shared is in no other variable, slot or temporary |
| CowHeap.ChildIsLessDeep | src/datadog/cpp/attribute.cpp:372-388 | the node graph is acyclic |
| CowHeap.CountIsOwners | src/datadog/impl/types/attribute/cow.hpp:42-43 | a count is the number of variables plus slots of other nodes that refer to the node |
| CowHeap.EveryNodeIsReachable | src/datadog/cpp/attribute.cpp:75-134 | nothing leaks: every node can be reached from a variable |
| CowHeap.NoVariablesNoNodes | src/datadog/cpp/attribute.cpp:75-80 | when the last variable is gone all nodes are gone |
| Attributes.AttributeHeap.Release | src/datadog/impl/types/attribute/cow.cpp:114-121 | the node is destroyed exactly if this was the last reference, recursive release terminates, no value changes |
| Attributes.AttributeHeap.Clone | src/datadog/impl/types/attribute/cow.cpp:123-128 | a new node with one reference and the same contents, whose children gain one reference each |
| Attributes.AttributeHeap.WriteAccess | src/datadog/cpp/attribute.cpp:481-497 | afterwards the variable is the only owner of a node with the old contents, and no value changed |
| Attributes.AttributeHeap.DoDestroy | src/datadog/cpp/attribute.cpp:75-80 | the variable is gone, all others unchanged |
| Attributes.AttributeHeap.DoCopyTo | src/datadog/cpp/attribute.cpp:65-73 | copy construction |
| Attributes.AttributeHeap.DoMoveTo | src/datadog/cpp/attribute.cpp:103-112 | move construction leaves the source null |
| Attributes.AttributeHeap.DoAssign | src/datadog/cpp/attribute.cpp:82-101 | copy assignment, self-assignment included |
| Attributes.AttributeHeap.DoMoveAssign | src/datadog/cpp/attribute.cpp:114-134 | move assignment, self-assignment included |
| Attributes.AttributeHeap.DoSetPrimitive | src/datadog/cpp/attribute.cpp:178-230 | the six primitive setters |
| Attributes.AttributeHeap.DoFreeC | src/datadog/c/attribute.cpp:351-364 | the variable becomes null; freeing it again touches nothing |
| Attributes.AttributeHeap.DoSetUuid | src/datadog/cpp/attribute.cpp:232-247 | in place or in a new node, other variables unchanged |
| Attributes.AttributeHeap.DoSetString | src/datadog/cpp/attribute.cpp:249-264 | in place or in a new node, other variables unchanged |
| Attributes.AttributeHeap.DoInitArray | src/datadog/cpp/attribute.cpp:266-281 | an empty array, other variables unchanged |
| Attributes.AttributeHeap.DoInitObject | src/datadog/cpp/attribute.cpp:283-298 | an empty object, other variables unchanged |
| Attributes.AttributeHeap.DoArrayClear | src/datadog/cpp/attribute.cpp:365-370 | arrays are emptied, anything else is left alone |
| Attributes.AttributeHeap.DoArrayPush | src/datadog/cpp/attribute.cpp:372-388 | the array gains the item's value, also when it is pushed into itself |
| Attributes.AttributeHeap.DoArrayPushC | src/datadog/c/attribute.cpp:440-446 | the same in C, which copies every item first |
| Attributes.AttributeHeap.DoSetProperty | src/datadog/cpp/attribute.cpp:443-459 | the object gains or replaces the property, also when set into itself |
| Attributes.AttributeHeap.DoSetPropertyC | src/datadog/c/attribute.cpp:507-515 | the same in C |
| Attributes.AttributeHeap.DoDeleteProperty | src/datadog/cpp/attribute.cpp:461-466 | the property is gone, other variables unchanged |
| Attributes.AttributeHeap.DoReserve | src/datadog/cpp/attribute.cpp:390-402 | no value changes; a container whose capacity is too small becomes the variable's own node, anything else is left as it is |
| Attributes.AttributeHeap.DoGetAt | src/datadog/impl/types/attribute/cow.cpp:247-264 | a copy of the item or property value at an index, null out of range |
| Attributes.AttributeHeap.DoGetProperty | src/datadog/cpp/attribute.cpp:432-441 | a copy of the named property's value, null if there is none |
| Attributes.AttributeHeap.Run | src/datadog/cpp/attribute.cpp:65-497 | any sequence of operations through either interface does to the variables what it does to plain values |
| Attributes.RunBoth | src/datadog/c/attribute.cpp:73-532 | the C and the C++ interface simulate each other on every sequence of operations that both have |
| Attributes.NothingIsLeft | src/datadog/cpp/attribute.cpp:75-80 | whatever was done, destroying all variables frees all nodes |
| Tokenizer.Parse | examples/repl/command.cpp:136-173 | the array holds the first 64 tokens of the line, tokens being defined one character at a time |
| Tokenizer.TokensExactly | examples/repl/command.cpp:136-173 | the tokens of a line are exactly the words that, with spaces and tabs between them, make it up: spaces and tabs in a word lie between its first two quotes, and only the end of the line ends a word with an open quote |
| Tokenizer.ExtentUnquoted | examples/repl/command.cpp:140-162 | the searches for quotes and blanks find where the character-wise definition ends a token |
| Tokenizer.TokensCoverLine | examples/repl/command.cpp:136-173 | tokens are non-empty and in order, and the line is the tokens with blanks between them |
| Tokenizer.CutExactly | examples/repl/command.cpp:143-158 | a word is cut out of a text exactly if it is a token by itself and leaves no quote open before other text |
| Tokenizer.SplitUndoesJoin | examples/repl/command.cpp:136-173 | tokens joined by single blanks parse to themselves |
| Tokenizer.ParsingIsStable | examples/repl/command.cpp:136-173 | for every line, also one with more than 64 tokens |
| Tokenizer.SplitsExactlyNamed | examples/repl/command.cpp:15-45 | a token is split at a colon exactly if it is a name without colon or leading quote and a value without leading slash, and into just these |
| Tokenizer.SplitLosesNothing | examples/repl/command.cpp:108-134 | positional and named arguments together are all tokens, once, in order and unchanged; named are exactly those made of a name and a value |
| Tokenizer.Positional | examples/repl/command.cpp:108-117 | the tokens without delimiter, in order |
| Tokenizer.Named | examples/repl/command.cpp:119-134 | the tokens with delimiter, split, in order |
| Tokenizer.Shift | examples/repl/command.cpp:96-106 | drops the given number of tokens, or all |
| PatchStamp.Checkout.EnsurePatchedSource | tools/bootstrap-crashpad/main.py:611-685 | however a call ends, a true stamp stays true; the checkout is accepted exactly if the stamp says what is wanted, HEAD is pinned and the patch can be reversed, and restored exactly if it is not, no step fails and the patch applies; it is then exactly pinned plus patch |
| PatchStamp.Checkout.EnsureExactly | tools/bootstrap-crashpad/main.py:611-685 | after a normal return the tree is pinned plus patch unless it was accepted and was something else |
| PatchStamp.Checkout.EnsureAfterReset | tools/bootstrap-crashpad/main.py:643-648 | a tree whose patch was reset is never accepted, and is pinned plus patch after a normal return |
| PatchStamp.Checkout.RestorePristineSource | tools/bootstrap-crashpad/main.py:571-608 | succeeds exactly if its four steps do, and then the tree is exactly the pinned revision |
| PatchStamp.Checkout.Life | tools/bootstrap-crashpad/main.py:611-685 | over any series of calls, killed anywhere, whenever there is a stamp the tree is exactly pinned plus patch |
| PatchStamp.Checkout.CallTwice | tools/bootstrap-crashpad/main.py:637-655 | a call right after a normal return changes nothing |
| PatchStamp.EditedTreeIsAccepted | tools/bootstrap-crashpad/main.py:557-568 | a call that accepts an edited tree |

## Left out

- BatchBounds.BatchFilesStayWithinLimits: counts the bytes of whole writes, as the code does; `BatchContents.FilesExceedLimitsByTornBytesOnly` adds the remains of failed writes.
- CoreObjects.Core.RegisterFeature: the creation of a feature's directories is an input, and its upload state is not modelled.
- CoreObjects.ContextThreadMain: the queue is stopped before the loop runs, and no other thread acts meanwhile; what functions call is a parameter, one entry for each position in the queue. `Pipeline` has the interleavings.
- CoreObjects.Core.Stop: message handlers and upload cycles do nothing here; `Pipeline` lets handlers write, publish and post while they run.
- PatchStamp.Checkout.RestorePristineSource: dependency checkouts and ignored files are not part of the tree.
- The upload thread, HTTP and retry policy: only that files may disappear from both directories.
- The filesystem beyond regular files in two directories; advisory locks; closing of files.
- Integer widths other than in the buffer quantiser and the block header; counters, sizes and reference counts are unbounded.
- Relaxed memory ordering: every atomic access and critical section is a sequentially consistent step.
- API calls from more than one thread; the interface documents a single main thread.
- Scalar getters, type conversions, UUID and timestamp formatting of attributes, and concurrent use of one attribute.
- RUM, logging, profiling and crash-reporting features, configuration setters and diagnostics.
- `Has`, `Get`, `GetInt`, `GetFlag` and `Unquote` of the REPL input, which are simple lookups.
- The remaining Python tools.
