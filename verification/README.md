# The file provider's durable journal and what trusts it

This project models the event log's file provider and the parts of the core crate that rely on it,
and proves what they promise. A store is a journal of hash-chained frames behind one manifest. The
manifest rename is the only commit point. Everything else is derived: the folded state, the views a
handle keeps between calls, idempotent receipts, cached folds, admission counters and cursors.

The modules follow the program:

- `Serde`, `Codec`, `Disk`: frames, digests, manifests, and what a strict reader accepts.
- `Recovery`, `CrashSafety`, `CrashRuns`, `Layouts`, `Journal`: every operation as a list of file
  states. A crash leaves any one of them, inside recovery too, with any prefix of a frame written.
  `Journal` is the same operations as classes updated in place, proved to take exactly those steps.
- `Resume`: the fast resume, against the complete reread.
- `SharedBuffer`: views that share one buffer which grows in place.
- `State`, `Index`, `Rewrites`: the fold of committed transactions, its two indexes, and the two
  operations that rewrite history.
- `Requests`, `Receipts`, `Stores`: what a request records and answers, and whole runs of requests,
  administrative records, redactions and erasures.
- `Layers`: what the journal returns and publishes is what the handles' runs take for granted.
- `Transactions`, `Handles`, `Runtimes`: the open transaction updated in place, several handles with
  their kept views over one store, and a handle's runtime proved to take the step of `Handles`.
- `ContentMemory`, `Snapshots`: two caches that must equal what they save, under interleaving.
- `Scopes`, `Admission`, `Order`, `Paging`, `CatchUp`, `CaptureOrder`: counters, pages, passes and the
  order rules of a capture.

## Assumptions

- JSON over frames reads back what it writes and holds no raw newline, and digests do not collide.
  `Serde` gives functions that meet both at once, so the assumption is consistent, and nothing else is
  known of the functions used.
- `Handles` and `Runtimes` take the encoding of a transaction as a parameter that is only assumed
  injective. Keys that the source encodes as JSON arrays are tuples.
- `ContentMemory` assumes only that a digest is sixty-four lower-case hexadecimal digits.
- Minted ids and snapshot generations never repeat.
- A stamp that is still trusted means unchanged bytes (`Resume.StampsHonest`).
- One writer holds the lock; what was written before a process died stays written; replacing a JSON
  document is one step.

## Where the plain statement is false

- A manifest determines the list of transactions and not the bytes, because a reader re-serialises
  each line before hashing it. `Codec.ManifestDeterminesTransactions` says the former.
- Crash atomicity starts from an initialised store. `CrashRuns.Created` shows that no opener takes the
  files of a crash during creation for a store, new or old.
- A retry of a group is documented to return the original result without repeating admission. One that
  carries a batch runs the guard again, as the entry for batches says, so it may be refused or reserve a
  second time. `Receipts.RetryRecordsNothing` says exactly when a retry records nothing,
  `Admission.RetryReservesAgain` gives the retry that does, and `Receipts.RetryAnswered` says when it is
  answered.
- `Repository::finish` folds whatever an append returned. `Snapshots.FinishGoesWrong` gives a run in
  which a claim answers with another stream's event and the cache keeps it. `Snapshots.FinishExact` says exactly when finishing
  keeps the fold right. The runs of `Snapshots.CachedIsFold` cover every fresh append, `snapshot_now`
  and every deduplicated result that meets that condition.
- `projection_page` documents that a page's cursor loses nothing, but its look-ahead row is clamped
  away at the largest limit. `Paging.LargestLimitLosesRow` gives the listing, `Paging.Follow` the exact
  condition.
- `VerifiedContent::remember` is not guarded by the generation. `ContentMemory.ForgottenStaysForgotten`
  therefore speaks of checks that looked up, and of writes that remembered, after the forget.

## Model

| member | source | states |
|---|---|---|
| `Codec.FrameDigestInjective` | crates/eventlog-file/src/journal.rs:1744-1763 | a frame's digest determines the store, epoch, sequence, previous digest and transaction it was made from |
| `Codec.EndInjective` | crates/eventlog-file/src/journal.rs:1744-1805 | the digest at the end of a chain determines every transaction in it |
| `Codec.DecodeChainLoop` | crates/eventlog-file/src/journal.rs:1772-1805 | the reading loop accepts a chain, or refuses it, exactly as the specification of a chain does |
| `Codec.DecodeNames` | crates/eventlog-file/src/journal.rs:1772-1805 | an accepted chain has as many transactions as the manifest counts and ends at its digest |
| `Codec.ManifestDeterminesTransactions` | crates/eventlog-file/src/journal.rs:1764-1805 | two files accepted under one manifest decode to the same transactions, whatever their bytes |
| `Codec.DecodeSplit` | crates/eventlog-file/src/journal.rs:1764-1805 | decoding a verified prefix and then chaining the tail from its head is decoding the whole, refusals included |
| `Codec.DecodeWritten` | crates/eventlog-file/src/journal.rs:1744-1805 | decoding what the encoder wrote returns the transactions it was given |
| `Codec.ExtendsObserved` | crates/eventlog-file/src/journal.rs:1343-1363 | the re-encoding loop decides the guard, whatever the lengths |
| `Codec.ExtendsIffPrefix` | crates/eventlog-file/src/journal.rs:1343-1363 | the guard holds if and only if the observed transactions are a prefix of the committed ones |
| `Disk.ReadSealedLoop` | crates/eventlog-file/src/journal.rs:664-694 | reading the sealed segments one by one returns their concatenation, or refuses at the first that is missing, short, long or cut inside a frame |
| `Disk.StrictAcceptsSettled` | crates/eventlog-file/src/journal.rs:1523-1600 | the strict reader accepts files with a result if and only if they hold exactly that history, segment by segment, and no intent |
| `CrashSafety.AppendedSound` | crates/eventlog-file/src/journal.rs:902-982 | a history with one appended frame decodes under the next manifest, sealed or not |
| `CrashSafety.RecoverTorn` | crates/eventlog-file/src/journal.rs:1642-1742 | from any prefix of the frame on disk, undoing ends at the old history through states that recover again |
| `CrashSafety.RecoverUnmoved` | crates/eventlog-file/src/journal.rs:1642-1742 | a seal that had not moved the active segment is dropped and the old history stands |
| `CrashSafety.RecoverMoved` | crates/eventlog-file/src/journal.rs:1642-1742 | a seal that had moved it is undone: the segment goes back over whatever was written |
| `CrashSafety.RecoverPublished` | crates/eventlog-file/src/journal.rs:1642-1742 | once the manifest has moved, recovery keeps the new history and drops the intent |
| `CrashSafety.RollsForward` | crates/eventlog-file/src/journal.rs:1806-1848 | from any state of an interrupted rewrite, recovery ends at the rewritten history through states that roll forward again |
| `CrashSafety.OpenStable` | crates/eventlog-file/src/journal.rs:842-887 | the opener answers the decided history from every state a crash can leave, and each of its own steps is again such a state for the same history |
| `CrashRuns.AppendSteps` | crates/eventlog-file/src/journal.rs:902-1029 | every file operation of an append leaves a recoverable state: the old history before the manifest swap, the new one from it on |
| `CrashRuns.PrivacySteps` | crates/eventlog-file/src/journal.rs:1110-1153 | every file operation of a rewrite leaves a recoverable state: the old history until the intent is durable, the new one after |
| `CrashRuns.StepStable` | crates/eventlog-file/src/journal.rs:773-1153 | an open, append or rewrite that dies at any point leaves a recoverable state of exactly the history it had decided |
| `CrashRuns.RunStable` | crates/eventlog-file/src/journal.rs:773-1153 | over every run of processes that die anywhere, the files recover to the history those processes committed |
| `CrashRuns.AppendAtomic` | crates/eventlog-file/src/journal.rs:902-982 | after a crash anywhere in an append and any number of crashed reopens, the next open has the old history or the new one, the new one if and only if the manifest was swapped, leaves no intent, and can append again |
| `CrashRuns.PrivacyErases` | crates/eventlog-file/src/journal.rs:1110-1153 | once the intent is durable every sequence of crashes ends in the rewritten history with no file holding the old epoch's bytes; before that the old history is intact |
| `CrashRuns.Created` | crates/eventlog-file/src/journal.rs:803-841 | creation ends at rest with no history, and a crash inside it leaves files that neither open nor can be created over |
| `Layouts.AppendedCanonical` | crates/eventlog-file/src/journal.rs:919-980 | an append keeps the committed bytes the encoding of the transactions and every sealed length at a frame boundary of at least the sealing size |
| `Layouts.HistoryCanonical` | crates/eventlog-file/src/journal.rs:107-137 | so does every run of appends, reopens and rewrites, crashes included |
| `Layouts.FreshCanonical` | crates/eventlog-file/src/journal.rs:811-834 | a new store of either layout starts in that form |
| `Layouts.SegmentIsFrames` | crates/eventlog-file/src/journal.rs:919-980 | each sealed segment is exactly the frames of a run of whole transactions and at least the sealing size |
| `Layouts.SegmentedHoldsTheSameBytes` | crates/eventlog-file/src/journal.rs:664-694 | sealed segments followed by the active one are the encoding of the same transaction list, as in one file |
| `Layouts.AppendKeepsSealed` | crates/eventlog-file/src/journal.rs:1013-1029 | no step of an append changes a sealed segment |
| `Resume.ReadFileMeans` | crates/eventlog-file/src/journal.rs:1240-1307 | one file passes if and only if it holds the verified bytes and then only what is committed, whether by stamp or by comparison |
| `Resume.ResumeCommitted` | crates/eventlog-file/src/journal.rs:1169-1337 | the resume succeeds if and only if the strict reader accepts the same files as a continuation of the verified bytes, and then returns what the complete opener decodes, the same bytes, and a view that can resume again |
| `Resume.StrictVerifies` | crates/eventlog-file/src/journal.rs:1523-1600 | what the strict reader returns is a view that a resume may start from |
| `Journal.Volume.WriteFrame` | crates/eventlog-file/src/journal.rs:902-982 | writing a frame passes through every prefix of it and ends with all of it |
| `Journal.Volume.SealActive` | crates/eventlog-file/src/journal.rs:1013-1029 | sealing takes exactly the modelled steps |
| `Journal.Volume.RemoveSealed` | crates/eventlog-file/src/journal.rs:728-740 | removing the retired segments passes through every partly removed directory and leaves none of them |
| `Journal.Volume.UndoOrKeepAppend` | crates/eventlog-file/src/journal.rs:1642-1742 | recovery of an append takes exactly the modelled steps and refuses exactly when they do |
| `Journal.Volume.RollPrivacyForward` | crates/eventlog-file/src/journal.rs:1806-1848 | recovery of a rewrite takes exactly the modelled steps and refuses exactly when they do |
| `Journal.Journal.Append` | crates/eventlog-file/src/journal.rs:902-982 | an append takes exactly the modelled steps, ends with the appended history, and refuses an overflow before writing anything |
| `Journal.Journal.Privacy` | crates/eventlog-file/src/journal.rs:1110-1153 | a rewrite takes exactly the modelled steps and ends with the rewritten history in the next epoch, or refuses before writing |
| `Journal.EncodeAll` | crates/eventlog-file/src/journal.rs:1123-1130 | the encoding loop of a rewrite writes the whole history from its first frame and returns its last digest |
| `Journal.OpenVolume` | crates/eventlog-file/src/journal.rs:842-887 | opening takes exactly the modelled recovery and yields a journal over the decided history, or none |
| `Layers.ResumedChains` | crates/eventlog-file/src/journal.rs:1319-1323 | whenever a resume may succeed, what it had verified is a prefix of the committed history and the rest chains from it, as the handles require |
| `Layers.ResumeHandle` | crates/eventlog-file/src/journal.rs:1169-1337 | a resume that succeeds returns exactly the transactions past the handle's, and they chain |
| `Layers.AppendPublishes` | crates/eventlog-file/src/journal.rs:902-982 | an append publishes the manifest and history that a handle's commit does |
| `Layers.PrivacyPublishes` | crates/eventlog-file/src/journal.rs:1110-1153 | a rewrite publishes the manifest and history that a handle's rewrite does, in the next epoch |
| `Layers.LostCommit` | crates/eventlog-file/src/journal.rs:902-982 | a commit whose process died, at any point and after any crashed reopens, is one of the two outcomes that the handles' runs allow |
| `SharedBuffer.Content.Absorb` | crates/eventlog-file/src/journal.rs:287-308 | the view grows by exactly the bytes, its buffer is only ever extended, and it is replaced exactly when it already continues differently |
| `SharedBuffer.Content.Adopt` | crates/eventlog-file/src/journal.rs:347-390 | both views keep their bytes, the answer is whether they now share a buffer, it is yes exactly when the bytes agree, and a no changed nothing |
| `SharedBuffer.Play` | crates/eventlog-file/src/journal.rs:264-390 | over any run of new buffers, clones, absorptions and adoptions, each view holds its own bytes and what it absorbed, however they come to share |
| `State.ReplayLoop` | crates/eventlog-file/src/state.rs:249-272 | the replay loop is the fold of all transactions, or a refusal at the first that refuses |
| `State.FoldAllConcat` | crates/eventlog-file/src/lib.rs:1087-1095 | folding new frames onto a kept state is folding everything |
| `Index.ReplayAgreed` | crates/eventlog-file/src/state.rs:116-172 | after every accepted replay the stream index is the log regrouped and each stream is versions 1..n at increasing positions |
| `Index.ApplyAgreed` | crates/eventlog-file/src/state.rs:276-404 | every operation that is not refused keeps that agreement |
| `Index.OfStreamIsFilter` | crates/eventlog-file/src/state.rs:145-166 | a window through the stream index is the whole log filtered, for any range, empty or inverted |
| `Index.CountIsHead` | crates/eventlog-file/src/state.rs:134-139 | a stream's head is the number of its events in the log |
| `Index.SliceShape` | crates/eventlog-file/src/lib.rs:1375-1392 | a slice is the next versions without a gap and says truly whether more remain |
| `Rewrites.ErasureCommutes` | crates/eventlog-file/src/lib.rs:1735-1755 | dropping a tenant's operations replays without refusal to the state with exactly that tenant removed and the same next position |
| `Rewrites.EraseOp` | crates/eventlog-file/src/state.rs:406-422 | applying and then erasing an operation is erasing and then applying it, or skipping it when it is the tenant's |
| `Rewrites.RedactionCommutes` | crates/eventlog-file/src/lib.rs:1708-1734 | the redacted history replays to the same events, positions, versions and receipts with one body changed and the tenant's rows and cursors gone |
| `Requests.BindExact` | crates/eventlog-file/src/lib.rs:861-948 | a batch that binds leaves each of its digests bound to its content, and no digest that was bound is ever given another |
| `Receipts.BatchSpread` | crates/eventlog-file/src/lib.rs:586-677 | appending members in turn gives each the versions right after its stream's head, and together the ranges are disjoint and cover exactly the new versions |
| `Receipts.RequestServes` | crates/eventlog-file/src/lib.rs:355-461 | a served request, single or group, keeps the receipts a partition of every stream and overwrites none |
| `Receipts.FreshIsReceipted` | crates/eventlog-file/src/lib.rs:1455-1475 | what a new request answers is what its receipts record |
| `Receipts.RetryAnswered` | crates/eventlog-file/src/lib.rs:366-408 | a retry appends no event, overwrites no receipt and records only what its guard did; it is answered if and only if no batch it carries is refused, and then with the recorded ranges and the events they hold now, one per version |
| `Receipts.RetryRecordsNothing` | crates/eventlog-file/src/lib.rs:377-408 | an answered retry records nothing if and only if it is a single append, the atomic entry's, carries no batch, or its guard recorded nothing |
| `Receipts.FreshBatchHolds` | crates/eventlog-file/src/lib.rs:811-849 | a group just served would be answered again with its own batch, unless its guard refuses |
| `Receipts.ErasedPartition` | crates/eventlog-file/src/lib.rs:1735-1755 | erasing a tenant leaves the other tenants' receipts a partition of their streams |
| `Stores.CommitReplays` | crates/eventlog-file/src/lib.rs:260-264 | the kept state is the replay of what was committed although the watermark was never applied |
| `Stores.ForgetSound` | crates/eventlog-file/src/lib.rs:1735-1755 | forgetting a tenant in any reachable store succeeds and leaves exactly the state without it |
| `Stores.RedactSound` | crates/eventlog-file/src/lib.rs:1708-1734 | redacting an event in any reachable store succeeds and changes that body, clears that tenant's rows and cursors, marks every view of it and retires the stream's generation, and nothing else |
| `Stores.RunSound` | crates/eventlog-file/src/lib.rs:182-331 | over every run of requests, records, redactions and erasures the kept state is the replay of the history, receipts partition every stream and event ids are distinct |
| `Stores.StepKeepsReceipt` | crates/eventlog-file/src/lib.rs:1708-1755 | no change overwrites or drops a receipt except forgetting its tenant |
| `Stores.RetryAfterRun` | crates/eventlog-file/src/lib.rs:366-408 | at any later point of any run that has not forgotten the tenant, so is a request made again, with the first answer's ranges |
| `Transactions.OpenTransaction.Record` | crates/eventlog-file/src/lib.rs:536-541 | the operation is pushed first, so a refusal always leaves something pending |
| `Transactions.OpenTransaction.Append` | crates/eventlog-file/src/lib.rs:586-677 | the loop assigns consecutive versions and positions and records exactly the member's operations, or refuses with the head it found and records nothing |
| `Transactions.OpenTransaction.AppendAll` | crates/eventlog-file/src/lib.rs:424-440 | the group loop appends every member or stops at the first that refuses, with only the members before it recorded |
| `Transactions.OpenTransaction.BindEach` | crates/eventlog-file/src/lib.rs:487-534 | blobs bound one by one are recorded at once, so a refusal leaves those before it |
| `Transactions.OpenTransaction.BindAll` | crates/eventlog-file/src/lib.rs:861-948 | a batch is checked whole before any binding is recorded: all of it or nothing |
| `Transactions.OpenTransaction.VerifyRetry` | crates/eventlog-file/src/lib.rs:811-849 | the loops over a retried batch object exactly as specified: to an unusable digest, then to another set, then to different content still bound |
| `Transactions.OpenTransaction.PerformNew` | crates/eventlog-file/src/lib.rs:1317-1366 | a request that is not a retry admits, binds, appends and records its receipts in the order of its entry point |
| `Transactions.OpenTransaction.AppendGuarded` | crates/eventlog-file/src/lib.rs:1417-1477 | claim, command, check, admission, append and receipts in that order: exactly the specified operations and answer |
| `Transactions.OpenTransaction.AppendGroup` | crates/eventlog-file/src/lib.rs:355-461 | a group of either entry records exactly the specified operations under one receipt, or answers from it after calling its guard again if it carries a batch |
| `Transactions.OpenTransaction.Forget` | crates/eventlog-file/src/lib.rs:1741-1753 | the in-place rewrite and replay never refuse and leave exactly the state without the tenant |
| `Transactions.OpenTransaction.Redact` | crates/eventlog-file/src/lib.rs:1715-1732 | an unknown version leaves everything alone; otherwise the rewrite replays and exactly the specified operations are pending |
| `Transactions.OpenTransaction.Commit` | crates/eventlog-file/src/lib.rs:259-300 | one frame is added behind a watermark, or none if nothing was recorded, and the history replays to the kept state |
| `Handles.OpenedNames` | crates/eventlog-file/src/journal.rs:1764-1805 | what the complete opener decodes is the history its manifest names, so the journal's results are the handles' |
| `Handles.ChainsIffPrefix` | crates/eventlog-file/src/journal.rs:1319-1323 | within an epoch the tail chains from the observed head if and only if the observed history is a prefix of the committed one |
| `Handles.NewWorld` | crates/eventlog-file/src/journal.rs:803-841 | a store just created meets the invariant of the runs below |
| `Handles.EnterExact` | crates/eventlog-file/src/lib.rs:1078-1154 | resuming from a kept view and rereading everything enter with the same transactions and state, and both are refused if and only if the handle's epoch has been replaced |
| `Handles.WorkSound` | crates/eventlog-file/src/lib.rs:226-243 | a refusal that may keep its view left it as it entered, because a rewritten history always replays |
| `Handles.TransactKeeps` | crates/eventlog-file/src/lib.rs:182-331 | a transaction, refused before or after recording, committed, rewritten or lost, keeps every handle's view the replay of the history its manifest names |
| `Handles.RegisterKeeps` | crates/eventlog-file/src/lib.rs:1764-1821 | so does a registration, which commits without a watermark and moves only the observed manifest |
| `Handles.RebuildKeeps` | crates/eventlog-file/src/inline_admin.rs:108-209 | so does an inline rebuild |
| `Handles.CaptureKeeps` | crates/eventlog-file/src/capture.rs:292-474 | so does a capture, from the reader's view or the writer's, answered or refused |
| `Handles.RunKeeps` | crates/eventlog-file/src/lib.rs:182-331 | in every reachable runtime of any number of handles every reusable view is the replay of exactly its manifest's history |
| `Handles.ServesCommitted` | crates/eventlog-file/src/lib.rs:1125-1132 | every entry point answers from the committed history or is refused as diverged, exactly when the handle's epoch was replaced |
| `Handles.RunFollows` | crates/eventlog-file/src/capture.rs:366-382 | over every run of several handles what one observed only grows until it rewrites history itself |
| `Handles.ServesExtensions` | crates/eventlog-file/src/lib.rs:1125-1132 | whatever a handle once observed is a prefix of everything it serves later, until its own rewrite |
| `Handles.DivergedStaysOut` | crates/eventlog-file/src/lib.rs:1125-1132 | after another handle's rewrite every entry of this one is refused and changes neither the store nor what it observed |
| `Runtimes.RunJob` | crates/eventlog-file/src/lib.rs:214-258 | running a transaction's work in place leaves what the specified work leaves, for every kind of work and every refusal |
| `Runtimes.Runtime.EnterWith` | crates/eventlog-file/src/lib.rs:1078-1154 | the fold loop, the guard loop and the replay loop enter exactly as specified |
| `Runtimes.Runtime.Transact` | crates/eventlog-file/src/lib.rs:182-331 | taking, working, committing and replacing the slots is exactly the step that the runs are made of, and keeps their invariant |
| `ContentMemory.InsertSound` | crates/eventlog-core/src/verified_content.rs:65-76 | inserting keeps the held count the sum of the entries, within the budget, and every entry under its own hash |
| `ContentMemory.AnswerIsFullCheck` | crates/eventlog-core/src/verified_content.rs:130-178 | a check answered from memory answers exactly as the full check would, for rows and for recorded objects |
| `ContentMemory.VerifiedContent.Decide` | crates/eventlog-core/src/verified_content.rs:130-178 | a whole check returns the full check's answer and leaves exactly the specified memory |
| `ContentMemory.VerifiedContent.End` | crates/eventlog-core/src/verified_content.rs:130-178 | a check whose memory changed since its lookup still returns the full check's answer, and remembers only if nothing was forgotten |
| `ContentMemory.VerifiedContent.Put` | crates/eventlog-core/src/verified_content.rs:65-76 | the in-place insertion clears past the budget and is the specified one |
| `ContentMemory.Interleave` | crates/eventlog-core/src/verified_content.rs:99-197 | one memory driven in place by any interleaving of its locked steps is the memory of that run |
| `ContentMemory.RunOk` | crates/eventlog-core/src/verified_content.rs:99-197 | in every interleaving the memory is authentic and within its budget, and every check in flight will answer as the full check would |
| `ContentMemory.ForgottenStaysForgotten` | crates/eventlog-core/src/verified_content.rs:114-197 | after a forget, in every interleaving, whatever is remembered was left by a write after it or by a check that itself looked up after it |
| `ContentMemory.StaleCheckLeavesNothing` | crates/eventlog-core/src/verified_content.rs:114-197 | a check that looked up before a forget changes no entry whenever it settles |
| `Snapshots.FinishLoop` | crates/eventlog-core/src/aggregate.rs:313-320 | the folding loop of an append's result is the specified fold |
| `Snapshots.FinishExact` | crates/eventlog-core/src/aggregate.rs:305-320 | finishing keeps the fold equal to the stream's prefix if and only if the returned range holds nothing past the loaded version, or is of the same stream and leaves no gap |
| `Snapshots.FinishGoesWrong` | crates/eventlog-core/src/aggregate.rs:315-320 | a run of valid steps from a new store, ending with a claim answered from another stream, after which the cache returns a fold of an event that the stream never had |
| `Snapshots.FinishFresh` | crates/eventlog-core/src/aggregate.rs:305-343 | finishing a new append keeps the fold equal to the stream's prefix |
| `Snapshots.ReadGenuine` | crates/eventlog-core/src/aggregate.rs:193-210 | reading one more page keeps the fold equal to the stream's prefix |
| `Snapshots.ChangeCarries` | crates/eventlog-file/src/lib.rs:1708-1755 | a generation still live after any change was live before it, and its stream lost and changed nothing |
| `Snapshots.SaveOk` | crates/eventlog-file/src/lib.rs:1621-1648 | a save under the observed generation stores only a fold of the current prefix |
| `Snapshots.RunOk` | crates/eventlog-core/src/aggregate.rs:170-379 | in every interleaving of observers, readers, appenders, savers, redactions and erasures followed by recreation, every live worker and cache file is genuine |
| `Snapshots.CachedIsFold` | crates/eventlog-file/src/lib.rs:1649-1670 | whatever is loaded from the cache is the fold of the stream's first events as they are now, and with the tail it is the fold from zero |
| `Snapshots.Load` | crates/eventlog-core/src/aggregate.rs:170-219 | the paging loop from any genuine cached fold ends with the fold of the whole stream and its head |
| `Scopes.CoordinateInjective` | crates/eventlog-core/src/admission.rs:32-44 | no two scopes, of tenants or the deployment, share a coordinate |
| `Scopes.OwnerOfCoordinate` | crates/eventlog-core/src/admission.rs:32-44 | a coordinate determines whose it is, so erasing a tenant finds exactly its counters |
| `Admission.Ordered` | crates/eventlog-core/src/admission.rs:66-89 | reservations are accepted if and only if there are 1 to 64, all valid, of this tenant and of distinct scopes, and come back sorted and complete |
| `Admission.Reserve` | crates/eventlog-file/src/projection.rs:50-96 | all deltas are recorded or none: accepted exactly when every one fits, and a refusal leaves the transaction untouched |
| `Admission.GuardCounts` | crates/eventlog-file/src/projection.rs:50-96 | whatever calls a guard makes and catches, each counter moves by exactly the deltas of the accepted ones |
| `Admission.CountersAddUp` | crates/eventlog-file/src/projection.rs:64-94 | over every run, whatever ceilings are named, a counter is the sum of the deltas committed since its scope was last erased, retried ones included, and is never negative |
| `Admission.CountersBounded` | crates/eventlog-file/src/projection.rs:64-94 | when all its reservations name one ceiling, a counter stays within it over every run |
| `Admission.RetryReservesAgain` | crates/eventlog-file/src/lib.rs:381-408 | a group with a batch, retried: the retry is answered, appends nothing, and its reservation counts a second time |
| `Order.PrefixRun` | crates/eventlog-core/src/lib.rs:1086-1089 | the keys under a prefix are one uninterrupted run of the key order |
| `Paging.ProjectionPage` | crates/eventlog-core/src/lib.rs:1069-1101 | a page is the leading rows under the prefix past the cursor, up to the limit, with the last of them as cursor when more follow, except at the largest limit |
| `Paging.LeadingIsRest` | crates/eventlog-core/src/lib.rs:1069-1101 | from a start at or past the prefix those leading rows are all the remaining rows under it |
| `Paging.RestIsRows` | crates/eventlog-file/src/lib.rs:1953-1964 | the rows of a listing under a prefix are exactly the tenant's rows of the projection whose keys lie under it |
| `Paging.Follow` | crates/eventlog-core/src/lib.rs:1069-1101 | following the cursor yields exactly the rows under the prefix, without a key equal to it, if and only if the limit is below the largest or the rows fit on one page |
| `Paging.FollowCalls` | crates/eventlog-core/src/lib.rs:1069-1101 | calling again with each page's cursor, over whatever is listed then, is the walk the next three speak of |
| `Paging.WalkListed` | crates/eventlog-core/src/lib.rs:1069-1101 | every row a call returns was listed at that call |
| `Paging.PagesOrdered` | crates/eventlog-core/src/lib.rs:1069-1101 | at any limit and whatever changes between calls, rows come in key order, each once, and under the prefix |
| `Paging.PagesComplete` | crates/eventlog-core/src/lib.rs:1040-1101 | with a limit below the largest, whatever is inserted or removed between calls, no row that was there at every call is missing when the last page says so |
| `Paging.LargestLimitLosesRow` | crates/eventlog-file/src/lib.rs:1953-1964 | of a thousand and one rows, the page of a thousand says that nothing follows |
| `CatchUp.PassExact` | crates/eventlog-file/src/lib.rs:1006-1053 | a pass applies exactly the tenant's events between the cursor and where it leaves it, and says truly whether more wait |
| `CatchUp.Drain` | crates/eventlog-core/src/projection.rs:271-281 | draining terminates, for any batch size, with every waiting event applied once in global order and the cursor at the last |
| `CatchUp.PassesExact` | crates/eventlog-file/src/lib.rs:1006-1053 | any number of passes with any commits between them apply exactly the events between the first cursor and the last, once each and in order |
| `CatchUp.FoldGrows` | crates/eventlog-file/src/state.rs:298-309 | whatever commits leaves the log up to the old position as it was |
| `CaptureOrder.CheckLinear` | crates/eventlog-core/src/capture.rs:792-816 | the loop accepts if and only if positions rise and every stream's versions are 1, 2, 3 and so on |
| `CaptureOrder.Highest` | crates/eventlog-core/src/capture.rs:847-853 | the inner loop finds the highest parent version, or refuses exactly when a parent was not captured earlier on the stream |
| `CaptureOrder.CheckBranchable` | crates/eventlog-core/src/capture.rs:829-864 | the loop accepts if and only if positions rise, digests are unique per stream, parents were captured and each version is one past its highest parent's |
| `CaptureOrder.ParentsPrecede` | crates/eventlog-core/src/capture.rs:829-864 | every parent of an accepted event precedes it on the same stream, in position and in version |
| `CaptureOrder.ChainAtMostVersion` | crates/eventlog-core/src/capture.rs:829-864 | no chain of parents ending at an accepted event is longer than its version |
| `CaptureOrder.VersionIsDepth` | crates/eventlog-core/src/capture.rs:829-864 | and one chain is exactly that long |
| `CaptureOrder.UnforkedIsLinear` | crates/eventlog-core/src/capture.rs:792-864 | an accepted history in which each event's only parent is its predecessor on its stream passes the linear rule |
| `CaptureOrder.ReplayedIsLinear` | crates/eventlog-core/src/capture.rs:792-816 | whatever replays passes the linear order rule, tenant by tenant |

## Left out

- Real file calls, fsync ordering inside a step, file locks, symbolic links, permissions and the staging names of replaced documents.
- SHA-256, the JSON text itself, UUIDs and clocks: used only through the assumptions above.
- Decoding a JSON value into operations: the journal treats a transaction as one opaque value, the fold starts from its operations.
- The freeze of inline registration and the name checks of a projector: single branches before anything is recorded.
- Asynchronous scheduling, poisoned locks and cancellation, except the interleavings of `ContentMemory` and `Snapshots`.
- 64-bit overflow of versions, positions and generations in requests; the journal's own sequence, length and epoch limits are modelled.
- Blob objects on disk: writing, staging and disposal of their files. What is bound, and the content a digest names, is modelled by hash.
- How the fingerprint of a group is computed: a request carries both fingerprints that its entry points compare.
- Bodies of projectors and guards: a request carries whatever rows, counters and blobs they record.
- The field, identity and envelope checks of a captured event beyond tenant, version and position, and the capture budget: each is settled by one branch.
- The read-only inspector and the strict reader's errors: a refusal is a refusal.
- The other providers (SQLite, PostgreSQL, tree), whose sources are not part of this model.
- `Repository::handle` and its single retry: the runs of `Snapshots` allow any order of its steps.
- Snapshots.Load: assumes nothing changes between its pages; interleaved pages are steps of `Snapshots.RunOk`.
- CatchUp.PassesExact: covers commits between passes, and not redactions or erasures, after which the source rebuilds.
