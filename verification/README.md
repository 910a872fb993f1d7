# botjim: a verified model of the transfer protocol

botjim copies trees of files between two peers, resumes interrupted copies from sidecar files, patches
files that already exist, relays streams through a broker, and assembles artifacts from a swarm. This
project models the parts of it whose correctness depends on several pieces of code agreeing with each
other, and proves properties of them over every input, every interleaving and every run.

`dafny verify dfyconfig.toml` checks the whole project.

## What is modelled

**The delta and resume claim protocol** (`Grid`, `Bitmaps`, `Ledgers`, `Sidecar`, `Protocol`,
`CommitSafety`, `Sessions`, `Liveness`, `Progress`, `Delivery`, `Outcomes`, `Savings`). One file's transfer is a step system:
the receiver's record, the sender's record, two ordered control channels, and chunk frames that travel
unordered on any number of streams. Absorbing a chunk is three separate steps (the snapshot under the
lock, the write without it, the mark under it again) followed by the handler's own look at the completion
gate, so corrections, verdicts, retries, failures and the finalizer may come between any two of them. A
session starts from a fresh part, a resumed part with a trusted sidecar, a part whose sidecar was lost, or
an existing final file; it ends by a clean stop, a kill or a crash that leaves any bytes at all in the
part, and the next session starts from that disk. The main results:

- *Commit safety.* Whenever the gate is open, a file is queued for the finalizer, or a file has been put
  into place, its chunks are the source's (`Sessions.CommittedIsSource`, `Sessions.PublishedFile`).
- *Resume safety.* Every hash in a sidecar on disk is the source's for the identity the sidecar names, and
  a trusted resume skips only chunks whose bytes are the source's, whatever happened to the part since
  (`Sessions.ResumeSkipsOnlySource`).
- *Nothing forgotten.* What a session has recorded is on disk or in its next flush, and a chunk marked and saved
  is there for the next resume (`Savings.HistoryForgetsNothing`, `Savings.MarkedSurvivesResume`).
- *Nothing wasted.* The sender ends up with exactly the bitmap it was sent, less the claims its source does not uphold,
  and nothing that bitmap spares ever goes out (`Delivery.FinalIsExact`, `Delivery.HadIsSpared`).
- *No stuck file.* Every run is finite, no chunk is sent more than four times, and a run that can go no
  further has settled the file on both sides, with the source in place unless a failure was reported and the sender told
  the truth (`Outcomes.OpenedFilesAreDelivered`, `Outcomes.ThreeErrorsAreMended`); outcomes stand, chunks received are
  kept, and no part stays open (`Outcomes.OutcomeStands`, `Outcomes.ReceivedIsKept`, `Outcomes.NothingStaysOpen`).

`RxFile`, `TxFile` and `Sidecar` give the same rules as classes whose methods update their fields and loop
over bitmaps the way the code does; each method is proved equal to the pure rule the step system uses.
`SourceFd` follows the sender's descriptor through scheduler, workers, retries and results.

**Stateful refinements.** `Spool` is the relay's store-and-forward buffer, memory and spill file against
one queue. `Records` is the end-to-end record layer against any network at all. `Cloak` is the WebSocket
framing. Each has the value-level rules, theorems over whole runs, and a class proved against the rules.

**The wire codec.** `Wire`, `Varints`, `Codec`, `Messages`, `MessageBuffers` and `ChunkFrames` cover fixed
widths, varints, the decoder that remembers its first error, entries, batches, have-bitmaps and chunk
frames with and without checksums.

**Swarm assembly.** `Picker` is the piece picker, `Swarm` the seed's catalog, the scan of local parts and
the fetch from peers that may lie, `Parts` the part file, `Assembly` the concurrent workers.

**Smaller machines.** `Audit` is the hash-chained journal, `Mesh` the versioned mesh configuration,
`Broker` the pairing slots, `Handshakes` the handshake and the bytes both peers bind their keys to.

## Assumptions

- A chunk hash is a free constructor: equal digests come only from equal path, index and payload. The hex
  text of a digest is represented by the digest. SHA-256 elsewhere is a free constructor or a function
  assumed injective.
- The compression codec is an inverse pair and a corrupted frame is noticed; both show up as the `Reject`
  step. A source does not change within a session.
- Strict resume: size and mtime of a path determine its content. `FeatClaimAck` is negotiated.
- The AEAD is ideal: opening succeeds only on a box the same key has sealed under the same nonce and
  header. Signatures are ideal: only bodies the owner let out verify under its key.
- A rename replaces a sidecar atomically. An append to the journal that has returned without an error is on
  disk. Beginnings of journal lines followed by a whole line never parse as one entry.

## Results that differ from what the source says

- `Spools.IgnoredTruncationRepeatsBytes`: the spool ignores an error of `Truncate` when it rewinds a drained
  spill file, and reads up to the end of the file, not up to its write offset. Bytes of the previous filling
  can then be delivered again. `Spools.FifoIffReadsFit`: over every run, whichever truncations fail, the bytes
  delivered stay a prefix of those accepted exactly when every read of the file finds the file ending at the
  last write, or asks for no more than the unread part.
- `Ledgers.ShortClaimListLeavesABitUnchecked`: with fewer hashes than set bits the sender leaves a bit set
  without reading that chunk; `Ledgers.EverySurvivorWasChecked` shows that this is the only such case.
- `Broker.HandedToNobody`: the wake channel holds one connection, so the taker's refusal branch is dead
  (`Broker.HandOverHasRoom`), and a taker that was told OK can be handed to an offer handler that has already
  gone on. `Broker.PairedIffParked`: it can still be paired exactly when that handler is parked at the
  hand-over.
- `Audit.ShortWriteLosesJournal`: a short write that is not a crash leaves the journal open, the next append
  lands on the partial line without an error, and the journal cannot be opened again.
  `Audit.RefusedIffWrittenAfterShort`: over every run Open refuses exactly when a whole line was written after
  a short write of at least one byte on the same open journal. A failed append also uses up its number;
  `Audit.CrashRunsVerify` says when the numbering from 1 survives.
- `Audit.OnlyPrefixesVerify`: the package comment says any deletion breaks the chain; cutting entries off the
  end does not. Of everything that can be put together from a verified journal's entries, exactly its
  beginnings verify.
- `Mesh.StaleReadRepeatsVersion`, `Mesh.CrashedStaleReadRepeatsVersion`: publish falls back on the config it
  read before taking the lock when the re-read fails; two envelopes can then carry the same version, also when
  that publish crashes after its save and lets nothing out. `Mesh.VersionsRiseIff`: over every run the versions
  stay distinct and ascending exactly when each publish that lets an envelope out works from a version at least
  that of the newest envelope out.
- `Pickers.FailuresPassTheCeiling`: with one task and two workers, first completions and counted failures
  exceed tasks times the ceiling. `Pickers.CeilingHoldsIff`: over every run a task stays within the ceiling
  exactly when nothing about it is reported after it was reported fatal. First completions and retries
  always stay within it (`Pickers.WorkIsBounded`).
- `Assembly.CancelledJoinsCanBeSeed`: a cancelled join can leave the whole seed behind with tasks not done,
  since a part opened for writing reads as zeros past its old end. `Assembly.FinishedIsSeed` says exactly when.
- `Varints.LongFormAccepted`: a varint with needless zero bits is accepted, so reading is not injective;
  `Varints.CanonicalIffNoPadding` says which inputs are the canonical form.
- `Messages.EntryRoundTrip`: a chunk size travels as 32 bits, so an entry round-trips exactly when it fits.

## Model

| member | source | states |
|---|---|---|
| `Bytes.ScanZero` | internal/chunking/chunking.go:112-129 | the strided scan says zero exactly when every byte is zero |
| `Grid.Tiles` | internal/chunking/chunking.go:58-84 | chunks tile the file: none is empty, each starts where the last ended, the last ends the file |
| `Grid.GridIsChosen` | internal/chunking/chunking.go:31-55 | an override is honoured exactly when it is one of the six powers of two from 512 KiB to 16 MiB; otherwise the grid follows from how many chunks hold the file |
| `Grid.ChunksIff` | internal/chunking/chunking.go:58-67 | a grid has chunks exactly when its sizes make sense |
| `Grid.AcceptedIsSafe` | internal/engine/receiver.go:398-409 | an entry is accepted exactly on the canonical grid; then at most 2^20 chunks and no 64-bit overflow in counts or offsets |
| `Grid.EqualByChunks` | internal/chunking/chunking.go:50-84 | two files are equal exactly when their chunks are |
| `Grid.WriteIsChunkUpdate` | internal/engine/receiver.go:1056-1058 | a positioned write of one chunk changes that chunk and no other |
| `Bitmaps.BitUpdates` | internal/engine/sender.go:636-640 | setting or clearing a bit changes that bit only |
| `Bitmaps.CountFull` | internal/sidecar/sidecar.go:120-131 | the count reaches the length exactly when every bit is set |
| `Bitmaps.PopCount8` | internal/engine/sender.go:642-649 | clearing the lowest set bit until none is left counts the set bits |
| `Sidecars.ValidIff` | internal/sidecar/sidecar.go:160-180 | a document is accepted exactly when it was saved for this entry: version, path, size, grid and, when strict, mtime |
| `Sidecars.ValidationIdentifies` | internal/sidecar/sidecar.go:160-180 | strict validation accepts a document for one entry only; size-only validation fixes all but the mtime |
| `Sidecars.ResizedKeepsBits` | internal/sidecar/sidecar.go:148-156 | resizing the bitmap to the chunk count keeps every bit below it |
| `Sidecars.UpdatesKeepSync` | internal/sidecar/sidecar.go:88-114 | bits and hashes agree after every update, and clearing undoes setting |
| `Sidecars.Sidecar.SetHave` | internal/sidecar/sidecar.go:88-100 | the chunk has its bit and its hash, a zero chunk the hole mark; the cached count stays right; out of range does nothing |
| `Sidecars.Sidecar.ClearHave` | internal/sidecar/sidecar.go:104-114 | the chunk loses bit and hash and nothing else changes |
| `Sidecars.Sidecar.Complete` | internal/sidecar/sidecar.go:131-131 | the constant-time test says complete exactly when every chunk is had |
| `Sidecars.Sidecar.AdoptBitmap` | internal/sidecar/sidecar.go:141-144 | a bitmap replaced wholesale is recounted |
| `Sidecars.Sidecar.Load` | internal/sidecar/sidecar.go:247-266 | a loaded sidecar stands for the saved ledger, an undecodable bitmap for an empty one |
| `Sidecars.SaveThenLoad` | internal/sidecar/sidecar.go:247-299 | saving and loading gives back ledger, identity and flag |
| `Ledgers.RehashKeepsTheDescribed` | internal/engine/receiver.go:809-871 | a trusted resume keeps a chunk exactly when it was recorded and the part's bytes answer to the record |
| `Ledgers.RehashSynced` | internal/engine/receiver.go:809-871 | after a re-hash a chunk is had exactly when a hash is recorded for it |
| `Ledgers.RebuildClaims` | internal/engine/receiver.go:809-871 | a rebuild claims exactly the readable non-zero chunks, each under the hash of its own bytes |
| `Ledgers.UnsyncedResumeAdoptsAnything` | internal/engine/receiver.go:848-862 | a re-hash keeps bytes that answer to no record exactly where a bit is set beside an empty hash and the bytes are not all zero |
| `Ledgers.ClaimRank` | internal/engine/receiver.go:763-775 | the hash of a claimed chunk stands at the number of claims below it |
| `Ledgers.HonestClaimsVerifyByMark` | internal/engine/sender.go:582-634 | on an honest claim a bit survives exactly when the source's chunk has the digest recorded beside it |
| `Ledgers.EverySurvivorWasChecked` | internal/engine/sender.go:582-634 | with a hash for every bit, every surviving bit was checked against the source |
| `Ledgers.ShortClaimListLeavesABitUnchecked` | internal/engine/sender.go:603-632 | with fewer hashes than bits some bit survives whatever the source holds |
| `Protocol.RetriesExhausted` | internal/engine/receiver.go:1517-1534 | whatever chunks come back in whatever order, the file fails exactly when one has come back more than three times; before that every error is a request, afterwards nothing |
| `CommitSafety.GateMeansSource` | internal/engine/receiver.go:1080-1091 | in a sound state an open gate means the part holds the source's chunks |
| `CommitSafety.CommitMeansSource` | internal/engine/receiver.go:1473-1490 | so does a commit verdict about to be taken on a complete bitmap |
| `CommitSafety.AnswerConfirms` | internal/engine/sender.go:512-576 | the sender's answer leaves set exactly the claims its source can be read for and hashes to, and the count shows whether that is all |
| `CommitSafety.VerdictIsExact` | internal/engine/sender.go:512-576 | the verdict is a commit exactly when every claim is upheld, and otherwise names the ones that are |
| `CommitSafety.ClaimResultSafe` | internal/engine/receiver.go:1494-1513 | dropping refused claims but keeping chunks that already arrived keeps the state sound |
| `CommitSafety.WriteSafe` | internal/engine/receiver.go:1013-1058 | a write by a handler whose snapshot is stale keeps the state sound |
| `CommitSafety.MarkSafe` | internal/engine/receiver.go:1026-1078 | so does the mark that follows it, whatever came between |
| `CommitSafety.StepKeepsSafe` | internal/engine/receiver.go:968-1091 | every step of either side keeps the invariant |
| `Sessions.TrustedSound` | internal/engine/receiver.go:564-662 | whatever bytes the part holds by now, every chunk a trusted resume keeps is the source's |
| `Sessions.RebuiltSound` | internal/engine/receiver.go:717-759 | a claim rebuilt from the part that equals the source's hash can only come from the source's bytes |
| `Sessions.FlushKeepsSettled` | internal/engine/receiver.go:1584-1613 | a flush persists exactly the arrived chunks and chunks the sender's verdict covers, under their own hashes |
| `Sessions.HistorySound` | internal/engine/receiver.go:504-664 | over every history of sessions, stops, kills and crashes, disk and running session stay sound |
| `Sessions.CommittedIsSource` | internal/engine/receiver.go:1080-1199 | over every history, an open gate, a queued file, a detached part and a published file all mean the source's chunks |
| `Sessions.PublishedFile` | internal/engine/receiver.go:1124-1199 | the published file is the source's content byte for byte |
| `Sessions.ResumeSkipsOnlySource` | internal/engine/receiver.go:564-662 | every sidecar on disk records only the source's hashes, and a later trusted resume skips only source chunks |
| `Sessions.CleanResumeKeeps` | internal/engine/receiver.go:809-871 | after a clean flush a resume keeps every saved chunk except zero chunks that were sent as data |
| `Savings.DiskFollows` | internal/engine/receiver.go:1584-1613 | a delta session touches neither part nor sidecar, a new part meets no old sidecar, a save leaves nothing to save, and after a publish or an abort no session can resume |
| `Savings.NewFilesSkipZeros` | internal/engine/receiver.go:1012-1024 | a new file has nothing to save and skips zero chunks; one opened over older bytes writes them out |
| `Savings.HistoryForgetsNothing` | internal/engine/receiver.go:1584-1613 | over every history a running session with nothing left to flush, its part open, has all it has recorded in a sidecar on disk that the next resume trusts |
| `Savings.MarkedSurvivesResume` | internal/engine/receiver.go:1026-1078 | after any history a chunk that is marked, saved, left by a stop and resumed under the same identity is there, zero chunks sent as data aside |
| `Savings.FlushedOnce` | internal/engine/receiver.go:1584-1613 | a flush leaves nothing to flush |
| `Liveness.BusyCanMove` | internal/engine/sender.go:787-854 | as long as anything is queued, in flight or owed, some step is possible |
| `Liveness.QuiescentIsSettled` | internal/engine/receiver.go:1080-1091 | when nothing more can happen the file is settled, and without an error the source is in place |
| `Liveness.StepKeepsLively` | internal/engine/sender.go:512-576 | every chunk the receiver lacks stays queued, in flight or asked for, also when corrections overtake the verdict |
| `Progress.StepSpends` | internal/engine/receiver.go:1517-1534 | every step spends some of a measure fixed by the state |
| `Progress.RunsAreFinite` | internal/engine/sender.go:717-741 | a run has no more steps than the measure it starts with |
| `Progress.MaximalRunsSettle` | internal/engine/receiver.go:1080-1199 | a run that can go no further has settled the file |
| `Progress.FaultFreeRunsDeliver` | internal/engine/receiver.go:1080-1199 | if nothing went wrong it has put the source in place |
| `Delivery.OpenedIsLively` | internal/engine/receiver.go:504-664 | whatever sessions came before, an opened file starts out sound with nothing lost |
| `Delivery.RunSpendsBudget` | internal/engine/sender.go:717-741 | a chunk is sent no more often than its first task and the retries left for it |
| `Delivery.SparedNeverSent` | internal/engine/sender.go:787-854 | a chunk the sender's final bitmap spares is never sent |
| `Delivery.FinalIsExact` | internal/engine/sender.go:492-576 | over every run the bitmap the sender ends up with is exactly what it was sent, less the claims its source did not uphold |
| `Delivery.HadIsSpared` | internal/engine/sender.go:492-634 | over every run a chunk the receiver told it has never goes out, if the source upholds the claim where it is one |
| `Delivery.NothingAfterTheEnd` | internal/engine/sender.go:787-928 | a file that is over at the sender gets no more tasks and no chunk of it goes out |
| `Outcomes.OpenedFilesAreDelivered` | internal/engine/sender.go:717-741 | after any history, every run of an opened file is bounded, sends no chunk more than four times and no spared one, and ends with both sides settled, the source in place unless a failure was reported, and a sender that counts the file as delivered right |
| `Outcomes.SenderIsToldTheTruth` | internal/engine/receiver.go:1420-1441 | over every run each result on its way is true: success only with the source in place, failure only when the receiver failed the file; and when nothing more can happen the sender has been told |
| `Outcomes.GateQueuesOnce` | internal/engine/receiver.go:1077-1090 | over any run the gate queues the file for the finalizer at most once, and exactly when a check first finds it open |
| `Outcomes.SettledHearsNothing` | internal/engine/receiver.go:1494-1513 | a verdict for a file that is settled or adopted nothing has no effect |
| `Outcomes.ReceivedIsKept` | internal/engine/receiver.go:1494-1513 | over any run a chunk received is never given up: only adopted bits can be withdrawn, and only while the file is open |
| `Outcomes.NothingStaysOpen` | internal/engine/receiver.go:1124-1196 | over every run no settled file keeps its part open, and when nothing more can happen the part is closed |
| `Outcomes.StepSpeaks` | internal/engine/sender.go:745-773 | every step takes the head of a control channel or adds to its end, and the receiver is told of a failure exactly when the sender fails the file itself |
| `Outcomes.OutcomeStands` | internal/engine/sender.go:652-773 | over every run the sender's first outcome stands, and the receiver is told of a failure at most once and only if the file ends failed |
| `Outcomes.ThreeErrorsAreMended` | internal/engine/receiver.go:1517-1534 | with no chunk coming back more than three times, a readable source and a part that can be put into place, a run that can go no further has delivered the file and both sides know |
| `RxFiles.RehashPart` | internal/engine/receiver.go:809-871 | the loop over the part leaves exactly the re-hashed or rebuilt ledger |
| `RxFiles.HashInto` | internal/engine/receiver.go:690-715 | hashing a final file gives the ledger a rebuild gives |
| `RxFiles.CollectClaims` | internal/engine/receiver.go:763-775 | the claim list is one digest per set bit in bit order |
| `RxFiles.RxFile.TakeSnapshot` | internal/engine/receiver.go:999-1011 | a chunk is dropped exactly when the file is settled, the part gone, or the chunk a duplicate of a non-adopted file |
| `RxFiles.RxFile.Record` | internal/engine/receiver.go:1026-1032 | the closing critical section marks the chunk and notes the arrival |
| `RxFiles.RxFile.QueueIfComplete` | internal/engine/receiver.go:1080-1091 | a file is queued for the finalizer once, when its gate is open |
| `RxFiles.RxFile.Commit` | internal/engine/receiver.go:1473-1490 | a commit resolves the claims, and queues a complete file |
| `RxFiles.RxFile.TakeClaimResult` | internal/engine/receiver.go:1494-1513 | refused claims lose bit and hash unless they arrived; the claims are resolved |
| `RxFiles.RxFile.CountRetry` | internal/engine/receiver.go:1517-1534 | three retries a chunk, then the file fails |
| `RxFiles.RxFile.FlushSidecar` | internal/engine/receiver.go:1584-1613 | what is saved is the ledger without unresolved claims |
| `RxFiles.RxFile.PublishPart` | internal/engine/receiver.go:1124-1199 | the finalizer's three outcomes |
| `TxFiles.MissingIsComplement` | internal/engine/sender.go:787-854 | the missing list holds every clear bit once, ascending, and nothing else |
| `TxFiles.TxFile.VerifyClaims` | internal/engine/sender.go:582-634 | both passes leave exactly the surviving bits and return how many were cleared |
| `TxFiles.TxFile.SchedulePass` | internal/engine/sender.go:787-854 | one pass queues the next missing chunks while the channel has room, and stops at one it could not queue |
| `TxFiles.ScheduleAll` | internal/engine/sender.go:787-854 | over any number of passes, however full the channel, each missing chunk is queued once and in order |
| `TxFiles.TxFile.RequestRetry` | internal/engine/sender.go:717-741 | a retry takes a fresh reference or fails the file |
| `TxFiles.TxFile.TakeResult` | internal/engine/sender.go:652-700 | the receiver's outcome counts once |
| `TxFiles.TxFile.TaskDone` | internal/engine/sender.go:1025-1051 | the last task out of a settled file closes the descriptor; the last one of an unsettled, fully scheduled file fails it exactly when the source has another size or mtime |
| `SourceFds.NoReadAfterClose` | internal/engine/sender.go:702-715 | in every interleaving a reading task has an open descriptor, and a settled idle file does not keep it open |
| `SourceFds.UnsettledTasksRead` | internal/engine/sender.go:930-960 | a task of an unsettled file goes on to read it exactly when the descriptor is open or can be opened |
| `SourceFds.SettledTasksPass` | internal/engine/sender.go:930-960 | a task of a settled file does not look at the descriptor |
| `SourceFds.ReadersFinish` | internal/engine/sender.go:1025-1051 | a reader gives its reference back, and the last one out of a settled file closes the descriptor |
| `SourceFds.SettledFilesClose` | internal/engine/sender.go:702-715 | settling an idle file closes its descriptor, and leaves one that tasks refer to |
| `SourceFds.DescriptorGoesOneWay` | internal/engine/sender.go:702-715 | the descriptor is opened once, by a task that has seen the file unsettled, closed once and only when the file is settled |
| `Spools.WriteTurnAppends` | internal/relay/spool.go:49-131 | a turn of Write appends to the queue, within the limit, or fails and takes nothing |
| `Spools.WriteAnswers` | internal/relay/spool.go:49-131 | exactly when a turn of Write spills, fails, and how much it takes and where to |
| `Spools.ReadTurnDequeues` | internal/relay/spool.go:134-163 | a read takes the head of the queue and leaves a sound spool holding the rest exactly when the file ends at the last write or less is asked for; otherwise it gives out more than is held |
| `Spools.ReadTurnSound` | internal/relay/spool.go:134-174 | a read that fits takes the head of the queue, file before memory; it waits or ends only on an empty queue, and a file that cannot be read fails the spool |
| `Spools.EmptyReadAnswers` | internal/relay/spool.go:157-174 | a read that finds nothing answers the end exactly when writing was closed, an error exactly when it was not and the spool has failed, and waits otherwise |
| `Spools.DrainedIsReleased` | internal/relay/spool.go:134-151 | a read that drains the file gives its space back and starts it again |
| `Spools.FullIsReadable` | internal/relay/spool.go:49-70 | a blocked writer always has a reader's turn that unblocks it |
| `Spools.SpoolIsFifo` | internal/relay/spool.go:49-221 | over every run whose reads fit the bytes read are a prefix of the bytes accepted, the rest is held, and never more than a positive limit |
| `Spools.FifoIffReadsFit` | internal/relay/spool.go:134-221 | from a fresh spool, over every run and whichever truncations and reads of the file fail, delivered stays a prefix of accepted exactly when every read fits |
| `Spools.OnlyWritersWait` | internal/relay/spool.go:49-174 | in every state a run reaches anything is possible but a write that must wait |
| `Spools.FlagsAreEarned` | internal/relay/spool.go:177-204 | over every run the end is remembered exactly from a close on, and a failure comes only from an operation that can break the spool, and stays |
| `Spools.ReaderIsToldWhy` | internal/relay/spool.go:134-174 | over every run whose reads fit a reader is told the end exactly after a close, and without a failure it has then been given everything accepted |
| `Spools.MemoryIsBounded` | internal/relay/spool.go:76-84 | with a directory memory holds no more than the threshold and one write; nothing is spilled before that much was written, or without a directory |
| `Spools.TruncatedReadsFit` | internal/relay/spool.go:216-221 | while truncations succeed every read fits |
| `Spools.IgnoredTruncationRepeatsBytes` | internal/relay/spool.go:216-221 | with an ignored truncation error a run delivers a byte twice |
| `Spools.SpoolBuf.Write` | internal/relay/spool.go:49-100 | the loop appends what it reports and stops short only when full or failed |
| `Spools.SpoolBuf.Read` | internal/relay/spool.go:134-174 | one read is one turn of the model, errors of the spill file included |
| `Records.WriteAllPlains` | internal/relay/e2ee.go:213-246 | Write seals exactly the bytes it was given, in order; on a failure what it reports and the one record that failed |
| `Records.WriteAllSends` | internal/relay/e2ee.go:213-246 | the connection gets the sealed records, all of them or all but a last failed one |
| `Records.NonceReuse` | internal/relay/e2ee.go:227-230 | two records share a nonce exactly when their indexes differ by a multiple of 2^64 |
| `Records.TakenIsSealed` | internal/relay/e2ee.go:261-287 | whatever the network hands over, an opened record is the one its counter names, and newer than the last |
| `Records.OpensIff` | internal/relay/e2ee.go:261-287 | a record opens exactly when what comes next is a sealed record newer than the window, and the reader then stands right behind it |
| `Records.OthersAreSteppedOver` | internal/relay/e2ee.go:261-287 | a forged or repeated record costs only itself, an implausible length only its header, a broken-off record is never half used |
| `Records.OnlySealedBytes` | internal/relay/e2ee.go:248-293 | against any network the application gets an in-order, repeat-free selection of the sealed records |
| `Records.HonestChannel` | internal/relay/e2ee.go:213-293 | on an honest channel any write and read sizes give back a prefix of the bytes written, and all of them once nothing waits |
| `Records.RecordConn.Write` | internal/relay/e2ee.go:213-246 | the loop seals and sends what the model says |
| `Records.RecordConn.Read` | internal/relay/e2ee.go:248-293 | one read is one step of the model; only an opened record moves the window |
| `Wire.LittleCanonical` | internal/protocol/protocol.go:276-279 | fixed-width bytes are the encoding of their own value |
| `Varints.UvRoundTrip` | internal/protocol/protocol.go:280-280 | a 64-bit value reads back from its varint whatever follows, at its exact length |
| `Varints.ReadUvFits` | internal/protocol/protocol.go:354-365 | every accepted varint fits 64 bits |
| `Varints.PrefixUnread` | internal/protocol/protocol.go:354-365 | a strict prefix of a varint is refused |
| `Varints.CanonicalIffNoPadding` | internal/protocol/protocol.go:354-365 | accepted bytes are the canonical form exactly when they do not end in a needless zero byte |
| `Varints.LongFormAccepted` | internal/protocol/protocol.go:354-365 | every value with room for it has a longer form that is accepted |
| `Varints.ZigZag` | internal/protocol/protocol.go:281-281 | zigzag is a bijection between the signed and the unsigned 64-bit values |
| `Varints.Uvarint` | internal/protocol/protocol.go:354-365 | the shifting loop reads what the format says, and reports nothing else as a value |
| `Codec.CharsRound` | internal/protocol/protocol.go:286-289 | a string reads back, whatever follows |
| `Codec.CharsShort` | internal/protocol/protocol.go:380-396 | a strict prefix of a string sets the error |
| `Codec.Decoder.TakeChars` | internal/protocol/protocol.go:380-396 | the cursor moves past the string or remembers the error |
| `Messages.EntryRoundTrip` | internal/protocol/messages.go:134-219 | an entry followed by anything reads back at its exact length exactly when its kind is known, its chunk size fits 32 bits and it has at most 1024 xattrs |
| `Messages.EntryTruncated` | internal/protocol/messages.go:169-219 | every strict prefix of an entry is refused |
| `Messages.BatchRoundTrip` | internal/protocol/messages.go:222-249 | a batch reads back exactly when it has at most 4096 entries and each is encodable |
| `Messages.BatchTruncated` | internal/protocol/messages.go:232-249 | a batch cut anywhere is refused |
| `Messages.HaveRoundTrip` | internal/protocol/messages.go:306-341 | a have-bitmap reads back exactly when it has at most 2^20 hashes |
| `Messages.HaveTruncated` | internal/protocol/messages.go:319-341 | a have-bitmap cut anywhere is refused, also inside a hash |
| `MessageBuffers.EncodeEntryBytes` | internal/protocol/messages.go:134-167 | the encoder's appends give the format |
| `MessageBuffers.DecodeEntryBytes` | internal/protocol/messages.go:171-219 | the decoder with its sticky error decides what the format decides |
| `MessageBuffers.DecodeBatchBytes` | internal/protocol/messages.go:232-249 | so does the batch loop |
| `MessageBuffers.DecodeHaveBytes` | internal/protocol/messages.go:319-341 | so does the hash loop |
| `ChunkFrames.FrameRoundTrip` | internal/protocol/data.go:95-172 | a frame reads back exactly when its payload is within bounds and only a zero chunk is empty |
| `ChunkFrames.FrameTruncated` | internal/protocol/data.go:130-172 | a frame cut anywhere is refused |
| `ChunkFrames.SummedRoundTrip` | internal/protocol/data.go:176-224 | a summed frame reads back and its honest checksum is accepted |
| `ChunkFrames.StreamRoundTrip` | internal/protocol/data.go:95-224 | any sequence of plain and summed frames reads back as the same headers and bodies |
| `ChunkFrames.DataStream.WriteChunkSummed` | internal/protocol/data.go:188-224 | coalesced or not, the same bytes are written |
| `ChunkFrames.DataStream.ReadChunk` | internal/protocol/data.go:130-172 | one read takes one frame of the format |
| `Pickers.RunsStaySound` | internal/relay/swarm_picker.go:41-110 | over every run each task is done, pending, in flight or reported fatal; inflight counts the workers; a task completes first once |
| `Pickers.AllDoneMeansAll` | internal/relay/swarm_picker.go:112-116 | the count says done exactly when every task is |
| `Pickers.RefusalMeansFatal` | internal/relay/swarm_picker.go:41-67 | a worker is turned away early only after a fatal report |
| `Pickers.RarestFirst` | internal/relay/swarm_picker.go:41-67 | a worker is given a pending task announced by the fewest peers, with none pending any task in flight, and once all are done nothing |
| `Pickers.WorkIsBounded` | internal/relay/swarm_picker.go:72-110 | first completions and retries never exceed tasks times the ceiling |
| `Pickers.ReportKeepsCeiling` | internal/relay/swarm_picker.go:72-110 | one report keeps first completions plus counted failures of a task within the ceiling exactly when the task was not reported fatal |
| `Pickers.CeilingHoldsIff` | internal/relay/swarm_picker.go:72-110 | over every run a task is within the ceiling exactly when nothing about it was reported after a fatal report |
| `Pickers.FailuresAreBounded` | internal/relay/swarm_picker.go:72-110 | then first completions plus counted failures never exceed tasks times the ceiling |
| `Pickers.FailuresPassTheCeiling` | internal/relay/swarm_picker.go:92-110 | a run from a fresh picker with one task and two workers exceeds it |
| `Pickers.LivePicker.Pick` | internal/relay/swarm_picker.go:41-67 | a rarest pending task, else any task in flight, else a refusal |
| `Pickers.LivePicker.Complete` | internal/relay/swarm_picker.go:72-88 | true for the first completion only |
| `Pickers.LivePicker.Fail` | internal/relay/swarm_picker.go:92-110 | back to pending, or fatal at the ceiling, or nothing for a task already done |
| `Swarm.HashFileChunks` | internal/relay/swarm_peer.go:119-148 | streaming once through a bounded buffer gives the whole hash and the catalog of the grid, or an error on a shorter file |
| `Swarm.OnlySeedVerifies` | internal/relay/swarm_join.go:216-225 | against a seed's catalog exactly the seed's bytes verify |
| `Swarm.LocalChunks` | internal/relay/swarm_join.go:492-539 | with a final file of the right size and hash everything is here; else a chunk is kept exactly when it can be read whole from the part and verifies |
| `Swarm.KeptIsSeed` | internal/relay/swarm_join.go:492-539 | a final file is good exactly when it is the seed's, and a chunk of a part is kept exactly when the part holds the seed's bytes there |
| `Parts.OpeningKeeps` | internal/relay/swarm_join.go:545-569 | opening a part for writing changes no chunk's bytes, and once truncated to its size the part goes on to every chunk's end |
| `Parts.PutKeepsOthers` | internal/relay/swarm_join.go:570-576 | a write of one chunk, whole or cut short, into a part of any length changes no other chunk and takes none away |
| `Parts.PutHolds` | internal/relay/swarm_join.go:570-576 | a whole write leaves its chunk, and a cut one over the same bytes does no harm |
| `Swarm.FetchWithRetry` | internal/relay/swarm_join.go:396-448 | what comes back verifies and is from the HTTP source or a peer nobody had banned by then, only liars are banned, here or by other workers meanwhile, and after a failed fetch all of them are; a fetch fails only when nobody unbanned had the chunk, and is cancelled only when its context was |
| `Assembly.ScanFiles` | internal/relay/swarm_join.go:256-276 | the scan of the destination gives the step system its start: each chunk that is not here becomes a task once, the others are offered |
| `Assembly.FetchChunk` | internal/relay/swarm_join.go:336-347 | what a fetch comes to is a step of the step system |
| `Assembly.StepStays` | internal/relay/swarm_join.go:313-372 | every step of any worker keeps the invariant |
| `Assembly.OfferedIsSeed` | internal/relay/swarm_join.go:545-576 | every chunk offered to peers is the seed's, and no task is written twice |
| `Assembly.FinishedIsSeed` | internal/relay/swarm_join.go:313-372 | from absent parts, parts of any length and any final files: when all workers have stopped without a fatal error, cancelled or not, every chunk is the seed's exactly when each unfinished task's chunk held the seed's bytes at the start, zeros past the old end, and the part has come to go on to its end |
| `Assembly.UnwrittenIffOpened` | internal/relay/swarm_join.go:545-576 | while truncations succeed the part goes on to an unfinished chunk's end exactly when it was opened for writing or did so at the start |
| `Assembly.DoneIsSeed` | internal/relay/swarm_join.go:313-372 | with all tasks done every chunk is the seed's |
| `Assembly.CancelledJoinsCanBeSeed` | internal/relay/swarm_join.go:313-372 | the converse fails: a run over an absent part that is cancelled with a task left and the seed in place |
| `Assembly.UncancelledIsDone` | internal/relay/swarm_join.go:313-372 | a join the caller does not cancel either reports a fatal error or has done all tasks and holds the seed's chunks |
| `Assembly.PartIsSeed` | internal/relay/swarm_join.go:545-576 | a part with the seed's chunks is the seed's file |
| `Audit.ReadsPast` | internal/audit/audit.go:142-172 | full lines read back whatever follows them |
| `Audit.ReadsBack` | internal/audit/audit.go:142-172 | and a partial line after them is a torn tail |
| `Audit.CrashRunsVerify` | internal/audit/audit.go:47-111 | over opens, appends, short writes and crashes at any byte, Verify reports exactly the full entries with no break, numbered from 1 exactly when no line followed a missed number |
| `Audit.RefusedIffUnreadable` | internal/audit/audit.go:66-78 | Open refuses exactly when some complete line cannot be read |
| `Audit.RefusedIffWrittenAfterShort` | internal/audit/audit.go:47-111 | over every such run Open refuses exactly when a whole line was written after a short write of at least one byte on the same open journal |
| `Audit.RefusedIffBuried` | internal/audit/audit.go:66-85 | otherwise it cuts the file to its full lines and resumes at the last of them |
| `Audit.ShortWriteLosesJournal` | internal/audit/audit.go:98-110 | there is such a run for every format |
| `Audit.FormatsExist` | internal/audit/audit.go:98-127 | the assumptions on line codec and hash can be met |
| `Audit.TamperEvidence` | internal/audit/audit.go:121-192 | two verified journals end in the same hash exactly when they are the same journal |
| `Audit.OnlyPrefixesVerify` | internal/audit/audit.go:176-192 | of the journals made of a verified journal's entries in any way, exactly its beginnings verify |
| `Audit.DeletedBlockVerifies` | internal/audit/audit.go:176-192 | deleting a block goes unnoticed exactly when it is empty or at the end |
| `Audit.ReadAllValid` | internal/audit/audit.go:142-172 | the loop returns the intact prefix, its length and whether the rest is torn |
| `Audit.Verify` | internal/audit/audit.go:176-192 | the walk counts the intact entries and reports a break exactly when there is one |
| `Audit.JournalFile.Open` | internal/audit/audit.go:47-85 | a torn tail is cut off; a refusal leaves the file unchanged |
| `Mesh.ReachesNewest` | internal/cli/mesh.go:162-204 | from a positive version, a node ends at the newest of its own version and the genuine envelopes it could save |
| `Mesh.NewestIsMaximum` | internal/cli/mesh.go:165-170 | that is a maximum, so order, loss and repetition do not matter |
| `Mesh.LocalNamesSurvive` | internal/cli/mesh.go:181-196 | names no envelope carries keep their local value |
| `Mesh.AppliedIff` | internal/cli/mesh.go:157-180 | each answer to an envelope exactly when: applied when signed with the pinned key, newer, fresh enough and saved; anything else leaves the node as it was |
| `Mesh.AppliedByName` | internal/cli/mesh.go:181-204 | after an applied envelope a name has the envelope's endpoint if it is carried, none if it was managed and is not, and else its old one |
| `Mesh.RevokedNamesGo` | internal/cli/mesh.go:181-192 | a name the mesh has managed is held only while it is managed, whatever is delivered |
| `Mesh.NodesReceive` | internal/cli/mesh.go:157-204 | each node of a run is where its own deliveries bring it |
| `Mesh.OwnEnvelopeIsCurrent` | internal/cli/mesh.go:311-340 | a publish lets out what it read under the next version, and its node takes that envelope for the one it has |
| `Mesh.VersionsAreUnique` | internal/cli/mesh.go:276-346 | with crashes anywhere in publish, and every publish working from the config on disk or one with nothing newer let out since, no two envelopes share a version |
| `Mesh.ActKeepsRising` | internal/cli/mesh.go:276-346 | one act keeps the versions ascending exactly when it lets nothing out, or nothing out is newer than what it works from |
| `Mesh.VersionsRiseIff` | internal/cli/mesh.go:276-346 | over every run of publishes, re-read or not and crashing anywhere, the versions let out ascend exactly when each publish that lets one out works from a version nothing out is newer than |
| `Mesh.NodesAgree` | internal/cli/mesh.go:181-204 | whenever the versions let out ascend, nodes at the same version agree on the managed names and their endpoints; names the mesh once managed on a node and no longer does are gone from it |
| `Mesh.StaleReadRepeatsVersion` | internal/cli/mesh.go:282-289 | when the re-read fails, a node that has published an edit since its first read lets out the same version with other endpoints |
| `Mesh.CrashedStaleReadRepeatsVersion` | internal/cli/mesh.go:282-340 | such a publish that crashes after its save is enough: the next ordinary one repeats a version |
| `Mesh.ConfigFile.Apply` | internal/cli/mesh.go:149-204 | the checks in their order and the merge loops |
| `Cloak.MaskUndone` | internal/cloak/cloak.go:226-232 | masking twice is no masking |
| `Cloak.MaskedByBits` | internal/cloak/cloak.go:226-232 | each masked byte differs from the plain one in exactly the bits of the mask byte of its position |
| `Cloak.BitsDecide` | internal/cloak/cloak.go:226-232 | bytes with the same bits are the same byte, so the masked byte is settled by its bits |
| `Cloak.ServedIff` | internal/cloak/cloak.go:257-318 | bytes are served exactly when they are the payload of a whole data frame that is final, not too long and, towards a server, masked; any length form |
| `Cloak.DrainedIff` | internal/cloak/cloak.go:257-307 | a frame is drained exactly when it is a whole ping or pong |
| `Cloak.ClosedIff` | internal/cloak/cloak.go:257-302 | the stream ends exactly at the head of a close frame; every other input is refused |
| `Cloak.FrameReadsBack` | internal/cloak/cloak.go:202-318 | a frame reads back on the other side in all three length forms |
| `Cloak.StreamIsFaithful` | internal/cloak/cloak.go:184-320 | any writes, masked or not, read in any sizes past control frames, give back the byte stream |
| `Cloak.WsConn.MaskInPlace` | internal/cloak/cloak.go:226-232 | the in-place loop masks every byte with the mask byte of its position |
| `Cloak.WsConn.Write` | internal/cloak/cloak.go:184-235 | one frame per MiB of the bytes written |
| `Cloak.WsConn.Read` | internal/cloak/cloak.go:237-320 | control frames are skipped, a close ends the stream, anything else is the next payload |
| `Broker.PairingIsExclusive` | internal/relay/broker.go:144-226 | a slot leaves the table once, its channel is sent to or closed once at most, and its offer is paired with the taker that took it and no other |
| `Broker.OffersAreParked` | internal/relay/broker.go:144-164 | an offer is parked exactly when the table has room and its id is free, and every slot in the table belongs to a handler that has not left |
| `Broker.ExitIsTheTake` | internal/relay/broker.go:188-200 | a slot names a taker only by that taker's take of it |
| `Broker.TakersPairOnce` | internal/relay/broker.go:171-215 | no taker is paired with two offers |
| `Broker.RemoveDropsOnlyItsOwn` | internal/relay/broker.go:219-226 | clean-up never drops a newer slot under the same id |
| `Broker.HandOverHasRoom` | internal/relay/broker.go:208-215 | the taker always finds room in the channel |
| `Broker.PairedIffParked` | internal/relay/broker.go:171-215 | a taker that hands over can be paired exactly when the offer's handler is parked at that moment |
| `Broker.HandedToNobody` | internal/relay/broker.go:171-215 | there is a run in which it is not |
| `Broker.Slots.Sweep` | internal/relay/broker.go:80-90 | exactly the stale slots leave the table |
| `Broker.Slots.Remove` | internal/relay/broker.go:219-224 | the slot goes unless it was consumed or replaced |
| `Handshakes.AcceptedIsItsBytes` | internal/protocol/protocol.go:132-176 | an accepted handshake marshals to the bytes it was read from |
| `Handshakes.MarshalRead` | internal/protocol/protocol.go:132-176 | a handshake is accepted exactly with this major version, plain framing and known flags |
| `Handshakes.BindMeansUntouched` | internal/transport/transport.go:360-365 | distinct handshakes bind alike exactly when each peer saw what the other sent |
| `Handshakes.PeersBindAlike` | internal/transport/transport.go:324-333 | the same for what peers really bind, the handshakes they accepted |
| `Handshakes.NoSilentDowngrade` | internal/transport/transport.go:281-334 | a peer that asks for a layer never ends in plaintext, and equal bindings mean no field was changed |
| `Handshakes.SecureByFlags` | internal/transport/transport.go:281-318 | from the flag bits alone, exactly when a connection is plaintext, wrapped or refused |
| `Handshakes.HonestPeersWrap` | internal/transport/transport.go:281-334 | honest peers with matching layers and nothing touched both end wrapped with one binding |

## Left out

- Size-only resume, dry runs, peers without claim acknowledgement, and the "all skip" answer: commit safety is not meant to hold for them or is immediate.
- Empty files, hardlinks, directories, symlinks, attributes, deletion of extra files: no chunk protocol behind them.
- Several parts for one destination, their discovery by nonce and their locks: one part and one sidecar per path.
- Chunk requests from a receiver (mesh mode): only their effect on the sender's descriptor is modelled, in `SourceFds`.
- Exact credit of the sender's gate window, and the receiver's count of resolved files: `senderFileError` counts without a test.
- `Protocol`'s scheduler takes one look at the head of one file's backlog per step; the round robin over files and the channel's capacity are in `TxFiles` only.
- Part contents after a crash or a change of size are arbitrary, which is more than a file system does.
- `Messages.EntryRoundTrip`: the fields an entry of one kind does not carry are not part of its model, so the struct's unused fields are not spoken of.
- The other control messages: each is a sequence of the primitives proved in `Codec`.
- `Spools.SpoolBuf.Read`: `Finish`, the signalling between reader and writer, and what `Fail` followed by `CloseWrite` reports are not modelled.
- The key exchange, the confirmation tags and the key derivation of the record layer; `Handshakes` covers what they bind.
- Cancellation inside a fetch: `Swarm.FetchWithRetry` models it, `Assembly` lets any fetch fail at any time.
- Files of one artifact that share a path: `Assembly` takes one part per file.
- `Assembly.FinishedIsSeed`: does not say that a join ends, and the final whole-file hash, rename and the serving side are not modelled.
- `Audit.JournalFile.Append`: an error of fsync after a full write is not distinguished from success.
- `Mesh.VersionsAreUnique`: for one owner whose node has its own key pinned; minting a key and owners that share one are not modelled.
- The broker's pipes, replies and logs; `Broker.PairingIsExclusive` is about slots and wake channels.
- Compression, discovery, HTTP, the terminal interface, flag parsing, self-update, metrics, rate limits, deadlines, multiplexing.
