# Verified model of auditlogd

`auditlogd` reads a database change log, groups it into transactions, turns
audited row changes into records, batches the records under a Merkle tree with
a signed root, stores them with a resume position, and later moves old batches
to a write-once archive. This project models that path in Dafny 4.11 and proves
what it guarantees. `dafny verify dfyconfig.toml` checks all of it.

## Main results

1. **Merkle tree.** The bottom-up loop with promotion of a lone last node
   computes the tree hash of section 2.1 of RFC 6962 for every list of leaves,
   the generated proofs are the audit paths of section 2.1.1, and every one is
   accepted (`PairTree`, `Merkle`).
2. **Soundness without assuming an injective hash.** If any proof is accepted,
   the leaf is at an index and the proof is the generated one, or `Explain`
   returns two different inputs with the same hash. The root commits to the
   whole list in the same sense (`Soundness`). The record verifier answers Valid
   only for a record the signed root vouches for, in this sense (`Verifier`).
3. **The running system.** Appends, closes, steps of the tiering job and crashes
   are actions of one state machine (`System`), in any order, every failure of
   encoder, signer, store and archive included. In every reachable state: closed
   batches followed by the open buffer are the records handed in, and every
   record in the hot store verifies exactly if its key version is known
   (`Guarantees`). Tiering loses nothing, and an archived batch stays provable
   from its archive object, unless a close writes a record into a batch the job
   has read already (`Moving`); each such close can lose the record
   (`LosesIffOutrun`). The retention job is a run of that machine (`Tiering`).
4. **Log reading.** Reading undoes rendering exactly if no autocommit statement
   follows an unfinished transaction (`Grouping`), and a restart at the position
   of any reported transaction reports exactly the later ones, across file
   rotations (`LogFiles`).
5. **Transactions.** Where the processing of a transaction stops, and with what
   error, is settled by the state before it and by what its closes meet; all
   audited changes are recorded exactly if each can be built and every close
   triggered before the last one succeeds (`Pipeline`). Running the processor is
   a work of the daemon (`Daemon`, `Recovery`), which is interleaved with the
   timer, flushes and the tiering job at every step.
6. **Crash and resume.** For any number of crashes at any points, whatever runs
   beside the daemon and whatever fails, what has been persisted is, of each
   transaction up to some point, one record of each of the first so many audited
   changes, in order. They are all of them exactly if no life left a transaction
   early, because a change could not be built or its own close failed, and every
   checkpoint fell on the last audited change of a transaction. The store holds
   these records and no others, each under an id of its own, but for the batches
   the tiering job has purged (`Selection`, `Persisting`, `Resume`, `Recovery`).

7. **Records.** A record says what its change was, who made it and what the rows
   were: the changes read from the log are those of the statements' edits
   (`Binlog`), attribution follows the first named actor or the table's policy
   (`Attribution`), and the images of a record, decoded and opened, are those of
   the change, with an exact condition (`Snapshot`, `Encryption`).

Smaller parts: configuration cache (`Config`), alert rate limiting (`Alerting`).

## Where the code does less than its documentation says

- RUNBOOK.md:108 promises no duplicate and no skipped records after a restart.
  There are no duplicates. Skipped records are possible: a batch can close in
  the middle of a transaction, and its row stores the position of the whole
  transaction (internal/pipeline/pipeline.go:104). `ChangeIsSkipped` is such a
  run; `NothingSkipped` says exactly when nothing is skipped.
- When a close fails while a record is being added, the rest of that
  transaction is not recorded (internal/pipeline/pipeline.go:104-106, 127-129).
  `DropTail` runs the processor on such a transaction; `AllRecordedIff` says
  exactly when all of a transaction is recorded. A change that cannot be built ends its
  transaction in the same way (internal/pipeline/pipeline.go:80-82).
- If a close wrote the batch but not its checkpoint, and the job reads that
  batch before the close is retried with more records, those can be lost.
  `OverlapLosesRecord` is such a run, `PassKeepsIff` says exactly which records
  a pass keeps, and `LosesIffOutrun` exactly which closes do harm.
- A text in an unencrypted column that looks like an encrypted one is opened by
  the reader (`LookalikeIsOpened`); `RowRoundTrip` has the exact condition.
- Changing the `table_name` of a configuration row leaves the old entry in the
  cache (`EditAgreesIff`).

## How it is modelled

- SHA-256 is a function parameter `H` with 32-byte results, and nothing else is
  assumed of it. JSON, signatures, AES and base64 are function parameters with
  round-trip assumptions stated as predicates (`SignaturesCheck`,
  `LinesReadBack`, `RoundTrips`).
- The store is `MemoryStore`; map iteration order is arbitrary. `CreateBatch`
  may also fail as a whole, as the SQL store's transaction does.
- Each locked region of the batcher is one action, and between the two regions of
  one `AddRecord` anything else may happen. The classes `Batcher`,
  `MemoryStore`, `LocalDirArchiveStore`, `Service`, `BinlogSource`, `Manager`,
  `Processor` and `Dispatcher` are updated in place and are proved against the
  functions the state machine is made of.
- Closing a batch encodes every record to hash it. That such a record also encodes
  as an archive line is an assumption (`HashedMeansWritable`) where tiering is
  said to lose nothing; the job reports a record that does not, skips it and
  purges it (internal/tiering/tiering.go:70-77, `PassKeepsIff`).
- What is drawn at random while a record is built, as the nonces of encrypted
  columns, is a parameter of each record. A change read again after a crash may
  come to another record, so the resume argument matches records to changes by
  the relation `CanBe`.
- Clocks, random ids, file-system outcomes and the delivered events are
  parameters. Times are natural numbers. `sort.Slice` is an insertion sort.
- Archive objects are keyed by what they are (`ObjectKey`); `PathsDiffer` shows
  that their paths differ too.

## Model

| member | source | states |
|---|---|---|
| `PairTree.SplitPoint` | internal/merkle/tree.go:80-121 | the RFC 6962 split k of n satisfies k < n <= 2k |
| `PairTree.SplitPointIsPow2` | internal/merkle/tree.go:80-121 | the split is a power of two, hence the largest one below n |
| `PairTree.CeilLog2Bounds` | internal/merkle/tree.go:97-114 | the exponent used for levels is the smallest e with n <= 2^e |
| `PairTree.PathLeadsToRoot` | internal/merkle/tree.go:171-191 | walking an audit path from its leaf ends at the root |
| `PairTree.NextLevelSplit` | internal/merkle/tree.go:103-111 | pairing a level treats the parts before and after an even index separately |
| `PairTree.PairingKeepsFold` | internal/merkle/tree.go:101-114 | one round of pairing, lone node promoted, leaves the RFC tree hash unchanged |
| `PairTree.PathStep` | internal/merkle/tree.go:142-166 | the audit path is the sibling on this level, if any, then the parent's path one level up |
| `PairTree.LevelShape` | internal/merkle/tree.go:97-114 | there are ceil(log2 n) + 1 levels, of sizes LevelSize(n, k) |
| `PairTree.LevelSizeIsCeil` | internal/merkle/tree.go:101-114 | LevelSize(n, k) is n / 2^k rounded up |
| `PairTree.NodeCoversRange` | internal/merkle/tree.go:97-114 | node i of level k is the RFC hash of leaves i*2^k up to min((i+1)*2^k, n) |
| `PairTree.PathLength` | internal/merkle/tree.go:134-168 | a proof has at most ceil(log2 n) nodes |
| `Merkle.TreeHashIsRfc` | internal/merkle/tree.go:49-63 | over leaf hashes, the tree hash is the Merkle Tree Hash of section 2.1 of RFC 6962 of the data |
| `Merkle.PairUp` | internal/merkle/tree.go:102-111 | the inner loop produces the next level |
| `Merkle.BuildTree` | internal/merkle/tree.go:80-121 | for every list of leaf hashes, empty and odd ones included, the root is the RFC tree hash and the levels are kept |
| `Merkle.GenerateProof` | internal/merkle/tree.go:134-168 | in range the proof is the audit path of section 2.1.1 of RFC 6962, out of range the error |
| `Merkle.VerifyProof` | internal/merkle/tree.go:171-191 | accepts exactly if the walk ends at the expected root, byte for byte |
| `Merkle.ProofComplete` | internal/merkle/tree.go:134-191 | every generated proof leads from its leaf to the root and is at most ceil(log2 n) long |
| `Soundness.WalkIsClimb` | internal/merkle/tree.go:171-180 | the walk whose last hash input is named, which the collisions are built from, ends where the verifier's walk ends |
| `Soundness.InteriorInputSplits` | internal/merkle/tree.go:57-63 | the interior input has no lengths, but splits uniquely when one part has the same length on both sides |
| `Soundness.WalkExplained` | internal/merkle/tree.go:134-191 | a walk that ends at the root of a list is explained by an index and its path, or by a collision |
| `Soundness.ProofSound` | internal/merkle/tree.go:49-63 | an accepted proof is the generated one for an index holding exactly this data, or Explain returns a collision of H |
| `Soundness.RootCommits` | internal/merkle/tree.go:80-121 | two data lists with equal roots are equal, or Divergence returns a collision of H |
| `Records.ArchiveKeepsIffWritable` | internal/tiering/tiering.go:68-80 | a record given to the archive writer reads back from the object exactly if it encodes |
| `Records.JsonlReadsBack` | internal/tiering/tiering.go:68-80 | an archive object reads back, in file order, as the records that encode |
| `Records.ArchiveHoldsAll` | internal/tiering/tiering.go:68-80 | the object of a batch whose records were all hashed reads back as the whole batch |
| `Store.PutRecordsFiles` | internal/store/store.go:489-492 | with distinct ids each record of a created batch is found under its id |
| `Store.PutRecordsKeepsOthers` | internal/store/store.go:489-492 | records with other ids are untouched |
| `Store.ListingUnique` | internal/store/store.go:576-592 | for a stamped batch there is one listing, whatever order the map is iterated in |
| `Store.SortByLeafIndex` | internal/store/store.go:588-590 | the result is sorted by leaf index and has the same records |
| `Store.MemoryStore.constructor` | internal/store/store.go:474-480 | the store starts empty |
| `Store.MemoryStore.CreateBatch` | internal/store/store.go:482-494 | the row and all records are filed, replacing older ones under the same ids |
| `Store.MemoryStore.UpdateBatchStatus` | internal/store/store.go:507-520 | an unknown batch is an error and changes nothing; otherwise only status and, if given, object key change |
| `Store.MemoryStore.GetLatestCheckpoint` | internal/store/store.go:522-536 | the position of a batch that none was closed after; none for an empty store |
| `Store.MemoryStore.GetBatchesForTiering` | internal/store/store.go:538-550 | exactly the signed batches closed before the cutoff, each once |
| `Store.MemoryStore.GetRecordsByBatchID` | internal/store/store.go:576-592 | a complete listing of the batch in leaf order |
| `Store.MemoryStore.DeleteRecordsByBatchID` | internal/store/store.go:608-618 | exactly the batch's records are gone |
| `Store.MemoryStore.InsertWORMIndex` | internal/store/store.go:620-627 | the entry is filed under its batch |
| `Archive.PathsDiffer` | internal/archive/archive.go:47-58 | different objects have different paths |
| `Archive.LocalDirArchiveStore.WriteImmutable` | internal/archive/archive.go:62-109 | an existing object is an error and is never replaced, whatever fails; an error after the rename leaves the object in place |
| `Archive.LocalDirArchiveStore.PutCheckpoint` | internal/archive/archive.go:47-51 | writes the batch's checkpoint object once |
| `Archive.LocalDirArchiveStore.PutArchive` | internal/archive/archive.go:54-58 | writes the batch's archive object once |
| `Batching.Batcher.constructor` | internal/batch/batcher.go:64-89 | an empty buffer, and the default event limit for a non-positive one |
| `Batching.Batcher.AppendRecord` | internal/batch/batcher.go:117-125 | the record object is stamped with the open batch and its index and appended; says when the batch is full |
| `Batching.Batcher.HashRecords` | internal/batch/batcher.go:162-184 | the leaf hashes in order, or nothing if one record does not encode |
| `Batching.Batcher.PrepareBatch` | internal/batch/batcher.go:161-219 | the row with the RFC root over the buffer, its signature, times, position, bootstrap flag and table, and the key of its checkpoint object |
| `Batching.Batcher.PersistBatch` | internal/batch/batcher.go:221-247 | store first, then checkpoint; a failed checkpoint leaves the batch stored |
| `Batching.Batcher.ResetForNextBatch` | internal/batch/batcher.go:260-267 | a fresh batch is opened and the old buffer is the last closed batch |
| `Batching.Batcher.CloseCurrentBatch` | internal/batch/batcher.go:141-270 | buffer, store and archive after a close with any failure, and which error; on success the row made of the open batch is stored and a fresh batch without bootstrap flag is open, on error the open batch is untouched; closed batches plus buffer stay what was added |
| `Batching.Batcher.AddRecord` | internal/batch/batcher.go:116-131 | append, then a close exactly when the limit is reached, with that close's outcome, when nothing runs between the two |
| `Batching.Batcher.SetBootstrapMode` | internal/batch/batcher.go:99-104 | sets only the bootstrap flag and table |
| `Verifier.VerifyRecord` | internal/merkle/verifier.go:60-119 | error for an unknown record or batch; otherwise, for some listing of the batch, each verdict exactly under its condition, and Valid only for a record whose leaf data are in every list of records with the signed root, or with a hash collision at hand |
| `Verifier.VerifyAgainst` | internal/merkle/verifier.go:81-118 | invalid signature, failed leaf hash, no proof, rejected proof: each exactly under its condition; Valid only for a record the root vouches for |
| `Verifier.JudgeMeans` | internal/merkle/verifier.go:81-118 | so it is for every key, record, batch and listing |
| `Verifier.TamperedIsRejected` | internal/merkle/verifier.go:111-115 | a changed record in the place of the genuine one is not Valid, or its leaf and the genuine one collide |
| `Verifier.GenuineIsValid` | internal/merkle/verifier.go:81-118 | a record in its place under a genuine root and signature is valid exactly if the key version is known |
| `System.SetBootstrapKeepsInv` | internal/batch/batcher.go:99-104 | setting the bootstrap flag at any moment keeps the invariant |
| `System.AddKeepsInv` | internal/batch/batcher.go:117-125 | an append keeps the system invariant |
| `System.CloseKeepsInv` | internal/batch/batcher.go:141-270 | a close keeps it, whichever step fails and whatever the tiering job is doing |
| `System.CrashKeepsInv` | internal/batch/batcher.go:42-61 | losing the buffer at any point keeps it |
| `System.ArchiveKeepsInv` | internal/tiering/tiering.go:82-88 | so does the job's write, successful or not |
| `System.PurgeKeepsInv` | internal/tiering/tiering.go:106-112 | the purge leaves every batch in the hot store as a whole or not at all |
| `System.FinishKeepsInv` | internal/tiering/tiering.go:114-120 | marking a batch archived keeps root and signature |
| `System.StepKeepsInv` | internal/tiering/tiering.go:59-125 | every enabled action keeps the invariant |
| `System.ReachableInv` | internal/batch/batcher.go:116-270 | the invariant holds in every reachable state |
| `Moving.CloseKeepsMove` | internal/batch/batcher.go:221-247 | a close that does not outrun the job keeps every batch hot or archived as a whole |
| `Moving.ReadKeepsMove` | internal/tiering/tiering.go:60-66 | what the job reads is the whole batch, or there is an archive object already |
| `Moving.ArchiveKeepsMove` | internal/tiering/tiering.go:82-88 | a successful write holds the whole batch, because an existing object makes it fail |
| `Moving.PurgeKeepsMove` | internal/tiering/tiering.go:106-112 | the purge takes only what the archive holds |
| `Moving.UndisturbedKeeps` | internal/tiering/tiering.go:59-125 | runs in which no close outruns the job keep this |
| `Moving.NoCloseUndisturbed` | internal/tiering/tiering.go:59-125 | in particular every run of the job itself |
| `Guarantees.BatchesConserve` | internal/batch/batcher.go:106-131 | under every interleaving and failure, closed batches in order plus the open buffer are the records handed in, in order; no closed batch is empty |
| `Guarantees.HotRecordsVerify` | internal/merkle/verifier.go:60-119 | in every reachable state every hot record is Valid exactly if its key version is known, for every iteration order |
| `Guarantees.VerifyHotRecord` | internal/merkle/verifier.go:60-119 | the verifier, called for any hot record of a reachable state, returns Valid or, for an unknown key version, InvalidSignature, and never an error |
| `Guarantees.TieringConserves` | internal/tiering/tiering.go:59-125 | every record of a finished batch is in the hot store or in its batch's archive object, unless a close outran the job before its purge |
| `Guarantees.ArchivedStaysProvable` | internal/tiering/tiering.go:60-120 | the records read from an archived batch's object hash to the batch's stored root, whose signature is the one made for it, unless a close outran the job before its end |
| `Guarantees.RootAndSignatureStay` | internal/store/store.go:507-520 | tiering changes only status and object key; a successful close's checkpoint object agrees with the row as signed |
| `Guarantees.PassKeepsIff` | internal/tiering/tiering.go:60-112 | the rest of a pass, from any of its steps, keeps a record of the batch exactly if it was read and encodes as a line |
| `Guarantees.LosesIffOutrun` | internal/tiering/tiering.go:60-112 | when a close writes the batch the job is about to purge, going on loses a record exactly if the close wrote one the job had not read |
| `Guarantees.LateOutrunUnproves` | internal/tiering/tiering.go:106-120 | after the purge such a close loses nothing, but the archived batch has fewer records than its row says |
| `Guarantees.OverlapLosesRecord` | internal/batch/batcher.go:221-247 | a run of the system at whose end a record of a successfully closed batch is in neither place |
| `Tiering.MoveIsRun` | internal/tiering/tiering.go:59-125 | the move of one batch, stopped by any failure, is a run of the job's actions |
| `Tiering.StopsReported` | internal/tiering/tiering.go:60-119 | a move that does not complete reports the step that stopped it, for its own batch only |
| `Tiering.Service.Serialize` | internal/tiering/tiering.go:68-80 | the lines of the records that encode, in order, and one error for each other record |
| `Tiering.Service.MoveBatch` | internal/tiering/tiering.go:60-123 | store and archive after the five steps up to the first failure, which is reported under its name; a moved batch has its row and its index row name the object holding its records |
| `Tiering.Service.Advance` | internal/tiering/tiering.go:59-125 | one turn of the loop: a batch reported as moved is archived and out of the hot store, any other keeps its row and has an error |
| `Tiering.Service.RunOnce` | internal/tiering/tiering.go:50-128 | a whole run, whatever fails, is a run of the state machine; the result counts exactly the old signed batches that were archived, each once, all filed under their objects, and has an error for exactly the others |
| `Source.DecimalInjective` | internal/binlog/client.go:290 | different numbers are printed differently |
| `Source.DecimalSays` | internal/binlog/client.go:290 | a printed number consists of digits, reads back as itself and has no leading zero |
| `Binlog.KindIgnoresPadding` | internal/binlog/client.go:148-177 | a query is recognised whatever its case and surrounding space, and is DDL exactly if it starts with one of the four statements |
| `Binlog.ControlExamples` | internal/binlog/client.go:148-177 | BEGIN, COMMIT and ROLLBACK as clients write them are recognised |
| `Binlog.ImageHoldsRow` | internal/binlog/client.go:288-292 | an image has every column of its row under the name col_ and its number, and nothing else |
| `Binlog.ParseRowChanges` | internal/binlog/client.go:282-347 | read from the event of any statement, the changes say edit by edit what it did: the action, which images there are, and every column of the row before and of the row after |
| `Binlog.ReadsStatement` | internal/binlog/client.go:282-347 | reading the rows event of a statement gives the changes of its edits; a stray row at the end of an update is dropped |
| `Binlog.IsRowsEvent` | internal/binlog/client.go:316-321 | every rows event is that of a statement |
| `Binlog.RunAppend` | internal/binlog/client.go:105-253 | reading a log in two parts is reading it in one |
| `Binlog.BinlogSource.ResumeFrom` | internal/binlog/client.go:56-61 | sets the position reading starts from |
| `Binlog.BinlogSource.OnEvent` | internal/binlog/client.go:142-251 | one event: state, transaction reported, and position, which follows the event headers, rotations and reports |
| `Binlog.BinlogSource.ReadLoop` | internal/binlog/client.go:105-253 | transactions reported and position reached for any delivered events |
| `Binlog.SettledIsRestart` | internal/binlog/client.go:166-173 | after a COMMIT, XID, autocommit or DDL report the reader is in the state a restart at the reported position gives |
| `Binlog.EmissionsSettle` | internal/binlog/client.go:177-199 | the only report after which it is not is a DDL statement inside an open transaction |
| `Binlog.ResumeIsSuffix` | internal/binlog/client.go:105-262 | restarting at the reported position on the remaining events yields exactly the remaining output |
| `Grouping.ReaderSees` | internal/binlog/client.go:105-253 | what the reader reports for any rendered log, from any state |
| `Grouping.GroupingUndoesRendering` | internal/binlog/client.go:105-253 | exactly the committed, autocommit and DDL transactions are reported, in order, if and only if no autocommit statement follows an unfinished transaction; their changes say edit by edit what the statements did |
| `Grouping.StrandedStatementIsLost` | internal/binlog/client.go:226-244 | the smallest log that is not read back |
| `LogFiles.StepInFile` | internal/binlog/client.go:142-251 | the reader stays in step with a file the server wrote |
| `LogFiles.CrossFile` | internal/binlog/client.go:143-147 | a rotation reports nothing and leads to the next file |
| `LogFiles.RestartReportsTheRest` | internal/binlog/client.go:56-103 | a restart at the position of any reported transaction reports exactly the later ones, across files |
| `Selection.TrackLife` | internal/pipeline/pipeline.go:46-132 | of what a life handed over, the store keeps records of a first part of each transaction, and the next life reads on behind the last one |
| `Selection.Truncate` | internal/batch/batcher.go:116-270 | any prefix of what was handed over is a first part of each transaction up to some point |
| `Selection.AllTakenIff` | internal/pipeline/pipeline.go:56-107 | as many changes are taken as there are exactly if every transaction is taken as a whole |
| `Selection.NothingSkippedIff` | internal/store/store.go:522-536 | over all lives, every transaction is stored as a whole exactly if each life left none early and its checkpoint fell on an end |
| `Daemon.WorkIsRun` | internal/pipeline/pipeline.go:46-132 | what the daemon does, interleaved with anything else, is a run of the system |
| `Daemon.WorkHands` | internal/pipeline/pipeline.go:46-132 | whatever runs beside it and whatever fails, it hands over one record of each of the first changes of each transaction, in order |
| `Daemon.DropsAre` | internal/pipeline/pipeline.go:80-82 | of the transactions dealt with, exactly those left because a change could not be built or its own close failed are handed over in part |
| `Daemon.TxIsWork` | internal/pipeline/pipeline.go:104-106 | a transaction's calls, up to one that fails, are steps of the daemon and lead to the next transaction |
| `Persisting.CheckpointIsLast` | internal/store/store.go:522-536 | the latest checkpoint is the position of the last record persisted |
| `Persisting.LifePersists` | internal/batch/batcher.go:116-270 | a life persists a prefix of what it was fed, with the positions fed |
| `Persisting.StoreIsPersisted` | internal/store/store.go:482-494 | in every reachable state the store holds records persisted and no others, and a batch of them as a whole or not at all |
| `Persisting.PersistedDistinct` | internal/batch/batcher.go:117-125 | every record persisted has an id of its own |
| `Persisting.RunKeepsHot` | internal/store/store.go:608-618 | while nothing is purged, everything persisted is in the store |
| `Resume.LogIsRestartable` | internal/binlog/client.go:56-103 | the log reader restarts as the argument needs |
| `Resume.ResumeStores` | internal/pipeline/pipeline.go:46-132 | for any number of crashes at any points, one record is persisted of each of the first changes of each transaction up to some point, in order, nothing twice; of all changes exactly if no life broke a transaction off; the store holds these records and no others but for purged batches |
| `Recovery.WorksOnReports` | internal/pipeline/pipeline.go:113-132 | a processor given the transactions of the log, under a configuration they do not change, works as the daemon of that log |
| `Recovery.RunAsDaemon` | internal/pipeline/pipeline.go:113-132 | running the processor is a work of the daemon, with the same end state and as many records handed over of each transaction |
| `Recovery.NothingSkipped` | internal/pipeline/pipeline.go:46-132 | after any number of crashes, all audited changes up to the last transaction persisted have their record, and it is in the store unless purged, exactly if no transaction was left early and every checkpoint fell on an end; every record says what a change of one of the transactions was |
| `Skipped.NothingAfterCheckpoint` | internal/binlog/client.go:56-61 | after an autocommit statement of two rows, a restart at its position reports nothing |
| `Skipped.ChangeIsSkipped` | internal/pipeline/pipeline.go:104 | a history with one crash at whose end the second of two audited changes is not stored and will not be read again |
| `Skipped.DropTail` | internal/pipeline/pipeline.go:104-106 | the processor run on a transaction of two audited changes records only the first, because the signer was down for the close it triggered |
| `Config.ParseConfigFromMap` | internal/config/config.go:147-195 | every field is what its column says, or the default if the column is absent or of another type |
| `Config.ParseReadsRow` | internal/config/config.go:147-195 | a row written for a configuration, flags as booleans or integers, columns as a list or as JSON, parses to that configuration |
| `Config.Manager.SetTableConfig` | internal/config/config.go:41-45 | sets the entry of one table |
| `Config.Manager.HandleBinlogEvent` | internal/config/config.go:115-144 | the cache after an insert, update or delete, missing images and names included |
| `Config.EditAgreesIff` | internal/config/config.go:115-144 | an edit of the table keeps the cache in agreement exactly if it renames no row |
| `Config.CacheFollowsTable` | internal/config/config.go:115-195 | along any sequence of edits the cache holds exactly the parse of each live row throughout, exactly if none renames a row |
| `Attribution.CorrelateTransaction` | internal/attribution/attribution.go:33-82 | if a change names an actor, the first one named, and no alert; otherwise an alert exactly if the table is configured not to tolerate this, with type, severity and reason |
| `Attribution.OneActorForAll` | internal/attribution/attribution.go:34-56 | a context insert with a non-empty user anywhere decides the actor for every table |
| `Snapshot.BuildRecord` | internal/snapshot/snapshot.go:34-98 | the record says the change's table, action, transaction and actor, and holds the stored form of the image before exactly for an update or delete, and of the image after exactly for an insert or update |
| `Snapshot.ImageRoundTrip` | internal/snapshot/snapshot.go:47-72 | an image of a record, read and opened, is the change's image as JSON represents it, exactly if no unencrypted column holds a lookalike |
| `Pipeline.WorkMembers` | internal/pipeline/pipeline.go:57-65 | the work of a transaction is exactly its changes on enabled tables |
| `Pipeline.HandledHandsOver` | internal/pipeline/pipeline.go:46-110 | the same for every transaction of a whole run |
| `Pipeline.Planned` | internal/pipeline/pipeline.go:71-82 | the records of the audited changes up to the first that cannot be built, each with what was drawn for it |
| `Pipeline.AllBuildIff` | internal/pipeline/pipeline.go:71-82 | every audited change comes to a call of AddRecord exactly if each can be built |
| `Pipeline.EndsOneWay` | internal/pipeline/pipeline.go:46-110 | where a transaction stops and with what result is settled by the state before it and what its closes meet |
| `Pipeline.AllRecordedIff` | internal/pipeline/pipeline.go:46-110 | all audited changes are recorded exactly if each can be built and every close triggered before the last record succeeds; no error exactly if the last one does too |
| `Pipeline.Processor.ApplyConfigRows` | internal/pipeline/pipeline.go:47-54 | all configuration rows are applied first |
| `Pipeline.Processor.RecordChange` | internal/pipeline/pipeline.go:57-107 | a record exactly of a change on an enabled table that is not internal, if it can be built; the record says what the change was and who made it; adding it fails exactly if it fills the batch and the close of that batch does not succeed, with that close's error |
| `Pipeline.Processor.ProcessTransaction` | internal/pipeline/pipeline.go:46-110 | records of the changes on enabled tables in order, each saying what its change was and who made it, none left out before the first error; the records, the result and the world after it follow from the state before |
| `Pipeline.Processor.Run` | internal/pipeline/pipeline.go:113-132 | every delivered transaction is handled in full as ProcessTransaction says, whatever came of earlier ones, and the end closes the open batch |
| `Pipeline.OneTransactionOneActor` | internal/snapshot/snapshot.go:82-95 | all records of a transaction share its id, its commit time and its named actor, whatever is drawn for them |
| `Pipeline.FixedConfig` | internal/config/config.go:115-118 | changes on other tables leave the configuration alone |
| `Encryption.ProcessRow` | internal/snapshot/snapshot.go:101-125 | with an encryptor every listed column that is not null is stored as enc:, version and ciphertext, any other column as it is; it fails exactly if a column to be encrypted does not encode or encrypt |
| `Encryption.DecryptMap` | internal/api/handlers.go:179-205 | every entry is replaced by what opening it gives |
| `Encryption.MarkedOpens` | internal/api/handlers.go:180-203 | an encrypted column comes back as it would through JSON |
| `Encryption.StaysIff` | internal/api/handlers.go:180-203 | a value stays as it is exactly if it is not a marked text of the current version that reads as something else |
| `Encryption.RawTextOpens` | internal/api/handlers.go:196-202 | a marked text whose plaintext is not JSON comes back as that plaintext |
| `Encryption.SplitIff` | internal/api/handlers.go:185-189 | a text splits into a version and a text exactly if it is their marked form and the version has no colon |
| `Encryption.RowRoundTrip` | internal/snapshot/snapshot.go:101-125 | listed columns come back as JSON represents them and other columns unchanged, exactly if no column left unencrypted holds a lookalike |
| `Encryption.ColonInVersionStays` | internal/api/handlers.go:185-197 | with a colon in the version nothing is opened |
| `Encryption.LookalikeIsOpened` | internal/api/handlers.go:181-203 | an unencrypted text that is the marked form of a value other than a text comes back as that value, not as itself |
| `Alerting.Dispatcher.Trigger` | internal/alerting/alerting.go:154-183 | suppressed exactly if trigger and table were let through less than the cooldown before; a suppressed call changes nothing, any other is recorded and sent |
| `Alerting.SendsApart` | internal/alerting/alerting.go:154-164 | calls let through under one key are at least the cooldown apart |
| `Alerting.SuppressedIff` | internal/alerting/alerting.go:156-162 | a call is suppressed exactly if one with the same key text was let through less than the cooldown before |
| `Alerting.SameKeyIff` | internal/alerting/alerting.go:157 | with no colon in the triggers, the key texts are the same exactly for the same trigger and table |
| `Alerting.SuppressedByItsOwn` | internal/alerting/alerting.go:156-162 | then only calls of the same trigger about the same table suppress each other |

## Left out

- `PostgresStore`: SQL statements; JSONB columns may re-render JSON, so agreement of leaf hashes is stated for `MemoryStore` only.
- Internals of SHA-256, Ed25519, AES-GCM, base64, JSON and UUIDs: function parameters with their round-trip contracts, and freshness conditions in `System.Enabled`.
- Key files, HTTP handlers other than `decryptMap`, access control, the portal page, webhook delivery and the command-line programs: wiring and I/O.
- Bootstrap: mostly SQL; the flag, which may be set at any moment, and its reset at a close are modelled, and bootstrap records stay out of the resume argument.
- The timer, `Flush` and `Close`: each runs the close of the open batch, which is one action here, enabled at any moment; the timer goroutine itself is left out.
- Batching.Batcher.AppendRecord: the statement on record values is for a record object that is not in the buffer already; stamping one object twice also re-stamps its earlier slot, which the pipeline never does.
- Alerts raised while a transaction is processed or a batch closed, and the close callback: they change neither records nor batches.
- `extractPrimaryKey` and `computeSchemaVersion`: functions of the change in `Builder`; the former depends on map iteration order for one of its fallbacks, which counts as drawn at random.
- Column names across modules: the reader names columns by number while configuration and attribution look up real names, so row contents are opaque in the resume argument.
- Two writers racing between the existence check and the rename of a write-once object: one writer at a time.
- Progress of tiering after a partial failure: once the archive object exists, later runs stop at the write-once check; only safety is stated.
- Unicode in query texts: trimming and upper-casing are those of ASCII.
- Batching.Batcher.AddRecord: one call with nothing between its two regions; what may come between them is in `System` and `Daemon`.
- Binlog.KindIgnoresPadding: trimming and case are those of ASCII.
- Resume.ResumeStores: every life is resumed from a stored batch without bootstrap records, and close times strictly increase.
- Recovery.NothingSkipped: the configuration is the same in every life; after a restart the program loads it from the database, whose state at that moment the log does not determine.
- Guarantees.TieringConserves: assumes that what was hashed into a tree also encodes as a line, and no close that outruns the job; both limits are shown to be needed.
- Encryption.RowRoundTrip: one row processed and opened by the same key version; another version leaves the columns encrypted.
