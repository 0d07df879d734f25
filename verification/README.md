# Sync, storage, mirrors and search of a local-first planner: a verified model

The client keeps a CRDT doc on every device, an encrypted update log on one
server, and windows and indexes that follow the doc. This project models the
parts where a mistake loses or duplicates somebody's work, and proves what they
are for.

**Sync.** `EngineSpec` says what every call of the sync engine does to the
engine and to its storage, one storage write at a time. `SyncEngineObject` is
the engine as the program has it, a class that updates its fields and calls its
storage in place; each method is proved to do what the specification says.
`EngineLaws` and `EngineDisk` say what any call may do without saying how: the
state it leads to, what it learns, queues, reports and complains of, and what it
leaves on disk.
`World` puts any number of engines against one sequenced log, with a network
that repeats, reorders, delays and drops, and with crashes between any two
storage writes. One invariant (`NodeInvariant`, `CallInvariant`,
`LinkInvariant`, `StepInvariant`, `WorldInvariant`) holds in every reachable
world, and `Replication` draws the conclusions: convergence, at most one upload
of an operation, exact crash replay, a resume cursor that skips nothing, a sound
snapshot chain. `FrontierAssertion` and `WorldRun` settle where the code's own
comments claim more than holds: exact conditions, and runs that meet them.

**Storage.** `LocalStore` is the contract of a backend, as functions.
`MemoryStorage.MemStorage` and `SqliteTables.SqliteStorage` are the two
backends, proved against it and so against each other (`StorageRefinement`).

**Mirrors and host.** `Mirrors`, `MirrorBridging` and `MirrorConvergence` are
the host's fan-out, the window's bridge and what the two make together.
`MirrorSimulation` proves that the two classes, call by call, are what those
theorems are about. `HostConnection` is one socket shared by many engines,
`HostSession` and `HostKeeping` what its turns make of them and put on the wire,
`EngineCalm` why the host hears everything fatal an engine says, and `HostRun` a
host from boot through any turns.

**Algorithms.** `SearchIndexing`, `SearchObject` and `SearchQuery` are the
inverted index, and `SearchRanking` what a query is to answer, said of the docs;
`CivilCalendar` the two halves of the day count; `Durations` the printer and
parser of lengths of time; `MergedAgenda` the agenda over several workspaces, and
`AgendaRules` what it is, said of the items.

## How things are represented

- An operation is a peer and a counter, and a peer belongs to one device. A doc
  is a set of operations and a capture cursor; merging is union. A version
  vector is the closed set it covers; `VersionVectors` proves that merging,
  comparing and bounding agree with the next-counter-per-peer form.
- What an encoded blob declares, and how many bytes it takes, are left to a
  `Codec`, of which only this is asked: the declared range is the least closed
  set around what the blob carries. Sealing is the identity.
- The world records the stores a call passes through; a crash restarts the
  device from any of them. A device's durable push identifiers, and the
  snapshot rows it has imported but not yet stored, are bookkeeping.
- The server is its published contract (`World.Truthful`, `World.Enabled`):
  dense sequence numbers, one row per (device, push id), truthful rows and acks,
  one device's rows delivered in order to another, a pull answer that ends only
  when everything there when the pull was asked has been delivered, the snapshot
  chain streamed in order, snapshots asked for only from a device past its pull
  and from a stored row, and stored only while the request they answer is good:
  no other has been stored since. Everything else about delivery is free.
  `WorldRun` shows the contract can be met, from worlds of any number of devices
  (`WorldsExist`).
- Fresh push identifiers and the outcome of connects and sends are parameters,
  and for the host whether the storage took a frame. A send can fail only when
  something is queued. The host's `wire` is the list of frames it has sent.
- Sequence numbers, counters and lengths are unbounded naturals, the day count
  unbounded integers. `Durations` states the 32-bit bound and its overflows.

## Where the code and its documentation disagree

- `handle_connected` does not clear the outbox, and `notify_oplog_durable` on a
  disconnected engine queues an `Ack`. So a connection can start with `Ack`
  before `OpenDoc`. It starts with `OpenDoc` exactly when the outbox was empty
  (`OpenDocLeads`), the one call that fills it offline is named
  (`QueuesOffline`), and there is a run that does (`AckCanPrecedeOpenDoc`).
- The bootstrap checkpoint comment (core/src/sync.rs:926-934) says a
  `server_known_vv` is never written ahead of its checkpoint. Between the
  checkpoint's own two writes it is, unless all that was known and the last row
  were on disk already (`CheckpointGap`). Whether the last row brings anything
  does not decide it: in `GapOnTwoRows` the last row is on disk and the row
  before it leaves the gap. It does no harm: what is known too early is other
  devices' and is pulled again (`AheadOnlyOfOthers`).
- `ingest_seq` calls a sequence number ahead of the frontier's next structurally
  impossible, and asserts so in debug builds. The assertion holds over a batch
  exactly when each row past the frontier is its next or comes after its own
  predecessor, and over an accepted ack exactly when no row before the acked one
  is missing (`AssertionHolds`). Both fail in runs of the protocol: the server
  subscribes a connection before it says `DocOpened`
  (server/src/sync/ws.rs:402-424), so a broadcast can overtake the pull's answer
  (`AssertionCanTrip`), and an ack can overtake another device's broadcast
  (`AckCanTrip`). The engine is modelled as the release build, which goes on;
  `IngestSeq` answers what the assertion would say. After such an ack the
  frontier stays short of the acked row until that row itself is delivered, or a
  snapshot that has it (`OwnRowNeeded`); a broadcast skips its sender, so that is
  at the next pull.
- `SnapshotRequest` is said to be answered with a snapshot tagged by
  `last_contiguous_seq` as the sequence-number twin of its version vector
  (core/src/sync.rs:1000-1005). It is its twin exactly when every row delivered
  or acked since the pull was asked is behind the frontier (`TagIsTwin`). The
  server asks a device it counts as having its own last row
  (server/src/sync/ws.rs:570-598), and that row's ack may have overtaken another
  device's row: `TagFallsShort` is the run, the one of `AckCanTrip` taken two
  frames further. What is stored is sound all the same: it has every row up to
  its number and nothing the log has not, and chains exactly (`ProducedSound`,
  `ChainSound`). But the number matters to compaction. The floor sent with the
  request counts the device as having its own row too, so it can pass the number
  stored, as in that run, and a device whose bootstrap ends short of the floor
  is sent back to bootstrap again (`SentBack`): the trap that sending the ack
  before the request is meant to close.
- `index_list` says it reindexes the list's items. It does not; its caller
  re-reads them. `RenameAlone` gives the exact condition under which an item is
  left as a rebuild would have it, and `RenameLeavesBehind` an item that is not.
- The pump ignores a stale `ConnStateChanged` so that the last connection cannot
  take the next one down (cli/src/daemon.rs:1687-1697). A stale error still can:
  a new socket survives its first pump exactly when no such event waits
  (`HostConnection.Host.OnConnectResult`). One waits in `LeavesUnread`, where the
  storage fails between a bad frame and the pump. It takes such a failure:
  bytes never make an engine say something fatal and queue a frame
  (`EngineCalm.BytesCalm`), so no failing send comes between. From boot, through
  any turns of the loop whose storage holds, nothing fatal is left unread and no
  connection is lost as it comes up (`HostRun.RunFromBoot`).
- `when_millis` is said to answer nothing on anything malformed. It answers
  exactly on the strings that pass its checks of length, digits and ranges
  (`WhenReads`), which include malformed ones: exactly those with another
  separator, a day the month has not, a time out of range, or something other
  than a time after the day (`ReadsMalformed`, `MalformedRead`). A day the month
  has not reads as one of the next month (`PastMonthEndRead`), and a date comes
  back exactly when the month has the day (`KeptIfInMonth`).
- `format_duration(0)` prints what `parse_duration` refuses
  (`ReadsBackUnlessZero`).

## Model

| member | source | states |
|---|---|---|
| `Replication.Convergence` | core/src/sync.rs:706-1250 | in every reachable world, devices that have the whole log and nothing unsent hold the same operations, the union of the log |
| `Replication.SettledHoldsTheLog` | core/src/sync.rs:428-430 | one such device holds exactly the union of the log |
| `Replication.FrontierSound` | core/src/sync.rs:1074-1173 | a frontier of k means rows 1 to k are in the doc and on disk, and everything of other devices in the doc is in the log |
| `Replication.AtMostOnce` | core/src/sync.rs:1187-1250 | no operation is in two rows of the log, across retries, lost acks, repeats and crashes |
| `Replication.RowMinted` | core/src/sync.rs:1209-1231 | every row is a push its device made durable, with the contents it was minted with |
| `Replication.PushIsNew` | core/src/sync.rs:1203-1225 | what a device is pushing is in no row but its own |
| `Replication.CrashReplay` | core/src/storage.rs:388-412 | whichever write a crash follows, the booted doc is exactly what is on disk, and that is everything captured or applied before the call but the residue of an unfinished snapshot chain, which the log has |
| `Replication.CapturedIsOnDisk` | core/src/sync.rs:451-473 | the captured part of a doc is what is on disk and that residue, and the rest is the device's own |
| `Replication.DiskKeeps` | core/src/sync.rs:489-526 | no step and no crash takes anything off a disk |
| `Replication.RunKeepsDisk` | core/src/sync.rs:512-526 | nor does any run |
| `Replication.CursorsInOrder` | core/src/sync.rs:569-588 | acks sent are at most the durable row, which is the stored cursor, which is at most the frontier, which is at most the log |
| `Replication.ResumeSkipsNothing` | core/src/sync.rs:1101-1141 | after a crash at any write, the booted doc and the booted version vector both hold every row up to the resume cursor |
| `Replication.AckedIsDurable` | core/src/sync.rs:1175-1185 | every row a device acks, or asks to resume past, is on its disk, now and after any crash |
| `Replication.AheadOnlyOfOthers` | core/src/sync.rs:926-957 | where the booted version vector is ahead of the booted doc it is so only over other devices' rows past the cursor |
| `Replication.PushedIsDurable` | core/src/sync.rs:1191-1231 | the operations of any push queued, sent or recorded are on the device's disk, now and after any crash |
| `Replication.KnowsItsOwn` | core/src/sync.rs:405-418 | a device never takes the server to have an operation of its own that its disk lacks |
| `Replication.ProducedSound` | core/src/sync.rs:995-1070 | past its pull, from any base it knows, what a device produces is with its base exactly what its version vector says: every row up to its sequence number, and nothing the log has not |
| `Replication.ChainSound` | core/src/sync.rs:995-1070 | importing the snapshot chain in order gives, row by row, exactly the row's version vector, which has every row of the log up to its sequence number and nothing the log has not |
| `Replication.TagIsTwin` | core/src/sync.rs:1000-1005 | the sequence number says exactly what the version vector says when, and only when, every row delivered or acked since the pull was asked is behind the frontier |
| `Replication.SnapshotExact` | core/src/sync.rs:1020-1045 | of any engine and base: with its base a snapshot is what its version vector says exactly when doc and base hold all that is known |
| `Replication.OutOfOrderFallsShort` | core/src/sync.rs:1020-1045 | a device sent a peer's second operation without its first makes one that is not |
| `Replication.SentBack` | server/src/sync/ws.rs:610-633 | the pull after a bootstrap starts below a floor exactly when both the device's frontier and the chain's end do |
| `Replication.BootstrapComplete` | core/src/sync.rs:895-993 | a finished bootstrap resumes past the chain's end with every row up to there and all unsent work on disk, and an empty log |
| `Replication.CheckpointGap` | core/src/sync.rs:926-973 | in every reachable world, a crash after the checkpoint's first write boots with a version vector the doc covers exactly when all that was known and the last row were on disk; after its second, exactly when the doc and the last row held all that was known |
| `WorldInvariant.Reachable` | core/src/sync.rs:224-283 | the invariant of devices, log, chain and wire holds in every reachable world |
| `WorldInvariant.RowEnters` | crates/protocol/src/sync.rs:42-63 | a pushed row enters the log once, with what its device minted, and keeps every log prefix closed |
| `WorldInvariant.StoreSnapshotKeeps` | crates/protocol/src/sync.rs:138-164 | a stored snapshot row takes the chain from exactly the last row's version vector to exactly its own, which covers its sequence number |
| `WorldInvariant.MadeLive` | core/src/sync.rs:995-1070 | what a device makes for the chain as it stands takes it on so |
| `WorldRun.ACommitReachesTheLog` | core/src/sync.rs:689-702 | from every world of fresh devices, whatever any device commits can reach the log, and leave the device with nothing unsent |
| `WorldRun.GapOnTwoRows` | core/src/sync.rs:926-957 | a run to a two-row chain whose last row is on disk, and a crash between the checkpoint's writes that leaves the first row known and not held |
| `WorldRun.AssertionCanTrip` | core/src/sync.rs:1154-1173 | a run in which a truthful broadcast, ahead of the pull's answer, trips the debug assertion |
| `WorldRun.AckCanTrip` | core/src/sync.rs:850-858 | a run in which a truthful ack, ahead of another device's row, trips it |
| `WorldRun.TagFallsShort` | server/src/sync/ws.rs:570-598 | a run in which the snapshot then asked for and stored says row 0, is row 2, and has a floor past its number |
| `FrontierAssertion.AssertionHolds` | core/src/sync.rs:1163-1173 | for every engine and frame: the assertion holds over rows exactly when each past the frontier is its next or after its predecessor, and over an accepted ack exactly when its row is at most the frontier's next |
| `FrontierAssertion.DenseAsserts` | core/src/sync.rs:1136-1139 | a batch without holes trips it exactly when its first row is past the frontier's next |
| `FrontierAssertion.AssertedCovers` | core/src/sync.rs:1131-1141 | a batch that does not trip it leaves the frontier at or past each of its rows |
| `FrontierAssertion.AckCovered` | core/src/sync.rs:850-858 | an accepted ack trips it exactly when the frontier stays short of the acked row |
| `FrontierAssertion.StuckUntil` | core/src/sync.rs:1163-1173 | a frontier short of a row stays so through any calls until one brings that row or a snapshot that has it |
| `FrontierAssertion.OwnRowNeeded` | core/src/sync.rs:850-858 | so after an ack that trips, until the acked row itself is delivered |
| `EngineLaws.EveryCallLawful` | core/src/sync.rs:627-1261 | of every engine and call, by the states before and after: the state it leads to; exactly what comes into the doc and into what the server is known to have; the frames queued (OpenDoc, PullUpdates from the frontier and PullSnapshot each on entering its state, the recorded push when one starts, the answer to a snapshot request, an ack of a row newly durable) and no other; one event for each change; a push on record until confirmed, then a new one of all that is unknown to the server; and of what is refused, one error and no other change |
| `EngineLaws.NoticeAcks` | core/src/sync.rs:569-588 | in every state: a notice past the durable row stores the cursor and queues exactly an ack of it, unless an ack went as far; any other does nothing |
| `EngineLaws.RunAcks` | core/src/sync.rs:1175-1185 | through any calls the sent cursor is the row of the last ack ever queued, or where it was if none was; acks only rise; and with both cursors one at the start, each durable row is acked |
| `EngineLaws.BootAcks` | core/src/sync.rs:569-588 | from boot the last ack ever queued names the stored cursor, which is the booted one if none was |
| `EngineDisk.CaptureIs` | core/src/sync.rs:451-473 | one row of exactly what was never captured, when there is something, and nothing else |
| `EngineDisk.FoldIs` | core/src/sync.rs:489-526 | the log is folded exactly when it is past a limit, into a snapshot of the whole doc |
| `EngineDisk.CallLands` | core/src/sync.rs:1101-1141 | every call leaves on disk what was there of the doc; a row delivered is there when the call returns, and after the last row of a chain the whole doc is |
| `EngineDisk.CallKeeps` | core/src/sync.rs:627-702 | a call that is neither a commit nor bytes keeps doc, frontier, disk, cursors and the push on record |
| `StepInvariant.StepKeeps` | core/src/sync.rs:668-682 | every call, with every truthful frame, keeps a device's invariant and its disk |
| `StepInvariant.RestartKeeps` | core/src/storage.rs:388-412 | so does a restart after any of the call's writes |
| `CallInvariant.OnAckSound` | core/src/sync.rs:809-871 | accepting an ack, and the push it starts, keeps the device and every store it passes through sound |
| `CallInvariant.OnSnapshotSound` | core/src/sync.rs:895-993 | so does a row of the snapshot chain, last or not |
| `CallInvariant.ReplayIsDurable` | core/src/storage.rs:388-412 | a boot recovers exactly what is durable |
| `LocalStore.ReplayInOrder` | core/src/storage.rs:404-408 | a boot replays the snapshot first and then the rows as they were stored |
| `NodeInvariant.ApplyRemoteSound` | core/src/sync.rs:1074-1151 | importing and mirroring a batch row by row keeps every intermediate store sound and moves the frontier only over rows it holds |
| `NodeInvariant.ImportedDoc` | core/src/doc.rs:4528-4543 | advancing the capture cursor by a batch's declared range skips no local operation |
| `NodeInvariant.MintSound` | core/src/sync.rs:1203-1231 | a fresh push is the device's own, on disk, and disjoint from every push before it |
| `NodeInvariant.FoldSound` | core/src/sync.rs:512-526 | a fold loses nothing, unsent work included |
| `LinkInvariant.PullCompletes` | core/src/sync.rs:773-797 | once a pull is complete the server is known to have everything here that is not this device's, and what is known is exactly the rows the pull was asked for and those told of since, all held |
| `LinkInvariant.KnowsItsFrontier` | core/src/sync.rs:995-1008 | past its pull a device knows exactly the log up to its frontier exactly when no row past it was told |
| `LinkInvariant.ChainRowReaches` | core/src/sync.rs:895-930 | each chain row takes what is known and held to its own version vector, and so past its sequence number |
| `EngineDiscipline.RunKeepsDiscipline` | core/src/sync.rs:627-1261 | whatever the server sends, the frames of a connection walk the protocol's phases and the engine's state is the phase reached |
| `EngineDiscipline.PhasesMean` | core/src/sync.rs:727-822 | such a walk opens the doc once after nothing but acks, pushes only after the completed pull, and has at most one push unacked |
| `EngineDiscipline.OnePushOutstanding` | core/src/sync.rs:809-822 | pushing means exactly the recorded push is out, so an ack without an in-flight push cannot be met |
| `EngineDiscipline.OpenDocLeads` | core/src/sync.rs:627-645 | a connection's first frame is OpenDoc exactly when nothing was queued before it |
| `EngineDiscipline.QueuesOffline` | core/src/sync.rs:1175-1185 | the one call that queues a frame offline, and when |
| `EngineDiscipline.AckCanPrecedeOpenDoc` | core/src/sync.rs:569-588 | a run whose next connection starts with an Ack |
| `EngineCoherence.RunCoherent` | core/src/sync.rs:451-526 | row count, byte total, high-water, cursor and in-flight record equal the storage's in every run |
| `EngineCoherence.ReplayIsBounded` | core/src/sync.rs:489-499 | after a fold past limits, a boot replays fewer rows than the limit and no more bytes |
| `EngineCoherence.NoLostWakeup` | core/src/sync.rs:689-702 | at rest in Idle the server is known to have the doc, but for commits since the last flush |
| `EngineCoherence.IdleMeansSynced` | core/src/sync.rs:428-430 | with every commit flushed, idle means nothing unsynced |
| `SyncEngineObject.SyncEngine.constructor` | core/src/sync.rs:317-342 | a fresh engine |
| `SyncEngineObject.SyncEngine.SeedFrom` | core/src/sync.rs:361-418 | seeds every cursor and the in-flight push |
| `SyncEngineObject.SyncEngine.CaptureLocalOps` | core/src/sync.rs:451-473 | one local row of what is uncaptured, or nothing |
| `SyncEngineObject.SyncEngine.FoldWal` | core/src/sync.rs:512-526 | the whole doc replaces the log |
| `SyncEngineObject.SyncEngine.FoldIfWalExceeds` | core/src/sync.rs:489-499 | capture, then fold past either limit |
| `SyncEngineObject.SyncEngine.FoldUnlessEmpty` | core/src/sync.rs:504-510 | capture, then fold a non-empty log |
| `SyncEngineObject.SyncEngine.NotifyOplogDurable` | core/src/sync.rs:569-588 | the durable row rises, clamped to the frontier, is stored, and exactly then is acked, online or not, if no ack went as far |
| `SyncEngineObject.SyncEngine.Connect` | core/src/sync.rs:627-645 | queues OpenDoc once |
| `SyncEngineObject.SyncEngine.Disconnect` | core/src/sync.rs:650-655 | drops the outbox, keeps the push |
| `SyncEngineObject.SyncEngine.FlushOps` | core/src/sync.rs:689-702 | starts a push, or marks a running one dirty |
| `SyncEngineObject.SyncEngine.ServerBytes` | core/src/sync.rs:668-725 | the state, decoding and routing guards |
| `SyncEngineObject.SyncEngine.ServerFrameIn` | core/src/sync.rs:726-1071 | every frame, in every state |
| `SyncEngineObject.SyncEngine.BatchIn` | core/src/sync.rs:773-797 | a pull answer |
| `SyncEngineObject.SyncEngine.AckIn` | core/src/sync.rs:809-871 | an ack, accepted or refused |
| `SyncEngineObject.SyncEngine.SnapshotIn` | core/src/sync.rs:895-993 | a chain row, and the checkpoint after the last |
| `SyncEngineObject.SyncEngine.RequestIn` | core/src/sync.rs:995-1070 | a full or delta snapshot, or a refusal |
| `SyncEngineObject.SyncEngine.ImportUpdates` | core/src/sync.rs:1074-1151 | import, learn, mirror each row, move the frontier |
| `SyncEngineObject.SyncEngine.IngestSeq` | core/src/sync.rs:1163-1173 | only the next number moves the frontier; answers whether the debug assertion holds, which is whether the frontier then covers the number |
| `SyncEngineObject.SyncEngine.StartPush` | core/src/sync.rs:1187-1250 | the recorded push again, or a fresh one recorded before it is sent |
| `SyncEngineObject.BootEngine` | core/src/storage.rs:388-412 | an engine from what is stored |
| `SyncEngineObject.StorageHasUnsyncedOps` | core/src/storage.rs:428-444 | agrees with what a booted engine would answer |
| `Documents.ApplyRemoteBatch` | core/src/doc.rs:4528-4543 | imports each blob and advances the cursor by the union of what they declare |
| `VersionVectors.MergeCoversUnion` | core/src/sync.rs:839-842 | merging version vectors is the union of what they cover |
| `VersionVectors.IncludesIffSuperset` | core/src/sync.rs:428-430 | one includes another exactly when it covers as much |
| `VersionVectors.BoundsIsBound` | core/src/doc.rs:5638-5661 | a blob's declared range covers the least closed set around what it carries |
| `VersionVectors.ClosedIsCovered` | core/src/doc.rs:1897-1900 | every closed set is what some version vector covers |
| `LocalStore.DurableAppendRemote` | core/src/storage.rs:243-260 | a server row's operations are durable whether or not the row was there |
| `LocalStore.DurableWriteSnapshot` | core/src/storage.rs:259-271 | a snapshot of all that is durable loses nothing, whatever the cutoff |
| `MemoryStorage.MemStorage.Boot` | core/src/storage.rs:524-546 | the cursors, and the blobs to replay in order |
| `MemoryStorage.MemStorage.AppendLocalWal` | core/src/storage.rs:548-562 | the next number, and a row of it |
| `MemoryStorage.MemStorage.AppendRemoteWal` | core/src/storage.rs:564-591 | idempotent on the server's number; the version vector is stored either way |
| `MemoryStorage.MemStorage.PutSnapshot` | core/src/storage.rs:593-609 | records the counter and prunes up to the cutoff |
| `MemoryStorage.MemStorage.FinishPush` | core/src/storage.rs:632-645 | clears the named push only |
| `SqliteTables.SqliteStorage.Boot` | crates/storage-sqlite/src/lib.rs:154-250 | the same answers from the tables |
| `SqliteTables.SqliteStorage.AppendLocalWal` | crates/storage-sqlite/src/lib.rs:252-269 | the contract's append, other docs untouched |
| `SqliteTables.SqliteStorage.AppendRemoteWal` | crates/storage-sqlite/src/lib.rs:271-321 | the contract's append, other docs untouched |
| `SqliteTables.SqliteStorage.PutSnapshot` | crates/storage-sqlite/src/lib.rs:323-359 | the contract's snapshot, other docs untouched |
| `SqliteTables.SqliteStorage.PutAckedSeq` | crates/storage-sqlite/src/lib.rs:361-371 | stores the cursor of one doc |
| `SqliteTables.SqliteStorage.PutKnownVV` | crates/storage-sqlite/src/lib.rs:373-383 | stores the version vector of one doc |
| `SqliteTables.SqliteStorage.PutInFlightPush` | crates/storage-sqlite/src/lib.rs:385-411 | replaces the push of one doc |
| `SqliteTables.SqliteStorage.FinishPush` | crates/storage-sqlite/src/lib.rs:413-437 | clears the named push of one doc |
| `SqliteTables.SqliteStorage.MaxLocalSeq` | crates/storage-sqlite/src/lib.rs:461-478 | the derived high-water |
| `SqliteTables.InsertView` | crates/storage-sqlite/src/lib.rs:252-269 | a row numbered past the derived high-water is the counter's next, and other docs read as before |
| `SqliteTables.FoldView` | crates/storage-sqlite/src/lib.rs:323-359 | the high-water stays derivable after the rows that carried it are pruned |
| `StorageRefinement.SameReplies` | crates/storage-sqlite/src/lib.rs:153-437 | for every sequence of calls both backends give the same replies and the same final state |
| `StorageRefinement.NeverReused` | crates/storage-sqlite/src/lib.rs:461-478 | a local number is given out once, whatever is pruned between |
| `StorageRefinement.RedeliveryIsIdempotent` | core/src/storage.rs:243-258 | a row delivered again gets its first number and stores nothing |
| `StorageRefinement.SnapshotPrunes` | core/src/storage.rs:259-271 | exactly the rows past the cutoff survive, in order |
| `Mirrors.Host.OnSubscribe` | cli/src/daemon.rs:1179-1218 | a seed, and deliveries from right after it |
| `Mirrors.Host.TakeImport` | cli/src/daemon.rs:1229-1243 | a mirror's update enters the doc and is not owed back to it |
| `Mirrors.Host.OnImport` | cli/src/daemon.rs:1224-1249 | and every mirror is then brought up to date |
| `Mirrors.Host.FanOut` | cli/src/daemon.rs:1255-1281 | a subscriber whose doc is gone hears one thing more, that it stopped, and is dropped; one whose doc is open hears exactly what the doc holds past its last delivery, or nothing if that is nothing, and is up to date; nobody else hears anything |
| `Mirrors.StopIsLast` | cli/src/daemon.rs:1276-1280 | in every valid host a window told that its doc stopped was told once, last, and is served no more |
| `MirrorBridging.MirrorBridge.BeginOpen` | js/core/src/mirror-bridge.ts:114-121 | a doc opens once |
| `MirrorBridging.MirrorBridge.FinishOpen` | js/core/src/mirror-bridge.ts:121-143 | what waited is applied to the seed, in order, once |
| `MirrorBridging.MirrorBridge.HandleUpdate` | js/core/src/mirror-bridge.ts:201-225 | an update is applied, waits, or is refused |
| `MirrorBridging.MirrorBridge.Flush` | core/web/src/lib.rs:1733-1753 | what the engine holds past its last export joins its outbox, if there is something |
| `MirrorBridging.AppliedAllIs` | js/core/src/mirror-bridge.ts:121-143 | an engine opened from a seed holds the seed and what waited, and sends none of it back |
| `MirrorBridging.MirrorBridge.PumpOutbox` | js/core/src/mirror-bridge.ts:159-199 | every engine's updates join the chain in order |
| `MirrorBridging.MirrorBridge.HandleStopped` | js/core/src/mirror-bridge.ts:227-236 | a stopped doc is routed no more, until an open still in flight is answered |
| `MirrorBridging.StoppedWhileOpening` | js/core/src/mirror-bridge.ts:114-143 | a stop that overtakes the answer to an open: the doc is routed again, without what came between |
| `MirrorConvergence.Reachable` | cli/src/daemon.rs:1179-1281 | the invariant of every run of changes, passes, deliveries, commits and imports |
| `MirrorConvergence.LastSentIsHeld` | cli/src/daemon.rs:1255-1281 | what the host takes a mirror to have it has or is being sent, and after a pass that is the whole doc |
| `MirrorConvergence.DeliveredOnce` | cli/src/daemon.rs:1239-1243 | nothing is sent twice, nothing of the seed, nothing of the mirror's own; and it is applied in order |
| `MirrorConvergence.DrainedEqualsHost` | js/core/src/mirror-bridge.ts:114-225 | a drained mirror is the host's doc |
| `MirrorConvergence.ImportedOnce` | core/web/src/lib.rs:1733-1753 | each import is new to the doc |
| `MirrorConvergence.ImportIsNext` | core/src/doc.rs:4556-4563 | an import's declared range is no more than the mirror was known to hold |
| `MirrorConvergence.UpdatesImport` | js/core/src/mirror-bridge.ts:187-199 | in every reachable world, whatever a mirror has sent can be imported next |
| `MirrorSimulation.Start` | cli/src/daemon.rs:1179-1218 | a new host with a doc and no windows stands as a world of no pipes |
| `MirrorSimulation.Subscribe` | cli/src/daemon.rs:1179-1218 | one more window: its subscription and its bridge stand as a new pipe, beside the others |
| `MirrorSimulation.Fan` | cli/src/daemon.rs:1255-1281 | a pass is the step of every pipe at once |
| `MirrorSimulation.ImportAndFan` | cli/src/daemon.rs:1224-1281 | the host's import and its pass are two steps of the world, for the mirror and for the others |
| `MirrorSimulation.Arrive` | js/core/src/mirror-bridge.ts:121-143 | a seed that arrives is the pipe's, and moves no other |
| `MirrorSimulation.Deliver` | js/core/src/mirror-bridge.ts:201-225 | the next update handed over is the pipe's next delivery, the doc open or opening, and moves no other |
| `MirrorSimulation.Pump` | js/core/src/mirror-bridge.ts:159-199 | the chain of sends grows as the pipe's, and no other |
| `MirrorSimulation.ObjectsAgree` | js/core/src/mirror-bridge.ts:114-225 | wherever such calls have led one host and its windows, a window's engine at rest is the host's doc |
| `EngineCalm.BytesCalm` | core/src/sync.rs:668-1071 | from a calm engine, bytes that make it say something fatal queue no frame and move no frontier |
| `HostSession.CallTold` | core/src/sync.rs:668-770 | an engine that goes down by itself has queued a fatal event first |
| `HostSession.PersistBoundsReplay` | cli/src/sync.rs:468-489 | after persisting, fewer than 100 rows and at most 4 MiB to replay, and the frontier is the stored cursor |
| `HostConnection.Host.ConnectAll` | cli/src/sync.rs:372-376 | no engine is asked to connect twice |
| `HostConnection.Host.OnConnectResult` | cli/src/daemon.rs:1550-1575 | a new socket survives its first pump exactly when no fatal event was left unread; from calm engines it always does |
| `HostConnection.LeavesUnread` | cli/src/daemon.rs:1613-1638 | a run that leaves one unread |
| `HostRun.Take` | cli/src/daemon.rs:1540-1676 | a turn of the loop whose storage holds leaves every engine calm, its storage and itself in agreement and its frontier stored, loses no connection that came up, no operation from any doc or its disk, and no doc but one it is told to forget or the server closed |
| `HostRun.RunFromBoot` | cli/src/daemon.rs:1540-1788 | so does any run of turns, from whatever is stored: at its end Home, and every doc nobody took away, has on disk all that was stored of it |
| `HostConnection.TakenDownAtOnce` | cli/src/daemon.rs:1550-1565 | and the connection after it, which is up and sends, is down when its first pump returns |
| `HostConnection.Host.Pump` | cli/src/daemon.rs:1677-1771 | afterwards the socket is up only if the home engine is; the direct drop for a dead home engine is never taken; a failed send takes the engines down and leaves their events; engines that said nothing fatal beside a queued frame are left calm; no engine loses anything, what was queued is what is sent, and parked syncs are answered once, when home's pull is complete or the socket is lost |
| `HostConnection.Host.GiveUp` | cli/src/daemon.rs:1775-1788 | engines and socket go down together, and each parked sync is answered that it failed |
| `HostConnection.Host.ScheduleReconnect` | cli/src/daemon.rs:1790-1803 | the backoff doubles, up to its bound |
| `HostConnection.Host.OnWsMessage` | cli/src/daemon.rs:1613-1638 | if the storage holds, the engine the frame is for holds exactly what the frame brought more, has it on disk, and its stored cursor is its frontier; every other engine is as it was; a doc is forgotten exactly if the frame closes it and it is not Home; the wire carries what the frame made the engine queue and an ack of a frontier that rose, and nothing of any other doc; each parked sync is answered once, all of them when the frame ends home's pull, with yes while the socket is up. If the storage fails, nothing said is read |
| `HostConnection.Host.OnCommand` | cli/src/daemon.rs:1389-1395 | the operations are in the doc and on disk, every frontier is stored, and from Idle a push of all the server is not known to have is on record and on the wire; every other engine is as it was and sends nothing |
| `HostConnection.Host.RouteServerBytes` | cli/src/sync.rs:419-428 | bytes reach the engine of the doc they name, or home if they name none, and no other |
| `HostConnection.Host.OnPersistTick` | cli/src/daemon.rs:1640-1661 | every doc is as it was, all of it captured and every frontier stored; calm engines stay so and send nothing |
| `HostConnection.Host.PersistAll` | cli/src/sync.rs:468-489 | every doc is as it was, what was uncaptured is on disk and every frontier is the stored cursor |
| `HostConnection.Host.OnSyncRequest` | cli/src/daemon.rs:1405-1428 | the same, and the request is parked unless the socket is up and every engine idle |
| `HostConnection.Host.OnCreateDoc` | cli/src/daemon.rs:1460-1477 | the new doc is there, durable, and on a live socket exactly its OpenDoc is sent; every other doc is as it was |
| `HostConnection.Host.OnPingTick` | cli/src/daemon.rs:1663-1673 | the socket stays exactly if the last ping was answered and this one could be sent |
| `HostConnection.Host.SendOutboxes` | cli/src/sync.rs:735-753 | what each engine had queued has left, in its order |
| `HostKeeping.TookOn` | cli/src/daemon.rs:1616-1625 | bytes and a persist, of one engine: what was brought is held and durable, what was taught is known, the cursor is the frontier |
| `HostKeeping.CommittedOn` | cli/src/daemon.rs:1389-1395 | a commit, a persist and a flush, of one engine: the operations are held and durable, and from Idle the push with all of them is on record |
| `SearchIndexing.RemovedPostings` | core/src/search.rs:316-336 | dropping a doc's id from its tokens' postings gives exactly the inverse of the docs left |
| `SearchIndexing.InsertedPostings` | core/src/search.rs:338-354 | adding it gives exactly the inverse of the docs with it |
| `SearchObject.SearchIndex.Remove` | core/src/search.rs:316-336 | drops a doc and keeps the index exact |
| `SearchObject.SearchIndex.InsertDoc` | core/src/search.rs:338-354 | adds a doc and keeps the index exact |
| `SearchObject.SearchIndex.IndexList` | core/src/search.rs:265-281 | files a list and its name |
| `SearchObject.SearchIndex.RemoveList` | core/src/search.rs:285-288 | forgets a list and its name |
| `SearchObject.SearchIndex.IndexItem` | core/src/search.rs:291-313 | files an item under its list's current name |
| `SearchObject.SearchIndex.Rebuild` | core/src/search.rs:249-261 | the index of the current lists and items |
| `SearchObject.SearchIndex.NoteEvent` | core/src/search.rs:197-219 | an event marks the id it names |
| `SearchObject.SearchIndex.Reconcile` | core/src/doc.rs:4151-4183 | from whatever was indexed before, exactly what a rebuild makes |
| `SearchObject.ChangeCovered` | core/src/search.rs:189-219 | marking what a change touches keeps everything stale marked |
| `SearchObject.RenameAlone` | core/src/search.rs:263-281 | what indexing a renamed list alone does to its items |
| `SearchObject.RenameLeavesBehind` | core/src/search.rs:263-281 | an item that then answers to its list's old name and not the new |
| `SearchQuery.Query` | core/src/search.rs:360-411 | the first hits of the one ranking of the docs that match, as a scan would find them: each shown with its score, each outranking the next and every hit left out, and none left out unless the limit is reached |
| `SearchQuery.BeforeIsOutranks` | core/src/search.rs:387-398 | of two hits the one that comes first has more where they first differ: title hits, title prefix, body hits, context hits, liveness, last change; and the smaller id where they do not |
| `SearchQuery.ScoreIsKey` | core/src/search.rs:457-511 | the counts are numbers of query positions, and the score is their weighted sum and the liveness |
| `SearchQuery.RankingRanks` | core/src/search.rs:384-411 | what is cut from the ranking is the answer, said of the docs alone |
| `SearchRanking.TitleDecides` | core/src/search.rs:387-389 | a doc with more of the query's tokens in its title comes first, whatever else there is |
| `SearchRanking.ItemIsHit` | core/src/search.rs:291-313 | an item answers exactly to its text, its notes and its list's name |
| `SearchRanking.ListIsHit` | core/src/search.rs:265-281 | a list answers exactly to its name |
| `SearchIndexing.CorpusDocs` | core/src/search.rs:249-261 | every item and list of the corpus has its doc, and nothing else has |
| `Text.LessIsFirstDifference` | core/src/search.rs:397 | strings are ordered by their first difference |
| `SearchQuery.Search` | core/src/doc.rs:4151-4184 | the same of the current doc, whatever the index held before |
| `SearchQuery.RankingIsUnique` | core/src/search.rs:384-398 | the ranking does not depend on hash order |
| `SearchQuery.BeforeIsTotal` | core/src/search.rs:388-397 | the comparison is a strict total order on ids |
| `SearchQuery.ScoreDoc` | core/src/search.rs:457-511 | a score exactly for the docs that match |
| `SearchQuery.TokensCountOnce` | core/src/search.rs:457-498 | every query token of a hit is counted in one bucket |
| `SearchQuery.Intersect` | core/src/search.rs:426-442 | the smaller side walked, the intersection all the same |
| `SearchQuery.PrefixCandidates` | core/src/search.rs:415-424 | the docs holding a token with the prefix |
| `CivilCalendar.DateRecovered` | cli/src/commands/share.rs:339-350 | the date of a valid date's day number is that date |
| `CivilCalendar.DayRecovered` | core/src/places.rs:47-55 | for every integer day, its date is valid and its day number is that day |
| `CivilCalendar.TomorrowIsNext` | core/src/places.rs:47-55 | the day number rises by one from each date to the next |
| `CivilCalendar.DaysKeepOrder` | core/src/places.rs:47-55 | day numbers order valid dates as the calendar does |
| `CivilCalendar.WhenKeepsOrder` | core/src/places.rs:61-85 | so do the milliseconds of stored days |
| `CivilCalendar.MomentsKeepOrder` | core/src/places.rs:57-85 | and of any two stored values: by day, then by minute, a day alone counting as its midnight |
| `CivilCalendar.MomentRoundTrip` | cli/src/commands/share.rs:326-336 | a stored minute prints as the minute it says |
| `CivilCalendar.StampFloors` | cli/src/commands/share.rs:326-336 | every millisecond, before 1970 too, prints as the minute it is in |
| `CivilCalendar.WhenReads` | core/src/places.rs:61-85 | of every string: it is read exactly when its length, digits, month and day pass |
| `CivilCalendar.ReadsMalformed` | core/src/places.rs:57-85 | of every string: it is malformed and read all the same exactly when it passes those and fails on separators, month length, time range or what follows the day |
| `CivilCalendar.MalformedRead` | core/src/places.rs:57-85 | four such strings |
| `CivilCalendar.PastMonthEnd` | core/src/places.rs:47-55 | in every month, a day past its end has the number of a day of the next month |
| `CivilCalendar.PastMonthEndRead` | core/src/places.rs:75-77 | and as stored text reads as that day |
| `CivilCalendar.KeptIfInMonth` | core/src/places.rs:75-77 | of every month and every day from 1 to 31: the date comes back exactly when the month has the day |
| `Durations.FormatDuration` | cli/src/commands/items.rs:426-441 | the printed form, which is `Durations.TextIs` |
| `Durations.ParseDuration` | cli/src/commands/items.rs:447-479 | the parsed length, which is `Durations.PlainMinutes`, `Durations.UnitsRead` and `Durations.ReadIsUnits` |
| `Durations.TextIs` | cli/src/commands/items.rs:426-441 | days, hours below a day's and minutes below an hour's, each only if there are some, and `0m` for none |
| `Durations.PlainMinutes` | cli/src/commands/items.rs:453-455 | digits alone are that many minutes, if they fit in 32 bits |
| `Durations.UnitsRead` | cli/src/commands/items.rs:456-479 | days, hours and minutes in that order are read as their sum, unless it overflows or is no minutes and nothing else |
| `Durations.ReadIsUnits` | cli/src/commands/items.rs:456-475 | and no other string is read |
| `Durations.SpacesIgnored` | cli/src/commands/items.rs:448 | a space anywhere makes no difference |
| `Durations.Ninety` | cli/src/commands/items.rs:443-446 | 90 prints as 1h30m, and plain 90 is read |
| `Durations.DurationRoundTrip` | cli/src/commands/items.rs:426-479 | every length from 1 to the 32-bit maximum reads back as itself |
| `Durations.ReadsBackUnlessZero` | cli/src/commands/items.rs:437-473 | a printed length reads back exactly when it is not zero |
| `MergedAgenda.BuildAgendaFrom` | cli/src/commands/agenda.rs:122-222 | place, sort, group; what that comes to is `AgendaRules.AgendaIs` |
| `AgendaRules.Placement` | cli/src/commands/agenda.rs:125-200 | an item is placed exactly if it is neither binned nor cancelled and one of its days is shown: its current when, and while it is open its deadline, or today once past; on the first of those days, by its when on a tie, marked overdue, due today or neither |
| `AgendaRules.AgendaIs` | cli/src/commands/agenda.rs:122-222 | the agenda holds the row of each such item once, on its day, and in each day overdue deadlines come first, then rows by the field that placed them, then by age |
| `AgendaRules.TiesKeepOrder` | cli/src/commands/agenda.rs:201-206 | rows no key tells apart stay in the order of the sources |
| `MergedAgenda.AgendaShape` | cli/src/commands/agenda.rs:201-222 | days rise from Today, which is always there; no other is empty; every item that places is there once |
| `MergedAgenda.PlacedWithin` | cli/src/commands/agenda.rs:125-200 | an item is placed within the days shown, on the earlier of the days that place it |
| `MergedAgenda.MergeKeepsEachAgenda` | cli/src/commands/agenda.rs:119-122 | keeping one workspace's rows of the merge gives that workspace's agenda |
| `MergedAgenda.MergeShowsPlainAgenda` | cli/src/commands/agenda.rs:115-117 | and, tags off, what it prints by itself |
| `MergedAgenda.OnlySorted` | cli/src/commands/agenda.rs:201-206 | a stable sort commutes with keeping one workspace's rows |

## Left out

- The CRDT's own merge, lists, items and order: a doc is a set of operations, and
  updates that arrive before what they depend on are in the doc at once.
- Failing storage, undecodable stored values and failing encodes: every storage
  call of the durability theorems succeeds. The host's model has one failure, of
  persisting after a frame; in its other turns a failure ends the program.
- HostConnection.Host.OnWsMessage: an engine the failure hits in the middle of
  its own calls is left as it was.
- Mirrors.Host.OnImport: the persist and flush in between are over the engines,
  and are `HostConnection.Host.OnCommand`'s; here the doc and its mirrors move.
- Encryption, message encoding, sockets, timers, processes and file locks.
- Re-sending an `Ack` that a disconnect cleared: the engine does not, and no
  progress of acks is claimed.
- Progress in general: nothing here says a frame is ever delivered.
- The server's compaction: the log keeps every row, and a device too far behind
  is answered with the snapshot chain at the server's choice. The floor is only
  echoed, and `SentBack` says what it means for a pull.
- A snapshot request that reaches a device before its pull is answered, and one
  answered after its lease has passed to another device and back: the server's
  contract excludes both.
- MirrorBridging.MirrorBridge.FinishOpen: a stop that arrives while a doc opens
  is modelled, but the convergence theorems are about docs that stay open;
  `MirrorBridge.close` is not modelled.
- HostConnection.Host.Pump: when a send fails the frames already written are not
  told apart from those still queued, since the disconnect drops both.
- Last-synced stamps, watchers and status publishing of the host.
- Tokenizing text (Unicode folding) and `matches_name`; whitespace in durations
  is ASCII, and dates and strings are one unit a character.
- CivilCalendar.DaysFromCivil: 64-bit overflow near the ends of the range.
- `unscheduled_events` and `unscheduled_from`, place suggestions, printing.
- A list with an empty id, or an item with a list's id: the index is modelled
  for docs that have neither.
