# Verification of the local state of the Google Drive FUSE client (Rust)

This project models the state that the Rust client keeps on the user's machine
and proves what its design promises about it. Drive, SQLite and the file system
appear as maps and as answers given from outside. Cited paths are relative to
the repository's root.

`dafny verify dfyconfig.toml` checks everything.

## How the model is organised

**Task queue.** `QueueProtocol` is a step machine in which any number of
callers and the five workers interleave at the granularity of single accesses
to shared state: counting navigations, inserting into `tracking`, reading the
epoch, sending, receiving, checking the epoch, calling Drive, removing from
`tracking`, completing one waiter. Invariants tie the map, the channels and the
workers together, and a ranking on FIFO positions bounds how long a waiter
waits. `QueueManager` holds the imperative code and proves each method body to
be a run of those steps.

**Write-back and content cache.** `ContentTiers` has the three tiers (moka,
SQLite BLOBs, disk files) and their refinement of one map of last stored bytes.
`Names` has the namespace: inodes, metadata, cached listings, name index and
the parents of placeholders; `Listings` says what its operations mean, entry by
entry and name by name. `Client` puts both together with the metadata rows
and defines every operation on that state. `ClientRun` lets FUSE callbacks,
downloads, listings, the change feed, evictions, crashes with restarts and the
uploader's separate calls happen in any order. The uploader loads an entry,
reads its row again, asks Drive, and then finalises an accepted upload in four
calls (row, BLOB, remaining content, namespace) or gives a refused one up in two.
Files may be stored again, deleted, downloaded or changed by the feed while
their own upload is in flight.
Over these runs,

- `Durability` proves that non-empty bytes stored as a local modification stay
  in the durable tiers until Drive holds them,
- `Placeholders` proves where pending files are visible and that the uploader
  sees the latest rename,
- `Inodes` proves the inode maps sound, stable, and restored after a remount,
  also for files that were promoted from placeholders.

`Reads` states what a reader sees across one local write or one upload, and
`Coherence` carries that through whole runs: every key that a file's reads can
go to holds its last stored bytes, and everything kept under a checksum has that
checksum. A ledger, computed from the run, records the last bytes stored at each
key and the few keys that a mishap has spoilt; the results are per key, so a
mishap with one file takes nothing from the others. `Witnesses` and `Stranding`
reach, by runs from the first start, states in which the code falls short.

**The code that changes this state.** `DbManager`, `ObjectManager`,
`UploadManager`, `FuseOps`, `SyncManager` and `CacheCleaner` are classes with
the fields of the Rust structs. Each method's postcondition says which
operation of the abstract client it performs on the whole state, so the results
about runs are results about these bodies.

**Duplicate names.** `DupNames` has the suffix search and the resolution of one
listing, `MappingFile` the persisted text format, `DupRuns` runs of listings
and remounts, `DupMapping` the imperative code with its 32-bit counter.

**Change feed.** `SyncProtocol` is the poll as a step machine with crashes
between any two steps; `SyncManager` is the code.

**Small parts.** `WriteBuffer` is the handle's buffer with a sparse file as the
independent description of the temporary-file branch. `Sorting` and `Basics`
are shared vocabulary.

## Where the code does not do what one would expect

Each of these has a lemma that says exactly when the code does meet the
expectation, and one with an input on which it does not.

- A write that arrives between an upload's load and its finalisation loses its
  dirty flag (`Durability.LateWrite`, `Durability.LateWriteToNewFile`; reached in
  `Witnesses.LateWriteIsLost`). If it is small it also lands under the checksum
  of the uploaded bytes, where other files read it
  (`Durability.LateWriteSpreads`). The note at
  `clients/rust/src/upload_manager.rs:29-36` says that the second write is
  found again by the next poll; the code clears the flag, so it is not.
- A write between the calls of an update's finalisation, after its row has been
  cleared and before its content has moved, leaves the file dirty with nothing
  to upload, unless Drive sent no checksum (`Durability.MidCommitWrite`,
  `Durability.MidMoveWrite`; reached in `Witnesses.MidCommitWriteIsLost`). After
  the content has moved a write is safe (`Durability.LastCallWrite`). Until the
  last call the file's reads still go to its old checksum
  (`Durability.MidCommitRead`).
- A release to a placeholder whose row has just been finalised makes a second
  row that nothing leads to: it stays dirty without metadata or inode, with a
  checksum there is nothing left to upload
  (`Durability.MidCommitWriteToNewFile`), and it carries the inode that the real
  id's row has, so that a remount is unsound (`Inodes.SharedInode`; reached in
  `Witnesses.OrphanedWrite`). A release after Drive has refused the placeholder
  makes such a row too (`Inodes.RowWithoutInode`). A large write to the new real
  id before the placeholder's BLOB arrives there is hidden by it
  (`Durability.CoveredWrite`).
- A placeholder that stays dirty because its real id had a row already loses
  only its BLOB if Drive answers without a checksum (`Coherence.StrandedKey`).
  If a stale disk file stays behind, the next upload takes it along to a
  checksum, where it is served once the RAM copy is evicted
  (`Coherence.StrandedUpload`; reached in `Stranding.WrongBytesAreServed`).
- A removal in the feed leaves the file in cached listings and in the name index,
  with no metadata or row behind it (`SyncManager.RemovalStaysListed`; reached in
  `Witnesses.RemovedFileStaysListed`).
- A child with a slash in its name is not found in the name index by the name
  that a listing shows (`DupNames.FoundByShownName`).
- A change of the feed clears the flag of a dirty file, also the change that the
  client's own earlier upload has caused (`Durability.ChangeOverDirty`; reached
  in `Witnesses.FeedTakesWrite`), and a download that arrives late replaces a
  dirty file's bytes (`Durability.DownloadOverDirty`).
- A 404 on a creation gives the file's bytes up (`Durability.RefusalCost`).
- After a crash handle numbers start over, and a new file that gets the number
  of an unsent one replaces its bytes (`Durability.LeftoverOverwritten`; reached
  in `Witnesses.LeftoverIsLost`).
- An empty small copy in front of a disk file with content makes an upload send
  the disk file (`Reads.UpdatePreservesReads`, `Reads.CreatePreservesReads`;
  reached in `Witnesses.StaleUpload` by truncating a file after a large write).
- A replaced or removed placeholder stays known if it has moved to another
  parent since the uploader read its row (`Placeholders.ReplaceLeavesNoTrace`,
  `Placeholders.RemoveLeavesNoTrace`; reached in `Witnesses.LateMoveStays` and
  `Witnesses.RefusedMoveStays`).
- The update of the primary key in `finalize_new_file` fails silently when the
  change feed has already inserted the real id; the entry stays dirty
  (`UploadManager.EntryCleared`; reached in `Witnesses.FeedFirstStaysDirty`).
- A migration does not carry the bytes over when a RAM or BLOB copy already at
  the target hides them (`ContentTiers.MigrateCarries`,
  `Witnesses.MigrationHidden`).
- Two files that were never listed together keep equal names when they are
  (`DupRuns.ShrinkingListingClashes`), and a remount trims white space at the
  end of names, which can make two of them equal (`DupRuns.RemountKeepsApart`,
  `DupRuns.TrailingSpaceClashes`).
- An expired change token skips the changes that were waiting
  (`SyncProtocol.ExpiryKeepsPromise`, `SyncProtocol.ExpiryLosesChange`).
- An empty write past the end extends a RAM buffer but not a temporary file
  (`WriteBuffer.BranchesAgreeOnce`, `WriteBuffer.EmptyWriteDiffers`).

## Model

| member | source | states |
|---|---|---|
| `QueueProtocol.QueueSafe` | clients/rust/src/queue_manager.rs:243-281 | in every interleaving of callers and workers a key is in `tracking` exactly when one task for it is about to be sent, in one channel, or with one worker; every completion handle is in exactly one place; no stamp exceeds the counter |
| `QueueProtocol.NeverExecutedTwice` | clients/rust/src/queue_manager.rs:311-349 | two workers never execute the same key at the same time |
| `QueueProtocol.CompletedOnce` | clients/rust/src/queue_manager.rs:115-119 | a handle about to be completed holds no result yet, and no result is ever overwritten |
| `QueueProtocol.BatchSharesOutcome` | clients/rust/src/queue_manager.rs:406-416 | everyone attached to a task when its worker removes it gets that task's outcome, whatever runs in between |
| `QueueProtocol.WaiterServed` | clients/rust/src/queue_manager.rs:251-262 | a waiter on a task at a channel position is completed once the channel's worker has ended one iteration per task ahead, one for the task, and the one it is in |
| `QueueProtocol.EveryWaiterServed` | clients/rust/src/queue_manager.rs:251-262 | the same wherever the task is: with a worker the iteration it is in suffices; with a caller the count starts when it sends |
| `QueueProtocol.AttachedWaiterHasTask` | clients/rust/src/queue_manager.rs:251-262 | a handle that reaches `tracking` is attached to its key, and there is a task for that key somewhere |
| `QueueProtocol.WorkerProgress` | clients/rust/src/queue_manager.rs:301-328 | a worker that need not wait for uploads always has an enabled step, and each brings its iteration nearer to the end |
| `QueueProtocol.StepShrinks` | clients/rust/src/queue_manager.rs:299-349 | every step of a worker within an iteration shrinks what is left of it |
| `QueueProtocol.EpochCounts` | clients/rust/src/queue_manager.rs:246-249 | the epoch counter has grown by exactly the number of `DirUrgent` enqueues of the run |
| `QueueProtocol.DiscardExact` | clients/rust/src/queue_manager.rs:330-346 | a worker for directory or metadata prefetch executes a task if and only if no `DirUrgent` enqueue came between its stamping and the check, and otherwise answers its waiters that nothing was modified |
| `QueueProtocol.UploadsHoldBack` | clients/rust/src/queue_manager.rs:301-328 | as long as uploads go on, a worker for directory or metadata prefetch starts no task it has not cleared, and takes none if it is waiting |
| `QueueProtocol.UrgentExecutes` | clients/rust/src/queue_manager.rs:330-349 | the workers of the other three priorities call Drive for every task they take, whatever uploads and navigations come in between |
| `QueueProtocol.UrgentNeverWaits` | clients/rust/src/queue_manager.rs:192-208 | they never wait for an upload |
| `QueueManager.QueueManager.constructor` | clients/rust/src/queue_manager.rs:169-223 | a new queue is the initial protocol state |
| `QueueManager.QueueManager.EnqueueInner` | clients/rust/src/queue_manager.rs:243-281 | an uninterrupted call is exactly the protocol's begin, bump, track and, for a new key, stamp and send steps; a `DirUrgent` call advances the counter by one, a tracked key sends nothing, and a new task for directory or metadata prefetch carries the counter's value |
| `QueueManager.QueueManager.WorkerRound` | clients/rust/src/queue_manager.rs:299-349 | an uninterrupted round is a run of the worker's steps; a worker for directory or metadata prefetch does nothing while uploads go on and executes its task exactly when the stamp is not older than the counter; the others execute the task in any case; all waiters get Drive's answer, or that nothing was modified |
| `ContentTiers.TiersRefineMap` | clients/rust/src/object_manager.rs:575-656 | through any stores, warming reads, evictions and migrations onto absent or equal targets, a lookup gives the last stored bytes or a miss, and never misses content within the RAM limit |
| `ContentTiers.MigrateCarries` | clients/rust/src/object_manager.rs:790-807 | for any state of the tiers, a migration makes the target read as the source did if and only if nothing at the target shadows it |
| `Witnesses.MigrationHidden` | clients/rust/src/object_manager.rs:790-807 | two stores after which a migration is hidden |
| `ContentTiers.StandsEverywhere` | clients/rust/src/object_manager.rs:575-656 | the tiers represent a map when every key's three slots do |
| `ContentTiers.RepresentsStep` | clients/rust/src/object_manager.rs:640-656 | every tier operation keeps the representation of the map of last stored bytes, stale disk files behind a BLOB included |
| `Reads.WriteIsolated` | clients/rust/src/object_manager.rs:662-684 | a dirty write shows its bytes to readers of the file and changes no other file's read, also for files that shared its checksum |
| `Reads.UpdatePreservesReads` | clients/rust/src/upload_manager.rs:288-303 | after a successful update the file reads its uploaded bytes if and only if no stale empty copy hid the disk file; then other reads are unchanged or a miss becomes a hit, and the cache stays content-addressed |
| `Reads.CreatePreservesReads` | clients/rust/src/upload_manager.rs:237-262 | a created file reads its uploaded bytes or misses, except exactly when a stale empty copy was carried over; without one bystanders' reads are unchanged or filled and the tiers stay content-addressed, with one exactly the files on the new checksum read nothing |
| `Reads.PayloadIsLatest` | clients/rust/src/upload_manager.rs:136-180 | what is handed to Drive is the last stored content, unless an empty copy hides a disk file |
| `Reads.FinalizeThenMigrate` | clients/rust/src/db_manager.rs:354-371 | finalising the BLOB row before the migration changes nothing, also when that update fails on a taken key |
| `Coherence.TiersStayAddressed` | clients/rust/src/object_manager.rs:541-562 | after any run in which Drive's checksums, when it sends them, are honest, every key files' reads can go to, but for spoilt ones and one an upload is just moving, holds its last stored bytes and misses nothing small, and what is kept under a checksum that is not spoilt has it |
| `Coherence.ReadsAreRight` | clients/rust/src/object_manager.rs:575-590 | after any such run, also between the calls of an upload, a dirty file with content reads exactly its last stored bytes, and a clean file whose checksum is not spoilt misses or reads bytes with the checksum its metadata names |
| `Coherence.UploadKeepsReads` | clients/rust/src/upload_manager.rs:237-303 | after any such run finishing a creation or an update, whose copy is not outdated and whose keys are not spoilt, leaves the uploaded bytes readable under the final id, or, for a creation answered without a checksum, that id as it was; every other read is unchanged or filled |
| `Coherence.CarefulRunsSpoilNothing` | clients/rust/src/upload_manager.rs:29-36 | no key is spoilt and no upload outdated as long as a file in flight is not stored or deleted and nothing comes over its unsent bytes, downloads for a file being finalised bring the uploaded bytes, no upload starts from a stale disk file, and no placeholder stays dirty while its content moves without a checksum or is cut off by a crash |
| `Coherence.StrandedKey` | clients/rust/src/upload_manager.rs:247-260 | a placeholder that stays dirty while its BLOB goes to the real id still stands for its last stored bytes if and only if nothing of it stays behind |
| `Coherence.StrandedUpload` | clients/rust/src/object_manager.rs:790-807 | uploading what stayed behind with a checksum leaves reads there right, once the RAM copy is evicted, if and only if no disk file stayed behind or a BLOB at the checksum hides it |
| `Stranding.WrongBytesAreServed` | clients/rust/src/db_manager.rs:354-371 | a run after which a clean file reads other bytes under the checksum of those Drive holds |
| `Coherence.CommitMigrates` | clients/rust/src/upload_manager.rs:247-260 | with a checksum the end of a creation and of an update both move all content to it, although by different statements |
| `Durability.NoDirtyBytesLost` | clients/rust/src/object_manager.rs:662-684 | after any run from the first start, crashes, collections, evictions, refused and accepted uploads, half-finished finalisations and stores to files in flight included, non-empty bytes stored as a modification, and not refused, replaced or overtaken by an older upload since, are dirty, exactly held by the durable tiers and read, or on Drive |
| `Durability.LastWriteSurvives` | clients/rust/src/fuse_ops.rs:1473-1513 | the bytes of one release, also of one during the file's own upload, survive every later run that does not touch that file, whatever happens to others, under the id it goes on with |
| `Durability.InvRun` | clients/rust/src/upload_manager.rs:132-313 | the durability invariant holds through every run |
| `Durability.LateWrite` | clients/rust/src/db_manager.rs:338-346 | a write that falls between load and finalisation of an update stays secure if and only if it stored the very bytes that were uploaded |
| `Durability.LateWriteToNewFile` | clients/rust/src/upload_manager.rs:237-262 | the same for a creation |
| `Durability.MidCommitWrite` | clients/rust/src/upload_manager.rs:288-303 | a write after an update's row is cleared stays dirty, and is secure if and only if Drive sent no checksum; otherwise nothing is left to upload |
| `Durability.MidMoveWrite` | clients/rust/src/upload_manager.rs:295-302 | the same after the BLOB has moved |
| `Durability.LastCallWrite` | clients/rust/src/upload_manager.rs:302-303 | a write after the content has moved is secure |
| `Durability.MidCommitWriteToNewFile` | clients/rust/src/upload_manager.rs:237-262 | a release to a placeholder after its row is finalised ends dirty without metadata, parent or inode, with a checksum it has nothing to upload, and its bytes are secure if and only if they are neither moved to the checksum nor, being small, to the real id, or a disk file holds them |
| `Durability.CoveredWrite` | clients/rust/src/db_manager.rs:363-369 | a write to a new file's real id before the BLOB's call is secure if and only if it is small or no BLOB of other bytes moves there |
| `Durability.MidCommitRead` | clients/rust/src/upload_manager.rs:288-303 | until the last call a read of the file goes to the checksum its metadata had before |
| `Durability.ChangeOverDirty` | clients/rust/src/sync_manager.rs:183-193 | a change of the feed keeps a dirty file's bytes secure if and only if Drive already holds them |
| `Durability.DownloadOverDirty` | clients/rust/src/object_manager.rs:609-635 | a download that arrives for a dirty file keeps its bytes secure if and only if it brings the same bytes |
| `Durability.RefusalCost` | clients/rust/src/upload_manager.rs:264-278 | a refused creation keeps its bytes secure if and only if Drive holds them under its id |
| `Durability.CrashKeepsTables` | clients/rust/src/db_manager.rs:486-547 | a crash and restart keep both tables, lose RAM and namespace, and keep exactly the disk files that are temporary, named by a row's checksum, or dirty |
| `Durability.UploadedSurvivesRestart` | clients/rust/src/db_manager.rs:338-371 | content under the checksum of a finalised upload survives collection, unless the real id had a row already and no row names the checksum |
| `Durability.LeftoverOverwritten` | clients/rust/src/fuse_ops.rs:1064-1065 | releasing a file under a placeholder's number keeps the bytes left there if and only if they are the same |
| `Durability.LateWriteSpreads` | clients/rust/src/upload_manager.rs:288-303 | a small late write is read by every file with the checksum of the uploaded bytes |
| `Witnesses.LateWriteIsLost` | clients/rust/src/upload_manager.rs:29-36 | a run after which a second write is not secure |
| `Witnesses.MidCommitWriteIsLost` | clients/rust/src/upload_manager.rs:288-303 | a run after which a second write is dirty, not secure, and has nothing to upload |
| `Witnesses.OrphanedWrite` | clients/rust/src/upload_manager.rs:237-262 | a run after which a second release to a new file ends in a dirty row without metadata, inode or content, and after which no remount is sound |
| `Witnesses.FeedTakesWrite` | clients/rust/src/sync_manager.rs:183-193 | a run in which the change caused by the client's own upload makes a second write insecure |
| `Witnesses.LeftoverIsLost` | clients/rust/src/fuse_ops.rs:172-172 | a run over a crash after which an unsent file's bytes are gone |
| `Witnesses.RefusedMoveStays` | clients/rust/src/upload_manager.rs:264-278 | a run after which an abandoned placeholder is still listed |
| `Witnesses.StaleUpload` | clients/rust/src/upload_manager.rs:149-163 | a run after which the uploader carries bytes the file no longer has |
| `Witnesses.LateMoveStays` | clients/rust/src/upload_manager.rs:216-262 | a run after which a finalised placeholder is still listed |
| `Witnesses.FeedFirstStaysDirty` | clients/rust/src/db_manager.rs:354-361 | a run after which an uploaded entry is still dirty |
| `Placeholders.PlaceholdersVisible` | clients/rust/src/object_manager.rs:439-509 | after any run each pending id is once in its own parent's cached listing under its live name and in no other, a name that leads to it is its live name under that parent, and dirty pending rows carry the live name and parent, also after renames during an upload |
| `Placeholders.UploadUsesLatestRename` | clients/rust/src/upload_manager.rs:206-220 | after any run the row the uploader reads before calling Drive has the placeholder's live name and parent |
| `Placeholders.PlaceholderGone` | clients/rust/src/object_manager.rs:930-982 | once its finalised upload's name is replaced, or its refused one is removed, under the parent it still has, no parent record, listing, name, metadata or inode entry knows a pending id |
| `Placeholders.ReplaceLeavesNoTrace` | clients/rust/src/object_manager.rs:955-982 | a replacement leaves no trace of the pending id in the namespace if and only if it names the current parent, or the current parent's listing is not cached and the name cannot be found |
| `Placeholders.RemoveLeavesNoTrace` | clients/rust/src/object_manager.rs:930-945 | the same for a removal after a refusal |
| `Placeholders.RemovedAway` | clients/rust/src/upload_manager.rs:264-278 | a removal under another parent keeps the entry listed if and only if the recorded parent's listing is cached, and that breaks the visibility invariant |
| `Placeholders.RenameReleaseCommute` | clients/rust/src/fuse_ops.rs:1482-1507 | a rename and a release of one placeholder give the same rows, metadata, parents, name index and content in either order |
| `Placeholders.InvalidateVisible` | clients/rust/src/object_manager.rs:719-733 | invalidating a listing keeps every placeholder's place |
| `Placeholders.RenameVisible` | clients/rust/src/object_manager.rs:867-908 | renaming or moving a placeholder keeps every placeholder in exactly its parent's listing |
| `Inodes.InodesSound` | clients/rust/src/object_manager.rs:277-307 | after any run with any number of remounts every id's inode leads back to that id and lies below the counter, and every row carries its id's inode or, between the calls that replace a placeholder, the placeholder's |
| `Inodes.RestoreSoundExactly` | clients/rust/src/object_manager.rs:282-291 | the restore is sound if and only if the persisted inodes are distinct and none is the root's |
| `Inodes.RestoreRegains` | clients/rust/src/db_manager.rs:258-271 | after a remount every id with a row has the inode its row carries, also when the crash came between the calls of an upload |
| `Inodes.InodesStable` | clients/rust/src/object_manager.rs:375-384 | within a mount an inode names the file it named before, or the real file its placeholder became |
| `Inodes.InodeSurvivesRemounts` | clients/rust/src/db_manager.rs:165-175 | a file that keeps a row keeps its inode, through promotion to a real id and across crashes and remounts, in the table always and in memory once its name is replaced |
| `Inodes.SharedInode` | clients/rust/src/db_manager.rs:165-175 | a remount after a release to a placeholder whose row has been finalised and whose inode has not been handed over is sound if and only if the release was empty |
| `Inodes.RowWithoutInode` | clients/rust/src/upload_manager.rs:264-278 | a release to a refused placeholder before it is removed leaves a row without inode and metadata if and only if it was not empty |
| `DbManager.DbManager.StoreMetadata` | clients/rust/src/db_manager.rs:154-188 | the row has the given parent, name, checksum and flag, and the given inode unless there was a row; no other row changes |
| `DbManager.DbManager.FinalizeNewFile` | clients/rust/src/db_manager.rs:354-371 | both primary-key updates, each doing nothing if the new key is taken; a row that moves is clean and names the checksum |
| `DbManager.DbManager.MigrateSmallFileKey` | clients/rust/src/db_manager.rs:426-444 | the BLOB moves to the new key, replacing what was there |
| `DbManager.DbManager.ListDirtyEntries` | clients/rust/src/db_manager.rs:293-316 | exactly the dirty rows, each once |
| `DbManager.DbManager.LoadInodeMap` | clients/rust/src/db_manager.rs:258-271 | every row's id and inode, each once |
| `DbManager.DbManager.RunGc` | clients/rust/src/db_manager.rs:486-547 | keeps exactly the files that are temporary, named by a row's checksum, or named by a dirty row's id |
| `DbManager.DbManager.ProtectedKeys` | clients/rust/src/db_manager.rs:488-515 | exactly the non-empty checksums in use and the dirty ids |
| `ObjectManager.ObjectManager.constructor` | clients/rust/src/object_manager.rs:258-321 | a start over existing tables and files is the abstract restart: collection (called at `clients/rust/src/main.rs:110-112`), then restore of inodes |
| `ObjectManager.ObjectManager.GetOrAllocIno` | clients/rust/src/object_manager.rs:375-384 | performs `Alloc` on the namespace and returns the id's inode |
| `ObjectManager.ObjectManager.StoreDirListing` | clients/rust/src/object_manager.rs:439-509 | the cached listing begins with exactly the files that arrived, in order, and goes on with placeholders only, among them all that were listed before or are known for the directory; every file has its metadata and an inode, and its name leads to it, the last one counting among equal ids or names; for any iteration order of the map |
| `Placeholders.ListingShown` | clients/rust/src/object_manager.rs:466-509 | after any run a listing that arrives is shown as it is, with nothing but pending entries after it |
| `Inodes.ListedInodesLead` | clients/rust/src/object_manager.rs:440-445 | after any run every file of a listing that arrives is reached by its inode and has the metadata that arrived |
| `DupNames.FoundByShownName` | clients/rust/src/object_manager.rs:1061-1085 | a child is found in the name index by the name a listing shows for it if and only if its name has no slash |
| `ObjectManager.ObjectManager.InvalidateDir` | clients/rust/src/object_manager.rs:719-733 | drops the listing and the names of exactly its non-pending files, and nothing else |
| `ObjectManager.ObjectManager.InjectPendingIntoDir` | clients/rust/src/object_manager.rs:849-860 | the placeholder has an inode and a parent, is found by its name, and is added to the end of the parent's cached listing unless it is there; nothing else changes |
| `ObjectManager.ObjectManager.RenamePending` | clients/rust/src/object_manager.rs:867-926 | the placeholder has the new name and parent in metadata, parent record, name index and table; it is renamed in place or moved to the end of the other cached listing, and no other entry, name or row changes |
| `ObjectManager.ObjectManager.RemovePendingFromDir` | clients/rust/src/object_manager.rs:930-945 | the placeholder's parent record, metadata, name, inode, RAM copy and listing entry are gone and everything else is as it was |
| `ObjectManager.ObjectManager.ReplacePendingId` | clients/rust/src/object_manager.rs:955-982 | the cached listing has the real file exactly where the placeholder stood, or at its end, and every other entry unchanged; the file has its own metadata, the placeholder's inode, and a name that leads to it |
| `ObjectManager.ObjectManager.CacheKeyFor` | clients/rust/src/object_manager.rs:550-562 | the id while pending or dirty, else the non-empty checksum, else the id |
| `ObjectManager.ObjectManager.GetContent` | clients/rust/src/object_manager.rs:575-590 | RAM before BLOB; what is found is in RAM afterwards, and nothing else changes |
| `ObjectManager.ObjectManager.StoreContentAtKey` | clients/rust/src/object_manager.rs:640-656 | stores into the tiers by size, clearing small copies of large content |
| `ObjectManager.ObjectManager.WriteLocalDirty` | clients/rust/src/object_manager.rs:662-684 | stores content under the id, where reads find it, a dirty row with the id's inode, name and parent, and the new size in the metadata |
| `ObjectManager.ObjectManager.MigrateCacheKey` | clients/rust/src/object_manager.rs:790-807 | moves all three tiers' entries |
| `UploadManager.UploadManager.LoadContent` | clients/rust/src/upload_manager.rs:136-180 | the bytes a read finds, or the disk file if they are empty and it is not; none if nothing is found or a new file is empty |
| `UploadManager.UploadManager.UploadEntry` | clients/rust/src/upload_manager.rs:132-313 | every branch (skip, defer, create, update, abandon, retry) as one operation on the client; which bytes were sent, and under which name and parent, read again from the row; an accepted creation replaces the placeholder as `ReplacePendingId` does, with the uploaded size if Drive names none |
| `UploadManager.UploadManager.ProcessDirtyEntries` | clients/rust/src/upload_manager.rs:121-130 | deals with exactly the rows that were dirty, one after the other |
| `UploadManager.UploadIsRun` | clients/rust/src/upload_manager.rs:132-313 | dealing with a dirty entry is a legal run of client events that ends with an idle uploader and changes Drive by exactly the sent bytes if accepted |
| `UploadManager.PassIsRun` | clients/rust/src/upload_manager.rs:121-130 | a whole pass over the dirty rows is a legal run of client events with the same result, whatever Drive answers |
| `UploadManager.PassDelivers` | clients/rust/src/upload_manager.rs:121-130 | after a pass Drive holds every accepted entry under its final id, with the bytes it was owed |
| `UploadManager.EntryCleared` | clients/rust/src/db_manager.rs:354-361 | an accepted upload leaves its entry dirty if and only if the new id already had a row, and changes no other entry's dirtiness |
| `FuseOps.FuseOps.Create` | clients/rust/src/fuse_ops.rs:1047-1096 | an unknown parent changes nothing; otherwise a placeholder under a new handle has its name, metadata, inode and parent, and stands at the end of the cached listing |
| `FuseOps.FuseOps.Open` | clients/rust/src/fuse_ops.rs:1189-1246 | unless it truncates, the buffer is what a read of the file finds afterwards: what it found before, or on a miss the download; the handle has the file's name and a placeholder's parent; the client is warmed, and on a miss stores the download, and nothing else |
| `FuseOps.FuseOps.Write` | clients/rust/src/fuse_ops.rs:1279-1309 | an unknown handle fails; otherwise the buffer holds the data where it was written, zeros in a gap, and its old bytes elsewhere, in either branch; an empty write extends only a RAM buffer |
| `FuseOps.FuseOps.Truncate` | clients/rust/src/fuse_ops.rs:1645-1658 | the buffer is cut or extended with zeros to the given size in either branch, and nothing else of the handle changes |
| `FuseOps.FuseOps.Flush` | clients/rust/src/fuse_ops.rs:1319-1346 | a RAM buffer is what is found under the handle's own id afterwards, and nothing else changes |
| `FuseOps.FuseOps.Release` | clients/rust/src/fuse_ops.rs:1385-1513 | the file the inode names now is dirty, reads find the buffer, and its row has the placeholder's live name and parent or the handle's; other rows and keys are unchanged; an empty new file is skipped |
| `FuseOps.FuseOps.RenamePlaceholder` | clients/rust/src/fuse_ops.rs:993-1015 | renames the placeholder, and the name and, on a move, the parent of the handle that created it |
| `FuseOps.FuseOps.Unlink` | clients/rust/src/fuse_ops.rs:891-902 | a deletion Drive confirms takes the file's metadata, RAM copy and disk file, and its parent's listing with its names, and leaves both tables alone; otherwise nothing changes |
| `FuseOps.EditInPlace` | clients/rust/src/fuse_ops.rs:1213-1309 | opening a file, writing inside it and closing it leaves every other byte as a read, or the download, had it |
| `FuseOps.TargetFollows` | clients/rust/src/fuse_ops.rs:1407-1442 | a placeholder opened again whose upload has finished is released to the file it became |
| `FuseOps.ParsesBack` | clients/rust/src/fuse_ops.rs:999-1002 | the handle number is read back from a placeholder's id |
| `WriteBuffer.LastEffect` | clients/rust/src/fuse_ops.rs:1303-1309 | a byte of the buffer is what the last write covering it wrote, or zero if it was cut off later |
| `WriteBuffer.Untouched` | clients/rust/src/fuse_ops.rs:1303-1309 | a byte no operation decided is the seed's, or zero in a gap |
| `WriteBuffer.Extent` | clients/rust/src/fuse_ops.rs:1645-1658 | whether a byte exists was decided by the last write reaching past it or the last truncation |
| `WriteBuffer.BranchesAgreeOnce` | clients/rust/src/fuse_ops.rs:1282-1309 | one operation leaves the same bytes in RAM and temporary file unless it is an empty write past the end |
| `WriteBuffer.EmptyWriteDiffers` | clients/rust/src/fuse_ops.rs:1282-1309 | an empty write past the end of an empty file differs |
| `WriteBuffer.BranchesAgree` | clients/rust/src/fuse_ops.rs:1282-1309 | any operations with non-empty writes leave the same bytes in both branches |
| `DupNames.SuffixInjective` | clients/rust/src/dup_mapping.rs:169-174 | different numbers give different names, and none gives the base |
| `DupNames.SuffixKeepsExtension` | clients/rust/src/dup_mapping.rs:169-174 | the number goes before the extension, or to the end of a name without one |
| `DupNames.SearchBound` | clients/rust/src/dup_mapping.rs:95-106 | while every candidate up to n is taken there are more than n taken names |
| `DupNames.FirstFree` | clients/rust/src/dup_mapping.rs:98-105 | the search stops at the first free number, which is at most the number of taken names |
| `DupNames.ResolveUnique` | clients/rust/src/dup_mapping.rs:75-123 | the names returned are pairwise different if and only if ids are distinct and stored names of listed files do not clash; stored names are kept and only listed files are added |
| `DupNames.ResolveSlashFree` | clients/rust/src/object_manager.rs:1074-1085 | no name returned has a slash if and only if no stored one did |
| `DupNames.NewcomerName` | clients/rust/src/dup_mapping.rs:92-108 | a new file keeps its display name if and only if no file of the listing has it at its turn, and otherwise gets the first free suffix of it |
| `DupRuns.NamesStayUnique` | clients/rust/src/dup_mapping.rs:26-27 | in every run of growing listings, with clean names at each remount, every directory's names are pairwise different and slash-free, and a clean mapping is the one saved |
| `DupRuns.NamesAreStable` | clients/rust/src/dup_mapping.rs:26-27 | a file keeps its name through every later listing and mount |
| `DupRuns.CleanListingsSuffice` | clients/rust/src/dup_mapping.rs:127-161 | that guard holds when every listing is clean, and when there is no remount |
| `DupRuns.ShrinkingListingClashes` | clients/rust/src/dup_mapping.rs:80-85 | two files first listed apart with one base name get the same name in a joint listing |
| `DupRuns.RemountKeepsApart` | clients/rust/src/dup_mapping.rs:130-138 | a remount keeps names apart if and only if they differ in more than trailing white space |
| `DupRuns.TrailingSpaceClashes` | clients/rust/src/dup_mapping.rs:130-138 | one listing and one remount after which two files have one name |
| `DupMapping.ReadFile` | clients/rust/src/dup_mapping.rs:127-144 | the line loop computes the parse of the text |
| `DupMapping.WriteFile` | clients/rust/src/dup_mapping.rs:146-161 | the text written is the one text for the map, whatever its iteration order |
| `DupMapping.DupMapping.FreeName` | clients/rust/src/dup_mapping.rs:95-106 | the loop with its 32-bit counter ends without overflow at the specified name |
| `DupMapping.DupMapping.Resolve` | clients/rust/src/dup_mapping.rs:75-123 | the mapping, the saved text and the returned names, in order, are those specified |
| `MappingFile.RoundTrip` | clients/rust/src/dup_mapping.rs:127-161 | reading the written file gives the map back if and only if every id and name is clean |
| `MappingFile.ReadBackTrimmed` | clients/rust/src/dup_mapping.rs:130-138 | names come back without their trailing white space and otherwise unchanged |
| `MappingFile.FormatDependsOnMap` | clients/rust/src/dup_mapping.rs:153-158 | the text depends on the map alone |
| `MappingFile.ParseClean` | clients/rust/src/dup_mapping.rs:127-144 | whatever text is read, only clean ids and names come out |
| `SyncProtocol.AtLeastOnce` | clients/rust/src/sync_manager.rs:71-129 | with crashes anywhere, every change between the last fresh token and the persisted one has been applied |
| `SyncProtocol.Converges` | clients/rust/src/sync_manager.rs:114-120 | when a poll completes, the row of every file nothing else touched says what the last change before the token made it say, however often changes were replayed |
| `SyncProtocol.NeverBehind` | clients/rust/src/sync_manager.rs:114-120 | between polls such a row corresponds to a position at or after the token |
| `SyncProtocol.ChangeSetsRow` | clients/rust/src/sync_manager.rs:132-195 | a change fixes its file's row content regardless of what it was, and no other row |
| `SyncProtocol.ExpiryKeepsPromise` | clients/rust/src/sync_manager.rs:88-107 | replacing an expired token skips no change if and only if the client had reached the end of the feed |
| `SyncProtocol.AppliedExactly` | clients/rust/src/sync_manager.rs:114-120 | the changes applied since the last fresh token are exactly those before the furthest position reached |
| `SyncProtocol.ExpiryLosesChange` | clients/rust/src/sync_manager.rs:88-107 | a run in which a change is skipped |
| `SyncManager.SyncManager.ApplyChange` | clients/rust/src/sync_manager.rs:132-195 | a removal takes the file's metadata, row and content; any other change sets its metadata and its clean row, and reads go to the change's checksum, whatever was known before; content is dropped exactly when two checksums differ |
| `SyncManager.RemovalStaysListed` | clients/rust/src/sync_manager.rs:135-154 | after a removal no metadata or row is left, but a file is listed, or found by name, exactly where it was before |
| `Witnesses.RemovedFileStaysListed` | clients/rust/src/sync_manager.rs:135-142 | a run after which a removed file without metadata or row is still listed |
| `SyncManager.SyncManager.PollOnce` | clients/rust/src/sync_manager.rs:71-129 | all changes after the token in order, then the new token; errors change at most the token |
| `SyncManager.PollIsRun` | clients/rust/src/sync_manager.rs:71-129 | a poll answered with changes is a run of the protocol that can persist the end of the feed |
| `CacheCleaner.CacheCleaner.CleanOnce` | clients/rust/src/cache_cleaner.rs:62-139 | removes exactly the shortest oldest-first run of removable files that frees the overrun, or all of them, and reports their sizes |
| `CacheCleaner.PassUnique` | clients/rust/src/cache_cleaner.rs:90-134 | the scan determines what is removed |
| `CacheCleaner.BytesConserved` | clients/rust/src/cache_cleaner.rs:71-134 | bytes before are bytes after plus bytes freed |
| `CacheCleaner.BudgetReached` | clients/rust/src/cache_cleaner.rs:78-134 | the pass ends within the budget if and only if removable files suffice; otherwise only temporary, pending, dirty or unremovable files remain; without the last file removed it would not have sufficed |
| `CacheCleaner.LeastRecentlyUsed` | clients/rust/src/cache_cleaner.rs:90-123 | nothing temporary, pending or dirty is removed, and nothing younger than a removable file that stays |
| `CacheCleaner.PassIsLegal` | clients/rust/src/cache_cleaner.rs:103-123 | a pass is an eviction that the runs of `ClientRun` allow |

## Left out

- Durability.NoDirtyBytesLost: assumes that only this client changes Drive's content; bytes leave the promise when Drive refuses the file, when a change of the feed or a download comes over it while it is dirty (`RefusalCost`, `ChangeOverDirty`, `DownloadOverDirty`), and when an upload that was loaded before they were stored overwrites Drive, clears their flag or moves them (`LateWrite`, `LateWriteToNewFile`, `MidCommitWrite`, `MidMoveWrite`, `MidCommitWriteToNewFile`, `CoveredWrite`); empty content is not owed, because the uploader defers it.
- Durability.LastWriteSurvives: under the same assumption; `Touches` lists these events.
- Reads.UpdatePreservesReads: starts from tiers that hold content-addressed last stored bytes, which `Coherence.TiersStayAddressed` shows of runs, and a checksum without collisions.
- Reads.CreatePreservesReads: under the same assumptions.
- Coherence.ReadsAreRight: assumes that Drive's checksums describe the bytes it sends and receives and that they do not collide; promises nothing about spoilt checksums: those to which content has moved that was not what Drive was sent, because it was stored during the upload (`Durability.LateWriteSpreads`), or lay before a stale disk file that was sent instead (`Reads.UpdatePreservesReads`), or had been stranded by an earlier upload or a crash (`StrandedUpload`); a download at the checksum makes it good again.
- Coherence.TiersStayAddressed: under the same assumptions.
- Coherence.UploadKeepsReads: under the same assumptions.
- Placeholders.PlaceholdersVisible: assumes that a new file does not get the number of an unsent one left from before a crash, that a rename names the current parent, and that a placeholder is not under another parent when it is replaced or removed than when the uploader read its row (`ReplaceLeavesNoTrace` and `RemoveLeavesNoTrace` say what happens then); renames at any other time are allowed.
- Placeholders.PlaceholderGone: under the same assumptions.
- Inodes.InodesSound: assumes that the real id of a new file has no row yet when the placeholder's row is finalised, that the feed does not drop that row before the name is replaced, and that no content is released to a placeholder between the calls that take its row and its inode (`SharedInode` and `RowWithoutInode` say what happens then).
- Inodes.InodesStable: under the same assumptions.
- Inodes.InodeSurvivesRemounts: under the same assumptions.
- DupMapping.DupMapping.Resolve: for fewer than 2^32 listed files, where the counter cannot overflow.
- FuseOps.FuseOps.Open: models the RAM branch; the branch for large files seeds a temporary file by copying.
- FuseOps.FuseOps.Release: models the write-back mode; the direct-upload fallback without a database is not part of the model, nor is the object manager without one.
- SyncProtocol.Converges: speaks of rows that no other part of the client has changed since the token was taken; applied to a dirty file a change clears its flag, as in the code.
- Interleavings inside one call: each FUSE callback and each cache or database call is one step, and so are a whole pass of the cleaner, with its checks and removals, and the several calls with which `apply_change` deals with one change; the queue, the uploader and the poll are taken apart.
- Failing SQL statements, connection pools and failing disk writes, other than removals the cleaner cannot do and a mapping file that cannot be saved.
- Time: TTLs, ETags and the states of cached listings, settling sleeps, modification times; evictions happen at any moment instead.
- The size limit and admission policy of the RAM cache: any set of keys may be evicted at any time.
- Order of iteration over concurrent maps and SQL results: a parameter, with results that hold for every order.
- Integer widths other than the suffix counter: inodes, handle numbers, sizes and epochs are unbounded.
- UTF-8: file names and the mapping file are sequences of characters.
- HTTP, authentication, JSON, configuration, command line, logging, file attributes, link files for Workspace documents, the duplicates report, read clamping and directory cookies.
- Creating, deleting and renaming on Drive itself through `mkdir`, `unlink`, `rmdir` and `rename` of uploaded files, beyond what they do to local metadata.
- Executing a queue task: Drive's answer is a parameter of the step; storing the result is the listing, metadata and download events of `ClientRun`.
- The C++ client, a read-only variant of the same ideas.
