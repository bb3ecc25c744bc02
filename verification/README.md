# Verification of the media store

This project models the parts of Pinry that must stay consistent while many
requests, workers and crashes interleave, and proves properties of that model
with Dafny. `dafny verify dfyconfig.toml` checks all of it.

What the modules are about:

- **MediaStore, MediaInvariant, MediaSteps, MediaOutbox, MediaTheorems, MediaProgress, MediaInterference, MediaLostAnswer, MediaRegistry**:
  imports, registered and legacy Pin deletes, deletion workers and the
  backfill's inserts as one transition system over the committed database,
  the media directory (name to inode, inode to bytes), the dedup stripes and the lifecycle lock.
  Every step another process can observe is an action; `Crash` may come between any two.
  SHA-256 is an arbitrary function: no theorem here assumes that it has no collisions.
- **MediaServices, MediaDeletion**: the import, the deletion of a registered Pin and the deletion
  worker as methods that update the same state step by step, with other processes running and checks failing
  between any two steps. Every execution of them is proved to be a run of the transition system, so all its theorems apply to them.
- **Idempotency, ImportLease, ImportLeaseProofs**: the lease-based
  compare-and-swap store as a class whose claim loop runs against an arbitrary
  environment, and any number of its workers as a transition system with a
  clock that may show anything at each reading.
- **BackfillPlan, BackfillBatches, BackfillRun**: freezing a plan, deciding what to register,
  cutting it into batches, and carrying it out through intent, database batch and
  commit with a crash allowed before each of them.
- **ManifestLog, ManifestResults, ManifestSound, Json, Decimals**: the manifest file, byte by byte: compact ASCII JSON
  (section 7 of RFC 8259), the frozen plan, torn tails and their repair, appended results.
- **Boards, BoardMachine, BoardProofs, BoardEffects, BoardServices**: board covers, membership and
  Pin privacy, as interleaved row-locked transactions and as the services that run in them.
- **LockOrder**: the file locks and the row locks of imports, deletes, board services, the writer gate and
  the worker, why they do not wait in a circle, and the one circle that an import's commit can close.
- **MediaTree, MediaPublish**: publishing four files under two directories with a
  fault at any point, and taking all of it back.
- **RandomOrder, BoardOrder, TagMerge, Paths, PathLaws**: the affine shuffle modulo 2^31-1, the optimistic
  reorder, the tag merge, and building versus recognising canonical media paths.

Code that updates state in place is a class or a method proved against a
specification; protocols in which other processes interleave are transition
systems, whose theorems quantify over every run.

## What the proofs found

- **An edit that leaves `private` alone can break a cover.** `PinSerializer.update`
  without that field saves the whole row it loaded before taking any lock
  (core/serializers.py:347-348), so it can write an old `private=True` over a Pin that has since
  been published and made the cover of a public board. `BoardProofs.CoversBreakExactlyWhenUnsafe`
  proves that covers break in exactly this case and in no other step;
  `BoardProofs.AnUnsafeEditHappens` gives a run from a valid state that gets there.
- **A COMMIT whose answer is lost costs the rows their files, unless the import made none of them.** When COMMIT
  raises, the import compensates without asking whether the database applied it
  (core/services/pin_import.py:260-278). `MediaLostAnswer.LostCommitAnswer` proves that rows still imply files
  after any part of that compensation if and only if no file taken back was made by this import;
  `LostReuseAnswerIsHarmless` that an import which reuses an asset loses nothing; and
  `MediaProgress.ALostAnswerCanHappen` that the harmful case is open in every quiet store, for every new upload. All other
  theorems about the media store hold when a COMMIT reported as failed did not take effect.
- **A uuid directory can be left behind.** If the stat straight after the `mkdir` of a uuid directory
  fails, that directory is in no handle yet and is not removed
  (django_images/file_ops.py:1490-1571). `MediaPublish.MediaFs.Publish` proves that a failed publish restores
  both trees if and only if `Loses` does not hold of the tree, the uuid and the fault it began with;
  `LosesMeans` says in plain terms which these are, and `LosingADirectory` runs into it in an empty media directory.
- **One version of the board order can serve two reorders.** A save names the order it was made on by a digest of that order,
  so when a third save brings the order back, a second save on the old version is accepted too
  (core/services/board_ordering.py:51-81). `BoardOrder.AVersionServesTwice` is that run, for any
  three orders; `BoardOrder.SecondSaveOnAVersion` proves that it happens if and only if the order was brought back in between.
- **An import's commit can deadlock with a board service.** The foreign keys to the user are checked at COMMIT, which locks the user's
  row while the import still holds its board rows; deleting or reordering boards locks the user first and then the
  boards (core/services/pin_membership.py:210-218, core/services/board_ordering.py:53-60).
  `LockOrder.ACommitDeadlocks` is such a run, `LockOrder.DeadlockWithAnImport` its exact condition: the import's own
  user is locked and a board of the import is asked for. `LockOrder.NoWaitingCycle` proves that every cycle passes
  through such a commit. The database then aborts one of the two, which the media store models as `Abort`.
- **A result is written before it is checked.** `record_result` appends its line and then reloads, so for an image that is not planned
  or has its result already the manifest can no longer be read (core/services/media_asset_backfill.py:737-760).
  `ManifestResults.RecordResult` proves that this is exactly the case; the callers look the image up first.

## Model

| member | source | states |
|---|---|---|
| MediaTheorems.RowsAlwaysImplyFiles | core/services/pin_import.py:141-259 | in every state reachable by any interleaving, with crashes anywhere, each committed Image or Thumbnail row names an existing file whose bytes have the digest published for it |
| MediaTheorems.RegistryAlwaysConsistent | core/models.py:374-547 | in every reachable state no two assets share (submitter, digest); a registered image has all four rows, at least one Pin and only Pins of its submitter; every Pin's image row exists; legacy deletes give up the lifecycle lock before they commit |
| MediaTheorems.PinsAlwaysShowTheirUpload | core/services/media_storage.py:607-757 | while an imported Pin lives, all four of its files exist with the digests of its own upload, and are byte for byte that upload when an asset was reused |
| MediaTheorems.FilesAreConserved | django_images/models.py:214-239 | a file that ever had a committed row is, in every later state, still named by a row, queued in the outbox, or gone |
| MediaTheorems.OnlyUnneededFilesDisappear | django_images/services/media_deletion.py:119-165 | only a worker's unlink or a compensation removes a file, and never one that a row names or that an import inside its transaction has published |
| MediaTheorems.NamesAreNeverReplaced | django_images/file_ops.py:2340-2394 | no step of any process makes an existing name lead to another inode |
| MediaTheorems.WorkersExcludeImports | django_images/file_ops.py:82-170 | while a worker holds the exclusive lifecycle lock, no import is between taking its shared lock and the end of its transaction |
| MediaTheorems.SameKeyImportsExclude | django_images/file_ops.py:250-279 | two imports of the same digest by one user are never inside their transactions together |
| MediaTheorems.DeletingThePin | core/models.py:482-547 | deleting a registered Pin removes that Pin alone, unless it was the last: then exactly the four rows and the asset go and exactly the four paths join the outbox; files stay |
| MediaRegistry.RegistryNamesItsFiles | core/services/media_asset_backfill.py:2536-2576 | in every reachable state the digest an image is registered under is the digest of the bytes of its original file, whether an import or the backfill registered it |
| MediaRegistry.LegacyDeleteMeans | core/models.py:118-156 | a legacy delete takes exactly the targets that exist, none of them registered, and its commit removes these Pins and nothing else |
| MediaRegistry.CleanupMeans | core/models.py:684-775 | the clean-up deletes an image exactly if its row is there and no Pin shows it, with its rows and asset, and queues exactly the files of those rows |
| MediaRegistry.BackfillMeans | core/services/media_asset_backfill.py:2536-2576 | the backfill adds one asset and nothing else, for the owner of all the image's Pins and with the digest of its original file |
| MediaLostAnswer.LostCommitAnswer | core/services/pin_import.py:260-278 | if the database applied a COMMIT reported as failed, then after any part of the compensation all rows still have their files if and only if no file taken back was made by this import |
| MediaLostAnswer.LostCommitAnswerLosesAFile | core/services/media_storage.py:300-343 | taking back one receipt leaves a committed row without its file if and only if that receipt was created by this import |
| MediaLostAnswer.LostCommitAnswerInFull | core/services/pin_import.py:505-515 | a lost answer is harmless after the whole compensation if and only if all four files were there before |
| MediaLostAnswer.LostReuseAnswerIsHarmless | core/services/pin_import.py:505-515 | a lost answer to a commit that reuses an asset keeps the whole invariant, and there is nothing to take back |
| MediaSteps.StepKeepsInv | core/services/pin_import.py:122-289 | every step of every process keeps the whole invariant: locks, fresh uuids, receipts, files, registry, what an import has read, workers, uploads |
| MediaSteps.KeepsLegacy | core/models.py:118-156 | between the release of its lock and its commit, no step registers the image of a Pin that a legacy delete has deleted, or takes that Pin |
| MediaSteps.UnreferencedStays | core/models.py:684-715 | what the clean-up of an image checked stays true until it commits: an image without Pins gets neither a Pin nor an asset |
| MediaSteps.RemovalIsSafe | django_images/services/media_deletion.py:145-165 | a step that removes a name removes one without a row and outside every active import's receipts, and changes no row |
| MediaOutbox.KeepsOutbox | django_images/services/media_deletion.py:145-213 | every step keeps the outbox sound: a queued or retired path never gets a row again, and a worker drops its outbox row only once the file is gone or needed |
| MediaProgress.ImportsReachTheirCommit | core/services/pin_import.py:122-259 | from any quiet store an import with an unregistered key reaches its commit, with all four files in place and made by itself |
| MediaProgress.ALostAnswerCanHappen | core/services/pin_import.py:260-278 | for every quiet store and new upload there is a run to the commit after which a lost answer leaves a row without its file; `LostCommitAnswerLosesAFile` is the exact condition |
| MediaInterference.OthersKeep | core/services/pin_import.py:141-259 | whatever any other processes do between two steps of an import, it finds its stage and locks as it left them, and under its uuid no new names |
| MediaServices.MediaServer.Commit | core/services/pin_import.py:122-289 | under any interference: an answered Pin is the one Pin it committed, for its own upload, and if it still exists its files hold that upload, and every deadline check on the way has passed; after an error it committed nothing, no row has its uuid, no file it made is left; either way it holds no lock. Undisturbed it is answered with a Pin if and only if its locks are free and the key is registered to an image with all four rows and exactly these bytes, or is unregistered with no name under its uuid holding another digest; then the database gained exactly that Pin, or that Pin with a new image; otherwise rows and names are as before and the error says why |
| MediaServices.MediaServer.Transact | core/services/pin_import.py:147-258 | commits exactly one Pin or aborts with every file it made still on its receipts; undisturbed, it commits exactly when the upload can be reused or published |
| MediaServices.MediaServer.VerifyReusable | core/services/media_storage.py:607-757 | the loop over rows and files accepts a registered image if and only if all four rows are there and all four files are byte for byte the upload |
| MediaServices.MediaServer.FindReusable | core/services/pin_import.py:164-186 | finds nothing exactly when the key is unregistered; else takes the registered image exactly when it matches the upload, and reports a conflict when no registered image does |
| MediaServices.MediaServer.CommitTransaction | core/services/pin_import.py:191-232 | whatever ran before, the commit adds exactly one Pin of the user: on the registered image, or on a new one with its four rows and the asset of this user and digest |
| MediaServices.MediaServer.PublishAll | core/services/media_storage.py:1137-1217 | publishes and verifies all four files, or has taken its own back before the locks are given up; undisturbed, it publishes exactly when each name is free or holds the upload's digest |
| MediaServices.MediaServer.CompensateAll | core/services/media_storage.py:300-343 | ends with nothing on the receipts and nothing new under the uuid, while others run between the unlinks |
| MediaServices.MediaServer.Leave | core/services/pin_import.py:141-148 | gives up the lifecycle lock and the stripe and changes neither rows nor files |
| MediaDeletion.DeleteLockedPin | core/models.py:482-547 | deletes if and only if the Pin, its image, the asset and all four rows read before locking are still there; then it removes the Pin, and with the last one exactly its image's rows and asset, whose files join the outbox; otherwise nothing |
| MediaDeletion.DeletePin | core/models.py:587-681 | under any interference it writes the database once, by that deletion, exactly if it reports one, and holds no lock afterwards; undisturbed it deletes if and only if the Pin is registered and the stripe of its asset is free |
| MediaDeletion.CheckAndUnlink | django_images/services/media_deletion.py:119-142 | from a store whose outbox named only retired files: when a worker gives the exclusive lock back without an error, no row names the file and it is gone, whatever ran meanwhile; undisturbed it always succeeds, and removes exactly this name if no row has it |
| MediaDeletion.ProcessPending | django_images/services/media_deletion.py:145-213 | under any interference it drops its outbox row exactly if it reports success, and then, from a store whose outbox named only retired files, no row names the file and it is gone; undisturbed it succeeds if and only if the path was queued and either a row names it or the lifecycle lock is free, and then the path is dequeued and, unless a row names it, its name and no other is gone |
| Idempotency.EvaluationIsRight | core/services/idempotency.py:172-226 | a claim takes a row over if and only if the fingerprint matches and the row is an expired pending or a retryable failed one; every other answer is the one the row's state calls for |
| Idempotency.ValidShapesExclude | core/services/idempotency.py:286-332 | no row satisfies two of the pending, succeeded and failed predicates |
| Idempotency.UnchangedRowMatches | core/services/idempotency.py:228-261 | a compare-and-swap on a row that nobody changed always succeeds, so a lost one means that another worker changed it |
| Idempotency.IdempotencyStore.Claim | core/services/idempotency.py:78-127 | against any environment: a granted claim holds a new generation of a row it was allowed to take, whose state is stated field by field, and owns it until the lease runs out; each lost swap found a row other than the one read; it gives up exactly at the limit; nothing else is written. Undisturbed it is granted if and only if the row is missing, expired or retryably failed |
| Idempotency.IdempotencyStore.Fence | core/services/idempotency.py:129-133 | when it passes, no other lease and generation would pass, and no claim can take the row over at that time; it passes exactly for the grant that owns the unexpired pending row |
| Idempotency.IdempotencyStore.RecordFailure | core/services/idempotency.py:135-147 | exactly for the grant that owns the row, the row then holds the error's code and whether it is retryable, with its fingerprint and generation kept and all other rows unchanged; no grant passes the fence on it again, and a claim can take it over if and only if the error is retryable; without the fence nothing is written |
| Idempotency.IdempotencyStore.RecordSuccess | core/services/idempotency.py:149-170 | once recorded, the row is a valid succeeded one showing the submitter's own Pin, no grant passes the fence on it and no claim takes it over at any time; without the fence or the Pin nothing is written |
| Idempotency.FailAndClaimAgain | core/services/idempotency.py:78-147 | a recorded final error is what the next claim is refused with; after a retryable one the next claim is granted with the next generation |
| Idempotency.Refusals | core/services/idempotency.py:172-226 | a refused claim carries the stored code of a failed row, "pin_permanently_deleted" for a succeeded row without its Pin, and "internal_error" for any row of no valid shape |
| Idempotency.ShapesMean | core/services/idempotency.py:286-332 | each of the three shapes fixes all eight fields of the row but those that belong to it |
| Idempotency.SafeCodes | core/services/idempotency.py:18-18 | a storable error code is one small letter followed by at most 63 small letters, digits and underscores |
| ImportLease.StepWrites | core/services/idempotency.py:135-170 | what each step writes to the row, field by field, the failed and the succeeded row included; no step touches another row |
| ImportLeaseProofs.StepKeepsInv | core/services/idempotency.py:78-261 | every step of any number of workers keeps the invariant tying rows, grants, row locks and committed Pins |
| ImportLeaseProofs.ImportsHappenAtMostOnce | core/services/pin_import.py:147-258 | whatever the interleaving, clock readings, expiries, rollbacks and crashes, at most one Pin is ever committed for one row |
| ImportLeaseProofs.SucceededMeansImported | core/services/pin_import.py:220-258 | a row is SUCCEEDED if and only if a Pin was committed for it, also after that Pin is deleted |
| ImportLeaseProofs.SucceededRowShowsItsPin | core/services/idempotency.py:298-310 | a Pin that a succeeded row still names exists and is the submitter's |
| ImportLeaseProofs.RowsStayValid | core/services/idempotency.py:280-332 | every reachable row satisfies exactly one of the three row predicates |
| ImportLeaseProofs.RowsOnlyMoveForward | core/services/idempotency.py:228-261 | over any run rows stay, fingerprints never change, generations never fall, and SUCCEEDED is never left |
| ImportLeaseProofs.GrantsNeverShareAGeneration | core/services/idempotency.py:228-271 | of two claims ever granted on one row the later has the greater generation |
| ImportLeaseProofs.StaleWorkersAreFenced | core/services/idempotency.py:129-133 | a worker past its fence holds the newest generation ever granted on its row, and no other worker of that row is past its own |
| ImportLeaseProofs.AbandonedRowsCanBeReclaimed | core/services/idempotency.py:112-127 | a reclaimable row that nobody has locked can be taken over at once, with a lease valid for its whole period |
| BackfillPlan.AttachKeySignatures | core/services/media_asset_backfill.py:1364-1412 | changes nothing in the plans but the key signature, which is found for a plan exactly if the registry has that (submitter, digest) |
| BackfillPlan.AttachedPlanIsFrozen | core/services/media_asset_backfill.py:1364-1412 | a plan that went through the lookup describes the registry it was frozen against |
| BackfillPlan.GroupCandidates | core/services/media_asset_backfill.py:2037-2049 | plans that need no lookup among the others get their own decision, and the rest fall into groups by key, none lost |
| BackfillPlan.LoneGroup | core/services/media_asset_backfill.py:2050-2060 | a group is a single plan exactly if no other candidate has its key |
| BackfillPlan.Decisions | core/services/media_asset_backfill.py:2036-2060 | every plan gets exactly one decision, the one defined plan by plan; no other image gets any |
| BackfillPlan.DecisionsMean | core/services/media_asset_backfill.py:2036-2060 | judged by the registry itself: an image is registered if and only if nothing speaks against it, its image and key are not registered, and no other such plan has its key; a reason, a registered key and a rival each give their own skip |
| BackfillPlan.NewKeysAreFree | core/services/media_asset_backfill.py:2036-2060 | an image decided "register" is not in the registry, its key is not either, and no other such image has that key |
| BackfillPlan.RegisteringKeepsKeysUnique | core/services/media_asset_backfill.py:2036-2060 | adding all "register" decisions keeps (submitter, digest) unique, adds each such image once, for the plan's submitter and digest, and keeps every old row |
| BackfillPlan.PhaseSummary | core/services/media_asset_backfill.py:2596-2617 | the counts are the numbers of plans with each decision, the reasons' counts add up to the skipped, and all add up to the scanned |
| BackfillPlan.CountIsMultiplicity | core/services/media_asset_backfill.py:2596-2617 | the count of a decision is how often it was made |
| BackfillBatches.Page | core/services/media_asset_backfill.py:1259-1283 | a keyset page is the next stretch of ids above the last one and up to the frozen maximum, short only at the end |
| BackfillBatches.PlanBatches | core/services/media_asset_backfill.py:1259-1283 | the scan ends and yields every id exactly once in ascending order, in non-empty pages of at most the batch size |
| BackfillBatches.BuildBatches | core/services/media_asset_backfill.py:2440-2466 | greedy batching concatenates back to its input; no batch is empty; every batch of two or more is within all three limits; a batch closes only when the next candidate would exceed one |
| BackfillBatches.BatchesMean | core/services/media_asset_backfill.py:2440-2466 | written out: more than one image only within all three limits, and one more image would exceed one of them at every cut |
| BackfillBatches.ReceiptsAdd | core/services/media_asset_backfill.py:2440-2466 | bytes and pixels of receipts are sums over the files |
| BackfillRun.KnownBatch | django_images/services/migration_batch_log.py:1213-1228 | for a batch with an intent the journal's answer is right: committed batches read as committed, the open one as commit-pending or to be redone, and in each case the registry is where that answer says |
| BackfillRun.NextIntentFollows | django_images/services/migration_batch_log.py:653-680 | the intent that a resumed run opens is the one the journal accepts next |
| BackfillRun.GrownRows | core/services/media_asset_backfill.py:2510-2534 | inserting exactly a batch's registrations turns its expected rows before into its expected rows after |
| BackfillRun.Backfill.ApplyDatabaseBatch | core/services/media_asset_backfill.py:2536-2576 | starts only from the pre-signature, ends only in the post-signature with exactly the batch's registrations added, creates nothing twice, keeps primary keys distinct, and otherwise leaves the registry alone; a batch at pre is refused with "registry_plan_identity_changed" if and only if some plan's image has changed since, and succeeds when the slice is as planned |
| BackfillRun.Backfill.Inspect | core/services/media_asset_backfill.py:2313-2347 | names the state a batch was left in, and is right about it in any consistent journal; each refusal has its exact condition, a changed identity of a registered plan included |
| BackfillRun.Backfill.Open | core/services/media_asset_backfill.py:2348-2366 | the journal accepts the intent of a batch if and only if it is open, has no intent left uncommitted and the batch lies above all its others; then exactly this intent is added, with a greater number than any committed one; otherwise the journal is unchanged |
| BackfillRun.Backfill.Commit | django_images/services/migration_batch_log.py:1170-1187 | after the commit record the journal and the registry agree that this batch is done |
| BackfillRun.Backfill.ExecuteBatch | core/services/media_asset_backfill.py:2300-2391 | a slice that is neither pre nor post is never written, and nothing is while any plan of the batch is stale; a run left consistent by any crash stays consistent, never fails, and finishes the batch in at most three durable steps |
| BackfillRun.Backfill.VerifyClosure | core/services/media_asset_backfill.py:3054-3145 | accepts if and only if the database agrees with every plan and holds no unplanned image |
| BackfillRun.Backfill.ExecuteLinear | core/services/media_asset_backfill.py:2134-2224 | a finished run has converged on the plan whatever the state it began in, and its journal is complete; an undisturbed one never fails and finishes once its budget allows |
| BackfillRun.Backfill.Resume | core/services/media_asset_backfill.py:2134-2224 | however often a run is cut and resumed it never fails, creates each asset at most once, and converges when it finishes |
| BackfillRun.Migrate | core/services/media_asset_backfill.py:2134-2224 | from a fresh plan, over any sequence of cuts: a run that finishes leaves the registry at plan time plus exactly the "register" decisions, each asset created once; one long enough attempt finishes it |
| ManifestLog.PlanRoundTrip | core/services/media_asset_backfill.py:171-213 | a valid plan is read back unchanged from the dictionary written for it |
| ManifestLog.ReadsFrozenText | core/services/media_asset_backfill.py:662-718 | the whole frozen text loads to exactly its plans, complete, with the end offset and digest of the bytes before it |
| ManifestLog.EveryPrefixLoads | core/services/media_asset_backfill.py:662-718 | each byte prefix of a frozen-plan write loads to a prefix of the plans and at most one torn tail, and as complete only when nothing is missing |
| ManifestLog.RepairKeepsCompleteLines | core/services/media_asset_backfill.py:851-887 | cutting at the torn offset keeps every complete line and changes nothing else that a load reports |
| ManifestLog.Manifest.LoadState | core/services/media_asset_backfill.py:662-718 | the loop over lines computes the specified load of the content, errors included |
| ManifestLog.Manifest.WriteFrozenPlan | core/services/media_asset_backfill.py:768-817 | refuses a non-empty manifest; otherwise writes the frozen text or, if it crashes, a strict prefix of it; the state built on the way is the one a reload gives |
| ManifestLog.Manifest.RepairTornTail | core/services/media_asset_backfill.py:851-887 | moves exactly the torn tail to quarantine, and the state still agrees with a reload |
| ManifestSound.LineEndMeans | core/services/media_asset_backfill.py:668-676 | a line ends after its first line feed, carriage return or both together, or at the end of the file |
| ManifestSound.LoadedIsSound | core/services/media_asset_backfill.py:662-736 | whatever the bytes of the file, if it can be read: no image is planned twice, every plan is well formed, results follow the complete plan and are for planned images, and the plan's digest is that of the file up to its marker |
| ManifestSound.OtherRunRefused | core/services/media_asset_backfill.py:720-736 | a manifest that another run has written is refused, whatever it plans |
| ManifestSound.WrongCountRefused | core/services/media_asset_backfill.py:687-695 | a completion marker with any other count than the plans before it makes the file unreadable |
| ManifestSound.OtherPlanRefused | core/services/media_asset_backfill.py:696-716 | a result that names the digest of another plan is refused |
| ManifestResults.OneMoreLine | core/services/media_asset_backfill.py:737-760 | appending any event to a readable file makes a reload read exactly the old state and then this event, or fail when the event does |
| ManifestResults.RecordResult | core/services/media_asset_backfill.py:827-849 | for a planned image without a result the state becomes the old one with this result and agrees with a reload; for any other image nothing reads the file any more; refusals before the write change nothing |
| Json.DecodeEncode | core/services/media_asset_backfill.py:428-436 | every value written is read back, tuples as lists; strings of any Unicode scalar values survive the ASCII escapes and surrogate pairs |
| Json.EncodingPrintable | core/services/media_asset_backfill.py:428-436 | an encoded value has printable ASCII only, so no line break inside a line |
| Json.TupleizeUndoes | core/services/media_asset_backfill.py:131-134 | turning lists back into tuples undoes what reading did to a frozen value |
| BoardProofs.StepKeepsInv | core/services/board_cover.py:16-85 | every step of every transaction but an unsafe edit keeps covers valid, row locks exclusive, and what each transaction has checked current |
| BoardProofs.CoversAlwaysValid | core/services/board_cover.py:16-85 | in every run without an unsafe edit a cover is a member of its board, and public if the board is |
| BoardProofs.CoversBreakExactlyWhenUnsafe | core/serializers.py:327-358 | a step makes some cover invalid if and only if it is an edit saving a stale private flag over the public cover of a public board |
| BoardProofs.AnUnsafeEditHappens | core/serializers.py:347-358 | there is a run from a valid state in which a non-privacy edit makes a public board's cover private |
| BoardProofs.CheckedReadsAreCurrent | core/services/board_cover.py:35-77 | after probe, lock and recheck, what a transaction read about its rows stays true until it commits, and no board outside its locks has one of its Pins as cover |
| BoardProofs.CommitsStayWithinTheirLocks | core/services/pin_membership.py:75-190 | a commit changes only boards and Pins whose rows the transaction holds |
| BoardProofs.SaveEditCovers | core/serializers.py:347-358 | for any valid database a stale edit keeps all covers valid if and only if it is not unsafe |
| BoardProofs.OthersStay | core/services/board_cover.py:35-77 | a write to rows that a transaction has not locked leaves all that it has checked in force |
| BoardEffects.CommitsDoWhatIsAsked | core/services/pin_membership.py:43-190 | in every safe run each commit does what its operation asks, stated on rows, covers and memberships one by one: privacy, cover, additions, moves, updates and deletions, and nothing else |
| BoardEffects.CommitMeans | core/services/board_cover.py:35-129 | the same for any valid database and checked transaction |
| BoardEffects.CommitIsPermitted | core/services/pin_membership.py:43-190 | a checked transaction works only on boards and Pins of its user, on members and on eligible covers |
| BoardEffects.AcceptsMeans | core/services/board_cover.py:35-77 | in one go, an operation is accepted exactly when it is permitted and the probe found each covering board |
| BoardServices.BoardStore.ReconcileLockedBoard | core/services/board_cover.py:16-33 | clears the cover exactly if it was invalid, and leaves a valid one |
| BoardServices.BoardStore.PinPrivacyTransition | core/services/board_cover.py:35-77 | accepted exactly when the Pins are the user's and no covering board was missed by the probe; then each target has exactly the asked privacy, a public board loses its cover exactly if the cover became private, and nothing else changes |
| BoardServices.BoardStore.ClearIfRemoved | core/services/board_cover.py:79-85 | covers that are valid before stay valid when the memberships of the removed Pins go afterwards, on this board and on all others |
| BoardServices.BoardStore.CoverBoard | core/services/board_cover.py:105-129 | sets or clears the cover exactly when the board is the user's and the Pin an eligible member; each refusal has its own reason and changes nothing |
| BoardServices.BoardStore.AddOwnedPins | core/services/pin_membership.py:43-73 | the members become the union with the asked Pins, each reported as added or unchanged; all or nothing |
| BoardServices.BoardStore.MoveBetweenBoards | core/services/pin_membership.py:75-139 | every asked Pin leaves the source and is in the target, a moved cover is cleared, each is reported as moved or unchanged; all or nothing |
| BoardServices.BoardStore.UpdateBoardMembership | core/services/pin_membership.py:141-190 | exactly the visible Pins are added and then removed, and only a cover that was a removed member is cleared |
| BoardServices.BoardStore.UpdateWholeBoard | core/serializers.py:498-532 | privacy, membership and cover change together and the cover is valid afterwards; a refused update changes nothing |
| BoardServices.BoardStore.RemoveWholeBoard | core/services/pin_membership.py:210-237 | only the owner's board goes, with its memberships and nothing else |
| LockOrder.StepKeepsInv | django_images/file_ops.py:230-279 | every acquisition and release keeps the rule for what each kind of process may hold, commit-time user rows and cleared idempotency rows included, and exclusive locks stay exclusive |
| LockOrder.AssetWait | core/models.py:500-508 | only a legacy delete holding nothing but the lifecycle lock ever waits for an asset row, and its holder has the asset's stripe and does not wait for an asset row |
| LockOrder.WaitedForIsRanked | core/services/pin_import.py:141-170 | a process that somebody waits for does not itself wait for an asset row |
| LockOrder.NoWaitingCycle | django_images/file_ops.py:230-279 | in every reachable state each cycle of waiting processes contains an import at its commit, waiting for its user's row, and next to it a board service that has locked this user and waits for a board or Pin row; without one there is no cycle, over stripes, lifecycle lock and all rows |
| LockOrder.DeadlockWithAnImport | core/services/pin_membership.py:210-218 | an import and another process wait for each other if and only if that one is a board service which has locked the import's user and asks for a board the import has locked |
| LockOrder.ACommitDeadlocks | core/services/board_ordering.py:53-60 | for every user, board and upload there is a run that ends in this cycle |
| LockOrder.SomeoneCanMove | django_images/file_ops.py:230-279 | in every reachable state with a process some process waits for nobody, unless an import's commit is blocked in that way |
| LockOrder.GateExcludesEveryone | django_images/file_ops.py:230-247 | while the writer gate is held nobody else holds a stripe or the lifecycle lock |
| MediaTree.UndoIsExact | core/services/media_storage.py:300-343 | unlinking the published files gives back exactly the tree before them, reused files included |
| MediaTree.TakingBackRemovesOnlyOwn | core/services/media_storage.py:300-343 | whatever happened to the tree since, compensation removes only names this run created that still lead to what it created |
| MediaTree.GivingUp | django_images/file_ops.py:1490-1571 | a failed open of two components restores the tree below the top directory if and only if it did not lose a directory it had just made |
| MediaTree.BothGo | django_images/file_ops.py:406-449 | pruning both handles restores the tree below the two top directories |
| MediaPublish.MediaDirectory.RemoveCreatedSuffix | django_images/file_ops.py:406-449 | removes, deepest first, just the created, unchanged and empty components, stops at the first that is not, and records exactly what is gone |
| MediaPublish.PublishedAsset.Compensate | core/services/media_storage.py:300-343 | takes back exactly its own files and then both created directory suffixes, once |
| MediaPublish.MediaFs.Publish | core/services/media_storage.py:1137-1217 | succeeds if and only if both directories can be opened, no fault strikes and whatever is under each name has its digest, and then every file is in place and no name was replaced; a failure restores both trees if and only if the tree, uuid and fault it began with do not lose a directory |
| MediaPublish.EveryFaultStops | core/services/media_storage.py:1137-1217 | where the directories are still missing, exactly the faults at points that publishing passes stop it: two components of each directory, each file, and the last check |
| MediaPublish.NewUuidPublishes | core/services/media_storage.py:1137-1217 | for a new uuid and without a fault publishing succeeds if and only if no two files of different digests go under one name |
| MediaPublish.LosesMeans | django_images/file_ops.py:1490-1571 | a directory is lost exactly when the stat after the mkdir of originals/uuid or derivatives/uuid fails, that directory was missing, its parent was missing or is a directory and, for the second, the first could be opened |
| MediaPublish.LosingADirectory | django_images/file_ops.py:1490-1571 | publishing into an empty media directory with such a fault leaves a directory behind |
| MediaPublish.MediaFs.OpenOrCreate | django_images/file_ops.py:1490-1571 | opens or makes two components exactly when both can be and no fault strikes; a failure restores the tree if and only if it did not lose the second one |
| MediaPublish.MediaFs.PublishFile | django_images/file_ops.py:2184-2218 | links when the name is free, reuses a file of equal digest and changes nothing, reports a conflict otherwise, and never overwrites |
| MediaPublish.MediaFs.PublishFiles | core/services/media_storage.py:1160-1195 | publishes all files exactly when no fault strikes and each fits what is there and what went before; after a fault the tree holds just the receipts' files beyond what it had |
| MediaPublish.MediaFs.UnlinkIfCurrent | django_images/file_ops.py:2502-2528 | at most the one name goes, and only while it leads to the very file published under it; nothing else changes |
| RandomOrder.PrimeIsPrime | core/pin_sorting.py:11-12 | 2^31-1 is prime, by a certificate on the order of one element modulo every divisor |
| RandomOrder.CoefficientsInRange | core/pin_sorting.py:47-50 | the multiplier is never zero modulo the prime |
| RandomOrder.NextSeed | core/pin_sorting.py:47-50 | both coefficients are linear congruences of the seed: their first values and their steps from one seed to the next |
| RandomOrder.NextKey | core/pin_sorting.py:53-70 | the key of id 0 is the increment, and from each id to the next the key moves on by the multiplier modulo the prime |
| RandomOrder.KeysAreInjective | core/pin_sorting.py:53-70 | for every seed equal keys mean equal residues |
| RandomOrder.SmallIdsHaveDistinctKeys | core/pin_sorting.py:53-70 | distinct ids below the prime get distinct keys |
| RandomOrder.NoOverflow | core/pin_sorting.py:53-70 | for every 64-bit id no intermediate exceeds 2^63-1 |
| BoardOrder.CanonicalIsUnique | core/services/board_ordering.py:26-34 | a set of boards has one canonical order |
| BoardOrder.PermutesMeans | core/services/board_ordering.py:62-70 | comparing lengths and sets of ids accepts exactly the lists that name every board once |
| BoardOrder.CanonicalMeans | core/services/board_ordering.py:26-34 | in it each board appears once, and one board comes before another if and only if its display order is smaller, or equal and its id greater |
| BoardOrder.CanonicalIds | core/services/board_ordering.py:26-34 | returns that order: by display_order, then by descending id |
| BoardOrder.PreimageIsInjective | core/services/board_ordering.py:14-24 | the version's preimage determines the user and the id list |
| BoardOrder.BoardOrderService.TakeSnapshot | core/services/board_ordering.py:44-49 | the snapshot is the canonical order with its version |
| BoardOrder.BoardOrderService.Save | core/services/board_ordering.py:51-81 | accepted exactly if nothing would change, or the version is current and the boards are the same; then the requested list is the canonical order, numbered from one, and a refused save changes nothing |
| BoardOrder.BoardOrderService.SaveAll | core/services/board_ordering.py:51-81 | any number of saves, each on a version of its own, are accepted and leave the canonical order exactly as the history says |
| BoardOrder.SecondSaveOnAVersion | core/services/board_ordering.py:51-81 | with a collision-free digest: after a save on a version installed another order, a later save on that version for any order of the same boards installs its own too if and only if the order was brought back in between and left there |
| BoardOrder.WithoutReturnOneWins | core/services/board_ordering.py:51-81 | when no accepted save asks for the order a version names, at most one save on that version installs anything |
| BoardOrder.AVersionServesTwice | core/services/board_ordering.py:51-81 | for any three orders of any boards: away, back and away again, two saves on one version install different orders |
| TagMerge.TagStore.SortLinks | core/services/tag_management.py:54-63 | exactly one link of each object not yet on the target is moved, the others are duplicates |
| TagMerge.TagStore.Merge | core/services/tag_management.py:24-80 | the target ends with the union of the objects, each once; other tags' links are unchanged; moved plus duplicates are the source links; each refusal has its reason and changes nothing |
| TagMerge.MergeIsRight | core/services/tag_management.py:54-74 | deleting the duplicates and retargeting the moved links gives that outcome and keeps links unique |
| Paths.FitStem | django_images/paths.py:113-129 | the counting loop keeps the longest prefix within both the character and the UTF-8 byte limit (section 3 of RFC 3629) |
| PathLaws.BytesAreUtf8 | django_images/paths.py:113-129 | the byte count is the length of the UTF-8 encoding (section 3 of RFC 3629) |
| PathLaws.FitMeans | django_images/paths.py:113-129 | the stem is cut at the latest point where the path has at most 255 characters and the leaf at most 255 bytes, and then stripped |
| PathLaws.KeepsGoodNames | django_images/paths.py:94-129 | a normalized portable stem that is usable and has room for its extension is kept as it is |
| PathLaws.BuildingIsIdempotent | django_images/paths.py:160-175 | building a path from the leaf of a built path gives that path again |
| PathLaws.OriginalsExactly | django_images/services/media_deletion.py:51-82 | a name is recognised as an original of a uuid if and only if it is that uuid's directory and a normalized-to-portable leaf within the limits, with a usable stem and a known extension |
| PathLaws.DerivativesExactly | django_images/services/media_deletion.py:51-82 | a name is recognised as a derivative of a uuid if and only if it is the one built for a known size and extension |
| Paths.SanitizeIsIdempotent | django_images/paths.py:54-62 | on control-free names sanitising twice is sanitising once |
| Paths.ControlsBreakIdempotence | django_images/paths.py:54-62 | with a control character between a letter and a combining mark it is not: sanitising again composes the two |
| Paths.CanonicalOriginalPath | django_images/paths.py:160-175 | for every control-free name of Unicode scalar values, uuid and allowed extension: no error, at most 255 characters, a leaf of at most 255 bytes that its validator accepts, and recognition gives the same uuid and kind |
| Paths.LeafIsValid | django_images/paths.py:132-157 | the leaf that is built passes the leaf validator and is recognised |
| Paths.DerivativeRoundTrip | django_images/services/media_deletion.py:51-82 | a derivative path that is built is recognised as the same uuid's thumbnail |

## Left out

Not modelled, with the reason:

- HTTP fetching, DNS, image decoding and resizing: foreign code. An upload is four byte strings.
- Board name uniqueness is a Boolean that the caller of `UpdateWholeBoard` supplies; tags of a Pin, texts and `updated_at` timestamps are not fields of the model.
- The staging files' own names and the staging directory: a staged file is its inode. Modes, owners, descriptor flags, `fsync` and platform fallbacks are not there; a failing system call is a fault that stops the operation at that point.
- User cascades and edits through the Django admin: they bypass the services.
- The older v2 terminal prefix of the backfill and its execution without a journal: the same goal as the linear path with more cases. The journal's path phase, its checkpoint file and the file-receipt checks of the backfill are not modelled.
- The worker's pruning of an emptied uuid directory and its attempt counters; directories are part of MediaTree, where the same pruning is proved for publishing.
- The extra condition of an exclusive-to-board delete and its retry when the Pin's boards change: they only make a registered delete happen less often.
- Export jobs, the legacy startup store and views: exports and the startup keep state of their own that no modelled operation reads, and views only hand requests on. The bulk operations' result summaries count what the modelled operations return.
- Retries and deadlines: a retry is another attempt by a new process, a deadline an `Abort` at any point.
- Progress under contention: `ImportsReachTheirCommit` speaks of an import that nothing disturbs, and no fairness of the locks is assumed.

Simplified, with what that does not capture:

- MediaTheorems.RowsAlwaysImplyFiles: assumes that a COMMIT reported as failed had no effect; `LostCommitAnswerLosesAFile` says what follows otherwise. The database is taken to be serialised by its row locks: a transaction's writes appear in one step, and reads inside it see committed rows. Imports, registered deletes and the worker are also methods (`MediaServices`, `MediaDeletion`); legacy deletes and the backfill's insert are steps of the transition system only.
- MediaTheorems.FilesAreConserved: paths are (uuid, kind) pairs; that leaf names carry both is what the Paths module proves. The clean-up of an unreferenced image after a commit (core/models.py:684-775) checks and deletes in one step; `MediaSteps.UnreferencedStays` is why that is no loss.
- MediaTheorems.RegistryAlwaysConsistent: the backfill registers an image in one step that needs all file locks free and no legacy delete uncommitted. The writer gate and the database write fence give this where they are taken (core/services/media_asset_backfill.py:2688-2690); the linear run takes neither and has it when it runs with no other process at work.
- ImportLeaseProofs.ImportsHappenAtMostOnce: concerns Pins committed for a claimed row. Imports without a claim are steps of the model that touch no row.
- BackfillRun.Migrate: the "never fails" part assumes that the hash of a registry slice has no collisions and that nothing else writes while it runs; that a finished run has converged does not need either.
- BackfillRun.Backfill.ApplyDatabaseBatch: a crash inside the transaction is a crash before it. Image rows, thumbnails and owners are one `Context` value per image.
- Json.DecodeEncode: the decoder accepts the compact form without white space and values without floats or Booleans. Lone surrogates, which a Python string may hold, are not characters here.
- ManifestLog.Manifest.WriteFrozenPlan: a crash leaves a prefix of the bytes; reordering of unsynchronised blocks by the disk is not modelled.
- BoardProofs.CoversAlwaysValid: deleting a legacy Pin with its memberships is one step, where the source takes the board locks first. A request for rows that do not exist is a transaction that aborts.
- LockOrder.NoWaitingCycle: row locks are taken in id order by one statement in the source and one at a time here; the stripe of an asset is any function into 0..255. Idempotency rows are two kinds of lock: imports hold pending ones, and a Pin's deletion clears those that name a Pin, which are settled. Claims, which update one row on their own, and the backfill's inserts are not processes here.
- MediaPublish.MediaFs.Publish: other processes do not interleave with it; `TakingBackRemovesOnlyOwn` holds for any later tree. Unlink and rmdir are taken to succeed, and one publish has at most one fault.
- Paths.CanonicalOriginalPath: lone surrogates, which a Python string may hold, are not characters here; they are no control characters, and for them the UTF-8 length at django_images/paths.py:121 raises. NFC (section 1.4 of Unicode Standard Annex #15) and upper-casing are abstract functions with the laws listed in `Paths.Lawful`. Names with control characters are outside it; `Paths.ControlsBreakIdempotence` shows why.
