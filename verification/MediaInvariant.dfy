/** What every reachable state of the media store satisfies, one named part at a time. */
module MediaInvariant {
  import opened Wrappers
  import opened MediaStore

  // ---------------------------------------------------------------- locks

  /** Which processes may appear as holders. */
  ghost predicate HoldersOk(c: Config, s: State) {
    && (s.locks.exclusive.Some? ==>
          var w := s.locks.exclusive.value;
          IsWorker(s, w) && s.locks.shared == {})
    && (forall i :: i in s.locks.shared ==> i in s.procs && SharedStage(s.procs[i]))
    && (forall k :: k in s.locks.stripes ==>
          s.locks.stripes[k] in s.procs && StripeStage(c, s.procs[s.locks.stripes[k]], k))
  }

  predicate SharedStage(p: Proc) {
    || (p.Import? && !p.istage.Staged? && !p.istage.StripeHeld?)
    || (p.LegacyDelete? && !p.lstage.LegacyWaiting?)
  }

  predicate StripeStage(c: Config, p: Proc, k: nat) {
    || (p.Import? && !p.istage.Staged? && k == StripeOf(c, KeyOf(c, p.job)))
    || (p.RegisteredDelete? && !p.dstage.DeleteWaiting? && k == StripeOf(c, p.asset))
  }

  /** What a process must be holding at each stage. */
  predicate HoldsItsLocks(c: Config, locks: Locks, i: Pid, p: Proc) {
    match p
    case Import(job, st) =>
      && (Active(st) ==> i in locks.shared)
      && (Active(st) || st.StripeHeld? ==>
            StripeOf(c, KeyOf(c, job)) in locks.stripes && locks.stripes[StripeOf(c, KeyOf(c, job))] == i)
    case RegisteredDelete(_, _, asset, st) =>
      st.DeleteLocked? ==> StripeOf(c, asset) in locks.stripes && locks.stripes[StripeOf(c, asset)] == i
    case LegacyDelete(_, st) =>
      st.LegacyLocked? ==> i in locks.shared
    case Worker(_, st) =>
      (st.Holding? || st.Cleared? || st.Unlocking?) <==> locks.exclusive == Some(i)
  }

  predicate Protected(c: Config, s: State, i: Pid)
    requires i in s.procs
  {
    HoldsItsLocks(c, s.locks, i, s.procs[i])
  }

  ghost predicate LockInv(c: Config, s: State) {
    && HoldersOk(c, s)
    && (forall i :: i in s.procs ==> Protected(c, s, i))
  }

  // ---------------------------------------------------------------- identities

  /** The staged inodes still hold the upload. */
  ghost predicate StagedOk(s: State, job: Job) {
    forall k: Kind :: job.staged.At(k) in s.files.content && s.files.content[job.staged.At(k)] == job.data.At(k)
  }

  ghost predicate JobOk(s: State, i: Pid)
    requires IsImport(s, i)
  {
    var job := s.procs[i].job;
    && job.uuid in s.hist.usedUuids
    && StagedOk(s, job)
    && (Uncommitted(s.procs[i].istage) ==>
          && job.uuid !in s.db.assets
          && (forall p :: p in s.db.rows ==> p.uuid != job.uuid))
    && (forall p :: p in ReceiptsOf(s.procs[i].istage) ==> p.uuid == job.uuid)
  }

  ghost predicate UuidInv(s: State) {
    && (forall p :: p in s.db.rows ==> p.uuid in s.hist.usedUuids)
    && (forall i :: IsImport(s, i) ==> JobOk(s, i))
    && (forall i, j :: IsImport(s, i) && IsImport(s, j) && i != j ==> s.procs[i].job.uuid != s.procs[j].job.uuid)
  }

  // ---------------------------------------------------------------- rows and files

  /** Every committed Image or Thumbnail row names a file holding what was published for it. */
  ghost predicate RowsImplyFiles(c: Config, s: State) {
    forall p :: p in s.db.rows ==> p in s.hist.published && HasDigest(c, s.files, p, s.hist.published[p])
  }

  ghost predicate FilesInv(c: Config, s: State) {
    && (forall p :: p in s.files.names ==> s.files.names[p] in s.files.content)
    && RowsImplyFiles(c, s)
  }

  /** What an import has published so far is in place under its receipts. */
  ghost predicate ReceiptsOk(c: Config, s: State, i: Pid)
    requires IsImport(s, i)
  {
    var job, st := s.procs[i].job, s.procs[i].istage;
    && (st.Publishing? ==> st.count <= |KINDS|)
    && (st.Publishing? ==> forall n :: 0 <= n < st.count ==> Path(job.uuid, KINDS[n]) in st.receipts)
    && (st.Verified? ==> forall n :: 0 <= n < |KINDS| ==> Path(job.uuid, KINDS[n]) in st.receipts)
    && (st.Publishing? || st.Verified? ==>
          forall p :: p in ReceiptsOf(st) ==>
            && HasDigest(c, s.files, p, c.sha(job.data.At(p.kind)))
            && s.files.names[p] == ReceiptsOf(st)[p].inode)
  }

  ghost predicate ReceiptInv(c: Config, s: State) {
    forall i :: IsImport(s, i) ==> ReceiptsOk(c, s, i)
  }

  // ---------------------------------------------------------------- the registry

  /** No two assets share (submitter, digest). */
  ghost predicate KeysUnique(db: Db) {
    forall m, n :: m in db.assets && n in db.assets && db.assets[m] == db.assets[n] ==> m == n
  }

  /** A registered image has all four rows, at least one Pin, and only Pins of the submitter. */
  ghost predicate RegisteredOk(db: Db, m: Uuid)
    requires m in db.assets
  {
    && AssetPaths(m) <= db.rows
    && PinsOn(db, m)
    && (forall p :: p in db.pins && db.pins[p].image == m ==> db.pins[p].owner == db.assets[m].owner)
  }

  ghost predicate RegistryInv(db: Db) {
    && KeysUnique(db)
    && (forall m :: m in db.assets ==> RegisteredOk(db, m))
    && (forall p :: p in db.pins ==> Path(db.pins[p].image, Original) in db.rows)
  }

  /** What an import has read stays true until it commits. */
  ghost predicate WindowOk(c: Config, s: State, i: Pid)
    requires IsImport(s, i)
  {
    var job, st := s.procs[i].job, s.procs[i].istage;
    && (st.Publishing? || st.Verified? ==>
          forall m :: m in s.db.assets ==> s.db.assets[m] != KeyOf(c, job))
    && (st.Reusing? ==>
          && st.image in s.db.assets && s.db.assets[st.image] == KeyOf(c, job)
          && (forall k: Kind :: HasBytes(s.files, Path(st.image, k), job.data.At(k))))
  }

  ghost predicate WindowInv(c: Config, s: State) {
    forall i :: IsImport(s, i) ==> WindowOk(c, s, i)
  }

  /** What a legacy deletion is about to commit is still there, unregistered, and no other deletion's. */
  ghost predicate LegacyInv(s: State) {
    && (forall i :: IsDeleting(s, i) ==> DoomedOk(s.db, s.procs[i].lstage.doomed))
    && (forall i, j :: IsDeleting(s, i) && IsDeleting(s, j) && i != j ==>
          s.procs[i].lstage.doomed !! s.procs[j].lstage.doomed)
  }

  ghost predicate DoomedOk(db: Db, doomed: set<PinId>) {
    forall p :: p in doomed ==> p in db.pins && db.pins[p].image !in db.assets
  }

  // ---------------------------------------------------------------- workers

  /** A worker about to unlink has seen, under the exclusive lock, that no row names the file. */
  ghost predicate WorkerInv(s: State) {
    forall i :: IsWorker(s, i) && s.procs[i].wstage.Cleared? ==> s.procs[i].path !in s.db.rows
  }

  // ---------------------------------------------------------------- pins and their bytes

  /** A live Pin shows its own upload: the very bytes when it reused an asset. */
  ghost predicate ShowsUpload(c: Config, s: State, image: Uuid, u: Upload) {
    forall k: Kind ::
      && Path(image, k) in s.db.rows
      && HasDigest(c, s.files, Path(image, k), c.sha(u.data.At(k)))
      && (u.reused ==> HasBytes(s.files, Path(image, k), u.data.At(k)))
  }

  ghost predicate UploadInv(c: Config, s: State) {
    forall p :: p in s.db.pins && p in s.hist.uploads ==>
      s.db.pins[p].image in s.db.assets && ShowsUpload(c, s, s.db.pins[p].image, s.hist.uploads[p])
  }

  // ---------------------------------------------------------------- all of it

  ghost predicate Inv(c: Config, s: State) {
    && LockInv(c, s)
    && UuidInv(s)
    && FilesInv(c, s)
    && ReceiptInv(c, s)
    && RegistryInv(s.db)
    && WindowInv(c, s)
    && LegacyInv(s)
    && WorkerInv(s)
    && UploadInv(c, s)
  }
}
