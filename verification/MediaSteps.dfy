/** What one step may change, and why no step breaks the invariant. */
module MediaSteps {
  import opened Wrappers
  import opened MediaStore
  import opened MediaInvariant

  // ---------------------------------------------------------------- frames

  /** The step takes the name `p` away. */
  predicate Removes(s: State, a: Action, p: Path) {
    || (a.WorkerUnlink? && IsWorker(s, a.i) && s.procs[a.i].path == p)
    || (a.Compensate? && a.path == p)
  }

  /** Only the acting process changes stage. */
  lemma ProcsFrame(c: Config, s: State, a: Action)
    requires Enabled(c, s, a)
    ensures forall j :: j in Apply(c, s, a).procs && (a.BackfillRegister? || j != a.i) ==>
              j in s.procs && Apply(c, s, a).procs[j] == s.procs[j]
    ensures forall j :: j in s.procs && (a.BackfillRegister? || j != a.i) ==> j in Apply(c, s, a).procs
  {
    match a
    case _ =>
  }

  lemma FilesPart(c: Config, s: State, a: Action)
    requires Enabled(c, s, a)
    ensures forall n :: n in s.files.content ==>
              n in FilesAfter(c, s, a).content && FilesAfter(c, s, a).content[n] == s.files.content[n]
    ensures forall p :: p in s.files.names && !Removes(s, a, p) ==>
              p in FilesAfter(c, s, a).names && FilesAfter(c, s, a).names[p] == s.files.names[p]
  {
    if a.Prepare? {
      assert StagedContent(a.data, a.staged).Keys ==
             {a.staged.At(Original), a.staged.At(Thumbnail), a.staged.At(Standard), a.staged.At(Square)};
    }
  }

  lemma FilesFrame(c: Config, s: State, a: Action)
    requires Enabled(c, s, a)
    ensures forall n :: n in s.files.content ==>
              n in Apply(c, s, a).files.content && Apply(c, s, a).files.content[n] == s.files.content[n]
    ensures forall p :: p in s.files.names && !Removes(s, a, p) ==>
              p in Apply(c, s, a).files.names && Apply(c, s, a).files.names[p] == s.files.names[p]
  {
    FilesPart(c, s, a);
  }

  lemma RowsFrame(c: Config, s: State, a: Action)
    requires Enabled(c, s, a)
    ensures forall p :: p in Apply(c, s, a).db.rows ==>
              p in s.db.rows || (a.CommitPublished? && p.uuid == s.procs[a.i].job.uuid)
    ensures !a.DeleteCommit? && !a.LegacyCleanup? ==> s.db.rows <= Apply(c, s, a).db.rows
  {
    match a
    case _ =>
  }

  lemma AssetsFrame(c: Config, s: State, a: Action)
    requires Enabled(c, s, a)
    ensures forall m :: m in Apply(c, s, a).db.assets ==>
              || (m in s.db.assets && Apply(c, s, a).db.assets[m] == s.db.assets[m])
              || (a.CommitPublished? && m == s.procs[a.i].job.uuid)
              || (a.BackfillRegister? && m == a.image)
    ensures forall m :: m in s.db.assets && m !in Apply(c, s, a).db.assets ==>
              || (a.DeleteCommit? && m == s.procs[a.i].image)
              || (a.LegacyCleanup? && m == a.image && !PinsOn(s.db, m))
  {
    match a
    case _ =>
  }

  // ---------------------------------------------------------------- removing a file

  /** A name is only ever taken away when no row names it and no unfinished import relies on it. */
  lemma RemovalIsSafe(c: Config, s: State, a: Action, p: Path)
    requires Inv(c, s) && Enabled(c, s, a) && Removes(s, a, p)
    ensures p !in s.db.rows
    ensures forall j :: IsImport(s, j) && Active(s.procs[j].istage) ==> p !in ReceiptsOf(s.procs[j].istage)
    ensures Apply(c, s, a).db == s.db
  {
    if a.WorkerUnlink? {
      assert Protected(c, s, a.i);
      assert s.locks.shared == {};
    } else {
      assert JobOk(s, a.i);
      forall j | IsImport(s, j) && Active(s.procs[j].istage) ensures p !in ReceiptsOf(s.procs[j].istage) {
        assert JobOk(s, j);
      }
    }
  }

  /** A file some row names keeps its bytes. */
  lemma RowFileStays(c: Config, s: State, a: Action, p: Path)
    requires Inv(c, s) && Enabled(c, s, a) && p in s.db.rows
    ensures p in s.files.names && s.files.names[p] in s.files.content
    ensures p in Apply(c, s, a).files.names && Apply(c, s, a).files.names[p] == s.files.names[p]
    ensures s.files.names[p] in Apply(c, s, a).files.content
    ensures Apply(c, s, a).files.content[s.files.names[p]] == s.files.content[s.files.names[p]]
  {
    FilesFrame(c, s, a);
    if Removes(s, a, p) { RemovalIsSafe(c, s, a, p); }
  }

  // ---------------------------------------------------------------- locks and identities

  /** Another process holds a stripe only if it held it before. */
  lemma StripesFrame(c: Config, s: State, a: Action, k: nat)
    requires Enabled(c, s, a) && k in LocksAfter(c, s, a).stripes
    ensures || (k in s.locks.stripes && LocksAfter(c, s, a).stripes[k] == s.locks.stripes[k])
            || (!a.BackfillRegister? && LocksAfter(c, s, a).stripes[k] == a.i)
  {
  }

  /** A stripe holder's later stages are stripe stages too. */
  lemma StripeStageStays(c: Config, s: State, a: Action, k: nat)
    requires Enabled(c, s, a) && !a.BackfillRegister? && a.i in s.procs && StripeStage(c, s.procs[a.i], k)
    ensures ProcAfter(c, s, a).Some? ==> StripeStage(c, ProcAfter(c, s, a).value, k)
  {
  }

  lemma OwnStripe(c: Config, s: State, a: Action, k: nat)
    requires Enabled(c, s, a) && !a.BackfillRegister?
    requires k in LocksAfter(c, s, a).stripes && LocksAfter(c, s, a).stripes[k] == a.i
    requires k in s.locks.stripes && s.locks.stripes[k] == a.i ==> a.i in s.procs && StripeStage(c, s.procs[a.i], k)
    ensures ProcAfter(c, s, a).Some? && StripeStage(c, ProcAfter(c, s, a).value, k)
  {
    if !a.TakeStripe? && !a.DeleteLock? {
      StripeIsOld(c, s, a, k);
      StripeStageStays(c, s, a, k);
    }
  }

  lemma StripeIsOld(c: Config, s: State, a: Action, k: nat)
    requires Enabled(c, s, a) && !a.BackfillRegister? && !a.TakeStripe? && !a.DeleteLock?
    requires k in LocksAfter(c, s, a).stripes && LocksAfter(c, s, a).stripes[k] == a.i
    requires k in s.locks.stripes && s.locks.stripes[k] == a.i ==>
               a.i in s.procs && (s.procs[a.i].Import? || s.procs[a.i].RegisteredDelete?)
    ensures k in s.locks.stripes && s.locks.stripes[k] == a.i && ProcAfter(c, s, a).Some?
  {
  }

  lemma KeepsStripeHolder(c: Config, s: State, a: Action, k: nat)
    requires LockInv(c, s) && Enabled(c, s, a) && k in Apply(c, s, a).locks.stripes
    ensures var t := Apply(c, s, a);
            t.locks.stripes[k] in t.procs && StripeStage(c, t.procs[t.locks.stripes[k]], k)
  {
    ProcsFrame(c, s, a);
    StripesFrame(c, s, a, k);
    if !a.BackfillRegister? && LocksAfter(c, s, a).stripes[k] == a.i { OwnStripe(c, s, a, k); }
  }

  lemma OwnShared(c: Config, s: State, a: Action)
    requires Enabled(c, s, a) && !a.BackfillRegister? && a.i in LocksAfter(c, s, a).shared
    requires a.i in s.locks.shared ==> a.i in s.procs && SharedStage(s.procs[a.i])
    ensures ProcAfter(c, s, a).Some? && SharedStage(ProcAfter(c, s, a).value)
  {
  }

  lemma SharedFrame(c: Config, s: State, a: Action, j: Pid)
    requires Enabled(c, s, a) && j in LocksAfter(c, s, a).shared
    ensures j in s.locks.shared || (!a.BackfillRegister? && j == a.i)
  {
  }

  lemma KeepsSharedHolder(c: Config, s: State, a: Action, j: Pid)
    requires LockInv(c, s) && Enabled(c, s, a) && j in Apply(c, s, a).locks.shared
    ensures j in Apply(c, s, a).procs && SharedStage(Apply(c, s, a).procs[j])
  {
    ProcsFrame(c, s, a);
    SharedFrame(c, s, a, j);
    if !a.BackfillRegister? && j == a.i { OwnShared(c, s, a); }
  }

  lemma ExclusivePart(c: Config, s: State, a: Action)
    requires Enabled(c, s, a) && LocksAfter(c, s, a).exclusive.Some?
    requires s.locks.exclusive.Some? ==> IsWorker(s, s.locks.exclusive.value) && s.locks.shared == {}
    requires a.WorkerDrop? ==> s.locks.exclusive != Some(a.i)
    ensures var w := LocksAfter(c, s, a).exclusive.value;
            && LocksAfter(c, s, a).shared == {}
            && (if !a.BackfillRegister? && w == a.i then ProcAfter(c, s, a).Some? && ProcAfter(c, s, a).value.Worker?
                else IsWorker(s, w))
  {
  }

  lemma KeepsExclusiveHolder(c: Config, s: State, a: Action)
    requires LockInv(c, s) && Enabled(c, s, a) && Apply(c, s, a).locks.exclusive.Some?
    ensures IsWorker(Apply(c, s, a), Apply(c, s, a).locks.exclusive.value) && Apply(c, s, a).locks.shared == {}
  {
    ProcsFrame(c, s, a);
    if a.WorkerDrop? { assert Protected(c, s, a.i); }
    ExclusivePart(c, s, a);
  }

  lemma KeepsHolders(c: Config, s: State, a: Action)
    requires LockInv(c, s) && Enabled(c, s, a)
    ensures HoldersOk(c, Apply(c, s, a))
  {
    var t := Apply(c, s, a);
    if t.locks.exclusive.Some? { KeepsExclusiveHolder(c, s, a); }
    forall j | j in t.locks.shared ensures j in t.procs && SharedStage(t.procs[j]) {
      KeepsSharedHolder(c, s, a, j);
    }
    forall k | k in t.locks.stripes ensures t.locks.stripes[k] in t.procs && StripeStage(c, t.procs[t.locks.stripes[k]], k) {
      KeepsStripeHolder(c, s, a, k);
    }
  }

  /** No step takes a lock from another process or gives it one. */
  lemma LocksFrame(c: Config, s: State, a: Action, j: Pid)
    requires Enabled(c, s, a) && (a.BackfillRegister? || j != a.i)
    requires a.WorkerUnlock? ==> s.locks.exclusive == Some(a.i)
    ensures j in LocksAfter(c, s, a).shared <==> j in s.locks.shared
    ensures LocksAfter(c, s, a).exclusive == Some(j) <==> s.locks.exclusive == Some(j)
    ensures forall k :: k in s.locks.stripes && s.locks.stripes[k] == j ==>
              k in LocksAfter(c, s, a).stripes && LocksAfter(c, s, a).stripes[k] == j
  {
  }

  predicate TouchesLocks(a: Action) {
    || a.TakeStripe? || a.DeleteLock? || a.TakeShared? || a.LegacyLock? || a.ReleaseShared? || a.ReleaseStripe?
    || a.WorkerLock? || a.WorkerUnlock? || a.Crash?
  }

  /** The actor holds what its next stage asks for. */
  lemma MovedByLocking(c: Config, s: State, a: Action)
    requires Enabled(c, s, a) && TouchesLocks(a) && ProcAfter(c, s, a).Some?
    requires HoldsItsLocks(c, s.locks, a.i, s.procs[a.i])
    ensures HoldsItsLocks(c, LocksAfter(c, s, a), a.i, ProcAfter(c, s, a).value)
  {
  }

  lemma MovedImport(c: Config, s: State, a: Action)
    requires Enabled(c, s, a) && !TouchesLocks(a) && !a.BackfillRegister?
    requires ProcAfter(c, s, a).Some? && ProcAfter(c, s, a).value.Import?
    requires a.i in s.procs ==> HoldsItsLocks(c, s.locks, a.i, s.procs[a.i])
    ensures HoldsItsLocks(c, s.locks, a.i, ProcAfter(c, s, a).value)
  {
  }

  lemma MovedOther(c: Config, s: State, a: Action)
    requires Enabled(c, s, a) && !TouchesLocks(a) && !a.BackfillRegister?
    requires ProcAfter(c, s, a).Some? && !ProcAfter(c, s, a).value.Import?
    requires a.i in s.procs ==> HoldsItsLocks(c, s.locks, a.i, s.procs[a.i])
    ensures HoldsItsLocks(c, s.locks, a.i, ProcAfter(c, s, a).value)
  {
  }

  lemma KeepsProtection(c: Config, s: State, a: Action, j: Pid)
    requires LockInv(c, s) && Enabled(c, s, a) && j in Apply(c, s, a).procs
    ensures Protected(c, Apply(c, s, a), j)
  {
    if !a.BackfillRegister? && a.i == j {
      if j in s.procs { assert Protected(c, s, j); }
      if TouchesLocks(a) {
        MovedByLocking(c, s, a);
      } else if ProcAfter(c, s, a).value.Import? {
        MovedImport(c, s, a);
      } else {
        MovedOther(c, s, a);
      }
    } else {
      ProcsFrame(c, s, a);
      if a.WorkerUnlock? { assert Protected(c, s, a.i); }
      LocksFrame(c, s, a, j);
      assert Protected(c, s, j);
    }
  }

  lemma KeepsLocks(c: Config, s: State, a: Action)
    requires LockInv(c, s) && Enabled(c, s, a)
    ensures LockInv(c, Apply(c, s, a))
  {
    KeepsHolders(c, s, a);
    forall j | j in Apply(c, s, a).procs ensures Protected(c, Apply(c, s, a), j) {
      KeepsProtection(c, s, a, j);
    }
  }

  /** An import keeps the job it was prepared with. */
  lemma JobFrame(c: Config, s: State, a: Action, j: Pid)
    requires Enabled(c, s, a) && IsImport(Apply(c, s, a), j)
    ensures || (IsImport(s, j) && Apply(c, s, a).procs[j].job == s.procs[j].job
                && (Uncommitted(Apply(c, s, a).procs[j].istage) ==> Uncommitted(s.procs[j].istage)))
            || (a.Prepare? && a.i == j && Apply(c, s, a).procs[j] == Import(Job(a.user, a.uuid, a.data, a.staged), Staged))
  {
    match a
    case _ =>
  }

  lemma UsedFrame(c: Config, s: State, a: Action)
    requires Enabled(c, s, a)
    ensures s.hist.usedUuids <= Apply(c, s, a).hist.usedUuids
  {
    match a
    case _ =>
  }

  lemma PreparedIsStaged(c: Config, s: State, a: Action)
    requires a.Prepare? && Enabled(c, s, a)
    ensures StagedOk(Apply(c, s, a), Job(a.user, a.uuid, a.data, a.staged))
  {
    var data, st := a.data, a.staged;
    forall k: Kind
      ensures st.At(k) in StagedContent(data, st) && StagedContent(data, st)[st.At(k)] == data.At(k)
    {
      assert k.Original? || st.At(k) != st.At(Original);
      assert k.Thumbnail? || st.At(k) != st.At(Thumbnail);
      assert k.Standard? || st.At(k) != st.At(Standard);
      assert k.Square? || st.At(k) != st.At(Square);
    }
  }

  lemma KeepsStaged(c: Config, s: State, a: Action, job: Job)
    requires StagedOk(s, job) && Enabled(c, s, a)
    ensures StagedOk(Apply(c, s, a), job)
  {
    FilesFrame(c, s, a);
  }

  lemma KeepsReceiptNames(c: Config, s: State, a: Action, j: Pid)
    requires Enabled(c, s, a) && IsImport(s, j) && IsImport(Apply(c, s, a), j)
    requires forall p :: p in ReceiptsOf(s.procs[j].istage) ==> p.uuid == s.procs[j].job.uuid
    ensures forall p :: p in ReceiptsOf(Apply(c, s, a).procs[j].istage) ==> p.uuid == s.procs[j].job.uuid
  {
    ProcsFrame(c, s, a);
    match a
    case _ =>
  }

  lemma KeepsJob(c: Config, s: State, a: Action, j: Pid)
    requires Inv(c, s) && Enabled(c, s, a) && IsImport(Apply(c, s, a), j)
    ensures JobOk(Apply(c, s, a), j)
  {
    JobFrame(c, s, a, j);
    UsedFrame(c, s, a);
    if IsImport(s, j) {
      assert JobOk(s, j);
      KeepsStaged(c, s, a, s.procs[j].job);
      KeepsReceiptNames(c, s, a, j);
      RowsFrame(c, s, a);
      AssetsFrame(c, s, a);
      if a.BackfillRegister? { assert Path(a.image, Original) in s.db.rows; }
    } else {
      PreparedIsStaged(c, s, a);
      FreshUuid(c, s, a);
    }
  }

  lemma AssetsHaveRows(db: Db)
    requires RegistryInv(db)
    ensures forall m :: m in db.assets ==> Path(m, Original) in db.rows
  {
    forall m | m in db.assets ensures Path(m, Original) in db.rows {
      assert RegisteredOk(db, m);
    }
  }

  /** A new upload's uuid names no row and no asset. */
  lemma FreshUuid(c: Config, s: State, a: Action)
    requires Inv(c, s) && a.Prepare? && Enabled(c, s, a)
    ensures a.uuid !in s.db.assets && (forall p :: p in s.db.rows ==> p.uuid != a.uuid)
    ensures Apply(c, s, a).db == s.db && a.uuid in Apply(c, s, a).hist.usedUuids
  {
    AssetsHaveRows(s.db);
  }

  lemma KeepsUuids(c: Config, s: State, a: Action)
    requires Inv(c, s) && Enabled(c, s, a)
    ensures UuidInv(Apply(c, s, a))
  {
    var t := Apply(c, s, a);
    RowsFrame(c, s, a);
    UsedFrame(c, s, a);
    forall j | IsImport(t, j) ensures JobOk(t, j) {
      KeepsJob(c, s, a, j);
    }
    forall i, j | IsImport(t, i) && IsImport(t, j) && i != j ensures t.procs[i].job.uuid != t.procs[j].job.uuid {
      JobFrame(c, s, a, i);
      JobFrame(c, s, a, j);
      if IsImport(s, i) { assert JobOk(s, i); }
      if IsImport(s, j) { assert JobOk(s, j); }
    }
    forall p | p in t.db.rows ensures p.uuid in t.hist.usedUuids {
      if p !in s.db.rows { assert JobOk(s, a.i); }
    }
  }

  // ---------------------------------------------------------------- files

  lemma KeepsFiles(c: Config, s: State, a: Action)
    requires Inv(c, s) && Enabled(c, s, a)
    ensures FilesInv(c, Apply(c, s, a))
  {
    var t := Apply(c, s, a);
    RowsFrame(c, s, a);
    forall p | p in t.db.rows ensures p in t.hist.published && HasDigest(c, t.files, p, t.hist.published[p]) {
      if p in s.db.rows {
        RowFileStays(c, s, a, p);
        PublishedStays(c, s, a, p);
      } else {
        assert ReceiptsOk(c, s, a.i);
        NewRowHasFile(c, s, a, p);
      }
    }
    KeepsContent(c, s, a);
  }

  /** A row inserted by a commit names the file that its import published and verified. */
  lemma NewRowHasFile(c: Config, s: State, a: Action, p: Path)
    requires a.CommitPublished? && Enabled(c, s, a) && ReceiptsOk(c, s, a.i) && p.uuid == s.procs[a.i].job.uuid
    ensures p in HistAfter(c, s, a).published && HasDigest(c, FilesAfter(c, s, a), p, HistAfter(c, s, a).published[p])
  {
    KindIndex(p.kind);
  }

  lemma KindIndex(k: Kind)
    ensures exists n :: 0 <= n < |KINDS| && KINDS[n] == k
  {
    assert KINDS[0] == Original && KINDS[1] == Thumbnail && KINDS[2] == Standard && KINDS[3] == Square;
  }

  lemma PublishedFrame(c: Config, s: State, a: Action)
    requires Enabled(c, s, a)
    ensures forall p :: p in s.hist.published && !(a.CommitPublished? && p.uuid == s.procs[a.i].job.uuid) ==>
              p in HistAfter(c, s, a).published && HistAfter(c, s, a).published[p] == s.hist.published[p]
  {
    if a.CommitPublished? { assert Digests(c, s.procs[a.i].job).Keys == AssetPaths(s.procs[a.i].job.uuid); }
  }

  /** What was published for a live row is never rewritten. */
  lemma PublishedStays(c: Config, s: State, a: Action, p: Path)
    requires Inv(c, s) && Enabled(c, s, a) && p in s.db.rows
    ensures p in Apply(c, s, a).hist.published && Apply(c, s, a).hist.published[p] == s.hist.published[p]
  {
    PublishedFrame(c, s, a);
    if a.CommitPublished? { assert JobOk(s, a.i); }
  }

  lemma KeepsContent(c: Config, s: State, a: Action)
    requires Inv(c, s) && Enabled(c, s, a)
    ensures var f := Apply(c, s, a).files; forall p :: p in f.names ==> f.names[p] in f.content
  {
    FilesFrame(c, s, a);
    if a.PublishOne? { assert JobOk(s, a.i); }
    match a
    case _ =>
  }

  // ---------------------------------------------------------------- receipts

  lemma OtherReceiptsStay(c: Config, s: State, a: Action, j: Pid)
    requires Inv(c, s) && Enabled(c, s, a) && IsImport(s, j) && IsImport(Apply(c, s, a), j)
    requires s.procs[j] == Apply(c, s, a).procs[j]
    ensures ReceiptsOk(c, Apply(c, s, a), j)
  {
    var r := ReceiptsOf(s.procs[j].istage);
    FilesFrame(c, s, a);
    assert ReceiptsOk(c, s, j);
    if Active(s.procs[j].istage) {
      forall p | p in r && Removes(s, a, p) ensures false { RemovalIsSafe(c, s, a, p); }
    }
  }

  lemma PublishKeepsReceipts(c: Config, s: State, a: Action)
    requires a.PublishOne? && Enabled(c, s, a) && ReceiptsOk(c, s, a.i) && JobOk(s, a.i)
    ensures ReceiptsOk(c, Apply(c, s, a), a.i)
  {
    var job, n := s.procs[a.i].job, s.procs[a.i].istage.count;
    assert KINDS[0] == Original && KINDS[1] == Thumbnail && KINDS[2] == Standard && KINDS[3] == Square;
    assert Path(job.uuid, KINDS[n]).kind == KINDS[n];
  }

  lemma KeepsReceipts(c: Config, s: State, a: Action)
    requires Inv(c, s) && Enabled(c, s, a)
    ensures ReceiptInv(c, Apply(c, s, a))
  {
    var t := Apply(c, s, a);
    ProcsFrame(c, s, a);
    forall j | IsImport(t, j) ensures ReceiptsOk(c, t, j) {
      if j in s.procs && s.procs[j] == t.procs[j] {
        OtherReceiptsStay(c, s, a, j);
      } else {
        if a.i in s.procs && IsImport(s, a.i) { assert ReceiptsOk(c, s, a.i) && JobOk(s, a.i); }
        MovedReceipts(c, s, a);
      }
    }
  }

  lemma MovedReceipts(c: Config, s: State, a: Action)
    requires Enabled(c, s, a) && !a.BackfillRegister? && IsImport(Apply(c, s, a), a.i)
    requires !(a.i in s.procs && Apply(c, s, a).procs[a.i] == s.procs[a.i])
    requires IsImport(s, a.i) ==> ReceiptsOk(c, s, a.i) && JobOk(s, a.i)
    ensures ReceiptsOk(c, Apply(c, s, a), a.i)
  {
    match a
    case PublishOne(_) => PublishKeepsReceipts(c, s, a);
    case _ =>
  }

  // ---------------------------------------------------------------- the registry

  lemma InsertKeepsRegistry(c: Config, db: Db, job: Job, pin: PinId)
    requires RegistryInv(db) && pin !in db.pins && job.uuid !in db.assets
    requires forall p :: p in db.rows ==> p.uuid != job.uuid
    requires forall m :: m in db.assets ==> db.assets[m] != KeyOf(c, job)
    ensures RegistryInv(InsertRows(c, db, job, pin))
  {
    var t := InsertRows(c, db, job, pin);
    forall m | m in t.assets ensures RegisteredOk(t, m) {
      if m == job.uuid {
        assert t.pins[pin].image == m;
        assert forall p :: p in db.pins ==> Path(db.pins[p].image, Original).uuid != m;
      } else {
        assert RegisteredOk(db, m);
        var p :| p in db.pins && db.pins[p].image == m;
        assert t.pins[p].image == m;
      }
    }
  }

  lemma AddPinKeepsRegistry(db: Db, pin: PinId, user: User, image: Uuid)
    requires RegistryInv(db) && pin !in db.pins && image in db.assets && db.assets[image].owner == user
    ensures RegistryInv(db.(pins := db.pins[pin := PinRow(user, image)]))
  {
    var t := db.(pins := db.pins[pin := PinRow(user, image)]);
    assert RegisteredOk(db, image);
    forall m | m in t.assets ensures RegisteredOk(t, m) {
      assert RegisteredOk(db, m);
      var p :| p in db.pins && db.pins[p].image == m;
      assert t.pins[p].image == m;
    }
  }

  /** Dropping an image no Pin shows leaves a consistent registry. */
  lemma DropImageKeepsRegistry(db: Db, image: Uuid)
    requires !PinsOn(db, image)
    requires KeysUnique(db)
    requires forall m :: m in db.assets && m != image ==> RegisteredOk(db, m)
    requires forall p :: p in db.pins ==> Path(db.pins[p].image, Original) in db.rows
    ensures RegistryInv(DropImage(db, image))
  {
    var t := DropImage(db, image);
    forall m | m in t.assets ensures RegisteredOk(t, m) {
      assert RegisteredOk(db, m);
    }
  }

  lemma DeleteOneKeepsRegistry(db: Db, pin: PinId, image: Uuid)
    requires RegistryInv(db) && pin in db.pins && db.pins[pin].image == image
    ensures RegistryInv(DeleteOne(db, pin, image))
  {
    var db1 := db.(pins := Without(db.pins, pin));
    forall m | m in db1.assets && (m != image || PinsOn(db1, image)) ensures RegisteredOk(db1, m) {
      assert RegisteredOk(db, m);
      if m != image {
        var p :| p in db.pins && db.pins[p].image == m;
        assert p in db1.pins && db1.pins[p].image == m;
      }
    }
    if !PinsOn(db1, image) { DropImageKeepsRegistry(db1, image); }
  }

  lemma DeleteManyKeepsRegistry(db: Db, targets: set<PinId>)
    requires RegistryInv(db)
    requires forall p :: p in targets && p in db.pins ==> db.pins[p].image !in db.assets
    ensures RegistryInv(DeleteMany(db, targets))
  {
    var t := DeleteMany(db, targets);
    forall m | m in t.assets ensures RegisteredOk(t, m) {
      assert RegisteredOk(db, m);
      var p :| p in db.pins && db.pins[p].image == m;
      assert p in t.pins && t.pins[p].image == m;
    }
  }

  lemma RegisterKeepsRegistry(db: Db, image: Uuid, asset: Asset)
    requires RegistryInv(db) && AssetPaths(image) <= db.rows && image !in db.assets && PinsOn(db, image)
    requires forall p :: p in db.pins && db.pins[p].image == image ==> db.pins[p].owner == asset.owner
    requires forall m :: m in db.assets ==> db.assets[m] != asset
    ensures RegistryInv(db.(assets := db.assets[image := asset]))
  {
    var t := db.(assets := db.assets[image := asset]);
    forall m | m in t.assets ensures RegisteredOk(t, m) {
      if m != image { assert RegisteredOk(db, m); }
      var p :| p in db.pins && db.pins[p].image == m;
      assert t.pins[p].image == m;
    }
  }

  lemma SameRegistry(db: Db, db': Db)
    requires RegistryInv(db) && db'.(pending := db.pending) == db
    ensures RegistryInv(db')
  {
    forall m | m in db'.assets ensures RegisteredOk(db', m) { assert RegisteredOk(db, m); }
  }

  predicate WritesRegistry(a: Action) {
    || a.CommitPublished? || a.CommitReuse? || a.DeleteCommit?
    || a.LegacyCommit? || a.LegacyCleanup? || a.BackfillRegister?
  }

  /** All other steps write no asset, pin or row. */
  lemma QuietStep(c: Config, s: State, a: Action)
    requires Enabled(c, s, a) && !WritesRegistry(a)
    ensures Apply(c, s, a).db.(pending := s.db.pending) == s.db
  {
    match a
    case _ =>
  }

  lemma WriterKeepsRegistry(c: Config, s: State, a: Action)
    requires Enabled(c, s, a) && WritesRegistry(a) && RegistryInv(s.db)
    requires a.CommitPublished? ==> JobOk(s, a.i) && WindowOk(c, s, a.i)
    requires a.CommitReuse? ==> WindowOk(c, s, a.i)
    requires a.LegacyCommit? ==> DoomedOk(s.db, s.procs[a.i].lstage.doomed)
    ensures RegistryInv(Apply(c, s, a).db)
  {
    match a
    case CommitPublished(i, pin) => InsertKeepsRegistry(c, s.db, s.procs[i].job, pin);
    case CommitReuse(i, pin) => AddPinKeepsRegistry(s.db, pin, s.procs[i].job.user, s.procs[i].istage.image);
    case DeleteCommit(i) => DeleteOneKeepsRegistry(s.db, s.procs[i].pin, s.procs[i].image);
    case LegacyCommit(i) => DeleteManyKeepsRegistry(s.db, s.procs[i].lstage.doomed);
    case LegacyCleanup(_, image) =>
      if Path(image, Original) in s.db.rows && !PinsOn(s.db, image) {
        DropImageKeepsRegistry(s.db, image);
      }
    case BackfillRegister(image) => RegisterKeepsRegistry(s.db, image, BackfillAsset(c, s, image));
  }

  lemma KeepsRegistry(c: Config, s: State, a: Action)
    requires Inv(c, s) && Enabled(c, s, a)
    ensures RegistryInv(Apply(c, s, a).db)
  {
    if WritesRegistry(a) {
      if a.LegacyCommit? { assert IsDeleting(s, a.i); }
      WriterKeepsRegistry(c, s, a);
    } else {
      QuietStep(c, s, a);
      SameRegistry(s.db, Apply(c, s, a).db);
    }
  }

  // ---------------------------------------------------------------- what an import has read

  /** While an import holds its stripe, no other step adds an asset under its key. */
  lemma KeyStaysFree(c: Config, s: State, a: Action, j: Pid, m: Uuid)
    requires LockInv(c, s) && Enabled(c, s, a) && IsImport(s, j) && Active(s.procs[j].istage)
    requires !(a.CommitPublished? && a.i == j)
    requires m in Apply(c, s, a).db.assets && Apply(c, s, a).db.assets[m] == KeyOf(c, s.procs[j].job)
    ensures m in s.db.assets && s.db.assets[m] == KeyOf(c, s.procs[j].job)
  {
    assert Protected(c, s, j);
    AssetsFrame(c, s, a);
    if a.CommitPublished? { assert Protected(c, s, a.i); }
  }

  /** While an import holds its stripe, no other step removes the asset under its key. */
  lemma KeyStays(c: Config, s: State, a: Action, j: Pid, m: Uuid)
    requires LockInv(c, s) && RegistryInv(s.db) && Enabled(c, s, a) && IsImport(s, j) && Active(s.procs[j].istage)
    requires m in s.db.assets && s.db.assets[m] == KeyOf(c, s.procs[j].job)
    ensures m in Apply(c, s, a).db.assets
  {
    assert Protected(c, s, j) && RegisteredOk(s.db, m);
    AssetsFrame(c, s, a);
    if a.DeleteCommit? { assert Protected(c, s, a.i); }
  }

  lemma BytesStay(c: Config, s: State, a: Action, image: Uuid, k: Kind, b: Bytes)
    requires Inv(c, s) && Enabled(c, s, a) && image in s.db.assets && HasBytes(s.files, Path(image, k), b)
    ensures HasBytes(Apply(c, s, a).files, Path(image, k), b)
  {
    assert RegisteredOk(s.db, image);
    RowFileStays(c, s, a, Path(image, k));
  }

  lemma UnchangedWindow(c: Config, s: State, a: Action, j: Pid)
    requires Inv(c, s) && Enabled(c, s, a) && IsImport(s, j) && Active(s.procs[j].istage)
    requires j in Apply(c, s, a).procs && Apply(c, s, a).procs[j] == s.procs[j]
    requires !(a.CommitPublished? && a.i == j)
    ensures WindowOk(c, Apply(c, s, a), j)
  {
    var t := Apply(c, s, a);
    var job, st := s.procs[j].job, s.procs[j].istage;
    assert WindowOk(c, s, j);
    if st.Reusing? {
      KeyStays(c, s, a, j, st.image);
      AssetsFrame(c, s, a);
      NewAssetsAreNew(c, s, a);
      forall k: Kind ensures HasBytes(t.files, Path(st.image, k), job.data.At(k)) {
        BytesStay(c, s, a, st.image, k, job.data.At(k));
      }
    } else {
      forall m | m in t.db.assets ensures st.Publishing? || st.Verified? ==> t.db.assets[m] != KeyOf(c, job) {
        if t.db.assets[m] == KeyOf(c, job) { KeyStaysFree(c, s, a, j, m); }
      }
    }
  }

  /** No step gives an existing asset another submitter or digest. */
  lemma NewAssetsAreNew(c: Config, s: State, a: Action)
    requires Inv(c, s) && Enabled(c, s, a)
    ensures forall m :: m in s.db.assets && m in Apply(c, s, a).db.assets ==>
              Apply(c, s, a).db.assets[m] == s.db.assets[m]
  {
    AssetsFrame(c, s, a);
    if a.CommitPublished? { assert JobOk(s, a.i); }
  }

  lemma MovedWindow(c: Config, s: State, a: Action)
    requires Enabled(c, s, a) && !a.BackfillRegister? && IsImport(Apply(c, s, a), a.i)
    requires !(a.i in s.procs && Apply(c, s, a).procs[a.i] == s.procs[a.i])
    requires IsImport(s, a.i) ==> WindowOk(c, s, a.i)
    ensures WindowOk(c, Apply(c, s, a), a.i)
  {
    match a
    case _ =>
  }

  lemma KeepsWindows(c: Config, s: State, a: Action)
    requires Inv(c, s) && Enabled(c, s, a)
    ensures WindowInv(c, Apply(c, s, a))
  {
    var t := Apply(c, s, a);
    ProcsFrame(c, s, a);
    forall j | IsImport(t, j) ensures WindowOk(c, t, j) {
      if j in s.procs && s.procs[j] == t.procs[j] {
        if Active(s.procs[j].istage) { UnchangedWindow(c, s, a, j); }
      } else {
        MovedWindow(c, s, a);
      }
    }
  }

  // ---------------------------------------------------------------- legacy deletions

  /** A Pin goes only in the commit of a deletion it belongs to. */
  lemma PinsGo(c: Config, s: State, a: Action, p: PinId)
    requires Enabled(c, s, a) && p in s.db.pins && p !in DbAfter(c, s, a).pins
    ensures (a.DeleteCommit? && p == s.procs[a.i].pin) || (a.LegacyCommit? && p in s.procs[a.i].lstage.doomed)
  {
  }

  lemma PinStays(c: Config, s: State, a: Action, p: PinId)
    requires Enabled(c, s, a) && p in s.db.pins && p in DbAfter(c, s, a).pins
    ensures DbAfter(c, s, a).pins[p] == s.db.pins[p]
  {
    match a
    case _ =>
  }

  /** No step of another process registers the image of a doomed Pin or takes the Pin away. */
  lemma DoomedStays(c: Config, s: State, a: Action, j: Pid, p: PinId)
    requires UuidInv(s) && RegistryInv(s.db) && LegacyInv(s) && Enabled(c, s, a)
    requires IsDeleting(s, j) && p in s.procs[j].lstage.doomed && !(a.LegacyCommit? && a.i == j)
    ensures var t := Apply(c, s, a); p in t.db.pins && t.db.pins[p].image !in t.db.assets
  {
    if p !in DbAfter(c, s, a).pins {
      PinsGo(c, s, a, p);
      assert a.LegacyCommit? ==> IsDeleting(s, a.i);
      assert false;
    }
    PinStays(c, s, a, p);
    AssetsFrame(c, s, a);
    if a.CommitPublished? { assert JobOk(s, a.i); }
  }

  lemma DeletingFrame(c: Config, s: State, a: Action, j: Pid)
    requires Enabled(c, s, a) && IsDeleting(Apply(c, s, a), j)
    ensures || (IsDeleting(s, j) && Apply(c, s, a).procs[j] == s.procs[j] && !(a.LegacyCommit? && a.i == j))
            || (a.LegacyDeletePins? && a.i == j
                && Apply(c, s, a).procs[j].lstage.doomed == s.procs[j].targets * s.db.pins.Keys)
  {
    match a
    case _ =>
  }

  lemma KeepsLegacy(c: Config, s: State, a: Action)
    requires UuidInv(s) && RegistryInv(s.db) && LegacyInv(s) && Enabled(c, s, a)
    ensures LegacyInv(Apply(c, s, a))
  {
    var t := Apply(c, s, a);
    forall j | IsDeleting(t, j) ensures DoomedOk(t.db, t.procs[j].lstage.doomed) {
      DeletingFrame(c, s, a, j);
      if !a.LegacyDeletePins? || a.i != j {
        forall p | p in t.procs[j].lstage.doomed ensures p in t.db.pins && t.db.pins[p].image !in t.db.assets {
          DoomedStays(c, s, a, j, p);
        }
      }
    }
    forall j, k | IsDeleting(t, j) && IsDeleting(t, k) && j != k
      ensures t.procs[j].lstage.doomed !! t.procs[k].lstage.doomed
    {
      DeletingFrame(c, s, a, j);
      DeletingFrame(c, s, a, k);
    }
  }

  /**
   What the clean-up of an image checks under its lock cannot change before it
   commits: no step gives an image without Pins a Pin or an asset.
   */
  lemma UnreferencedStays(c: Config, s: State, a: Action, image: Uuid)
    requires Inv(c, s) && Enabled(c, s, a)
    requires Path(image, Original) in s.db.rows && !PinsOn(s.db, image)
    ensures !PinsOn(Apply(c, s, a).db, image) && image !in Apply(c, s, a).db.assets
  {
    assert image in s.db.assets ==> RegisteredOk(s.db, image);
    AssetsFrame(c, s, a);
    if a.CommitPublished? { assert JobOk(s, a.i); }
    if a.CommitReuse? { assert WindowOk(c, s, a.i); }
    NewPins(c, s, a);
  }

  lemma NewPins(c: Config, s: State, a: Action)
    requires Enabled(c, s, a)
    ensures forall p :: p in DbAfter(c, s, a).pins ==>
              || (p in s.db.pins && DbAfter(c, s, a).pins[p] == s.db.pins[p])
              || (a.CommitPublished? && DbAfter(c, s, a).pins[p].image == s.procs[a.i].job.uuid)
              || (a.CommitReuse? && DbAfter(c, s, a).pins[p].image == s.procs[a.i].istage.image)
  {
    match a
    case _ =>
  }

  // ---------------------------------------------------------------- workers

  /** Nothing commits while a worker has the exclusive lock. */
  lemma WorkerExcludesCommit(c: Config, s: State, a: Action, j: Pid)
    requires LockInv(c, s) && Enabled(c, s, a) && IsWorker(s, j) && s.procs[j].wstage.Cleared?
    ensures Apply(c, s, a).db.rows <= s.db.rows
  {
    assert Protected(c, s, j);
    RowsFrame(c, s, a);
    assert a.i in s.locks.shared ==> s.locks.exclusive.None?;
  }

  lemma CheckedWorker(c: Config, s: State, a: Action)
    requires Enabled(c, s, a) && !a.BackfillRegister? && IsWorker(Apply(c, s, a), a.i)
    requires Apply(c, s, a).procs[a.i].wstage.Cleared?
    requires !(a.i in s.procs && Apply(c, s, a).procs[a.i] == s.procs[a.i])
    ensures Apply(c, s, a).procs[a.i].path !in Apply(c, s, a).db.rows
  {
    match a
    case _ =>
  }

  lemma KeepsWorkers(c: Config, s: State, a: Action)
    requires Inv(c, s) && Enabled(c, s, a)
    ensures WorkerInv(Apply(c, s, a))
  {
    var t := Apply(c, s, a);
    forall j | IsWorker(t, j) && t.procs[j].wstage.Cleared? ensures t.procs[j].path !in t.db.rows {
      ProcsFrame(c, s, a);
      if j in s.procs && s.procs[j] == t.procs[j] {
        WorkerExcludesCommit(c, s, a, j);
      } else {
        CheckedWorker(c, s, a);
      }
    }
  }

  // ---------------------------------------------------------------- pins and their bytes

  lemma ShownStays(c: Config, s: State, t: State, image: Uuid, u: Upload)
    requires ShowsUpload(c, s, image, u) && AssetPaths(image) <= t.db.rows
    requires forall k: Kind :: SameFile(s.files, t.files, Path(image, k))
    ensures ShowsUpload(c, t, image, u)
  {
    forall k: Kind
      ensures Path(image, k) in t.db.rows
      ensures HasDigest(c, t.files, Path(image, k), c.sha(u.data.At(k)))
      ensures u.reused ==> HasBytes(t.files, Path(image, k), u.data.At(k))
    {
      assert SameFile(s.files, t.files, Path(image, k));
    }
  }

  /** The name leads to the same bytes in both. */
  predicate SameFile(f: Files, g: Files, p: Path) {
    && p in f.names && f.names[p] in f.content
    && p in g.names && g.names[p] in g.content
    && f.content[f.names[p]] == g.content[g.names[p]]
  }

  lemma NewPinShows(c: Config, s: State, a: Action)
    requires Inv(c, s) && (a.CommitPublished? || a.CommitReuse?) && Enabled(c, s, a)
    ensures var t := Apply(c, s, a);
            && t.db.pins[a.pin].image in t.db.assets
            && ShowsUpload(c, t, t.db.pins[a.pin].image, t.hist.uploads[a.pin])
  {
    if a.CommitPublished? {
      assert ReceiptsOk(c, s, a.i);
      PublishedShows(c, s, a);
    } else {
      assert WindowOk(c, s, a.i) && RegisteredOk(s.db, s.procs[a.i].istage.image);
      ReusedShows(c, s, a);
    }
  }

  lemma PublishedShows(c: Config, s: State, a: Action)
    requires a.CommitPublished? && Enabled(c, s, a) && ReceiptsOk(c, s, a.i)
    ensures var t := Apply(c, s, a);
            t.db.pins[a.pin].image in t.db.assets && ShowsUpload(c, t, t.db.pins[a.pin].image, t.hist.uploads[a.pin])
  {
    var t, job := Apply(c, s, a), s.procs[a.i].job;
    forall k: Kind
      ensures Path(job.uuid, k) in t.db.rows && HasDigest(c, t.files, Path(job.uuid, k), c.sha(job.data.At(k)))
    {
      KindIndex(k);
      assert Path(job.uuid, k) in s.procs[a.i].istage.receipts;
    }
  }

  lemma ReusedShows(c: Config, s: State, a: Action)
    requires a.CommitReuse? && Enabled(c, s, a) && WindowOk(c, s, a.i)
    requires RegisteredOk(s.db, s.procs[a.i].istage.image)
    ensures var t := Apply(c, s, a);
            t.db.pins[a.pin].image in t.db.assets && ShowsUpload(c, t, t.db.pins[a.pin].image, t.hist.uploads[a.pin])
  {
    var t, job, image := Apply(c, s, a), s.procs[a.i].job, s.procs[a.i].istage.image;
    forall k: Kind
      ensures Path(image, k) in t.db.rows && HasDigest(c, t.files, Path(image, k), c.sha(job.data.At(k)))
    {
      assert HasBytes(s.files, Path(image, k), job.data.At(k));
    }
  }

  lemma PinsFrame(c: Config, s: State, a: Action)
    requires Enabled(c, s, a)
    ensures forall p :: p in Apply(c, s, a).db.pins ==>
              || (p in s.db.pins && Apply(c, s, a).db.pins[p] == s.db.pins[p])
              || ((a.CommitPublished? || a.CommitReuse?) && p == a.pin)
    ensures forall p :: p in Apply(c, s, a).hist.uploads ==>
              || (p in s.hist.uploads && Apply(c, s, a).hist.uploads[p] == s.hist.uploads[p])
              || ((a.CommitPublished? || a.CommitReuse?) && p == a.pin)
  {
    match a
    case _ =>
  }

  lemma KeepsUploads(c: Config, s: State, a: Action)
    requires Inv(c, s) && Enabled(c, s, a)
    ensures UploadInv(c, Apply(c, s, a))
  {
    var t := Apply(c, s, a);
    KeepsRegistry(c, s, a);
    PinsFrame(c, s, a);
    AssetsFrame(c, s, a);
    forall p | p in t.db.pins && p in t.hist.uploads
      ensures t.db.pins[p].image in t.db.assets && ShowsUpload(c, t, t.db.pins[p].image, t.hist.uploads[p])
    {
      if (a.CommitPublished? || a.CommitReuse?) && p == a.pin {
        NewPinShows(c, s, a);
      } else {
        var image := s.db.pins[p].image;
        if image !in t.db.assets { DroppedImageHasNoPins(c, s, a, p); }
        assert RegisteredOk(t.db, image) && RegisteredOk(s.db, image);
        forall k: Kind ensures SameFile(s.files, t.files, Path(image, k)) {
          RowFileStays(c, s, a, Path(image, k));
        }
        ShownStays(c, s, t, image, s.hist.uploads[p]);
      }
    }
  }

  /** A Pin that survives a step keeps the asset of its image. */
  lemma DroppedImageHasNoPins(c: Config, s: State, a: Action, p: PinId)
    requires Inv(c, s) && Enabled(c, s, a)
    requires p in s.db.pins && p in Apply(c, s, a).db.pins && Apply(c, s, a).db.pins[p] == s.db.pins[p]
    requires s.db.pins[p].image in s.db.assets
    ensures s.db.pins[p].image in Apply(c, s, a).db.assets
  {
    AssetsFrame(c, s, a);
    if s.db.pins[p].image !in Apply(c, s, a).db.assets {
      assert PinsOn(s.db, s.db.pins[p].image);
      assert false;
    }
  }

  // ---------------------------------------------------------------- all of it

  lemma StepKeepsInv(c: Config, s: State, a: Action)
    requires Inv(c, s) && Enabled(c, s, a)
    ensures Inv(c, Apply(c, s, a))
  {
    KeepsLocks(c, s, a);
    KeepsUuids(c, s, a);
    KeepsFiles(c, s, a);
    KeepsReceipts(c, s, a);
    KeepsRegistry(c, s, a);
    KeepsWindows(c, s, a);
    KeepsLegacy(c, s, a);
    KeepsWorkers(c, s, a);
    KeepsUploads(c, s, a);
  }
}
