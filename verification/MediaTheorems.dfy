/** What holds of the media store in every run: any processes, any interleaving, any crashes. */
module MediaTheorems {
  import opened Wrappers
  import opened MediaStore
  import opened MediaInvariant
  import opened MediaSteps
  import opened MediaOutbox

  /**
   A quiet store to start from: nothing is running and no lock is held. The
   committed rows may include images registered earlier and legacy images that
   have Pins but no asset; the outbox may hold any paths.
   */
  ghost predicate Start(c: Config, s: State) {
    && s.procs == map[] && NoLocks(s.locks)
    && FilesInv(c, s)
    && RegistryInv(s.db)
    && (forall p :: p in s.db.rows ==> p.uuid in s.hist.usedUuids)
    && s.hist.uploads == map[]
  }

  /** Besides, the outbox only names retired files that no row names. */
  ghost predicate CleanStart(c: Config, s: State) {
    && Start(c, s)
    && s.hist.born == s.db.rows
    && s.db.rows !! s.db.pending
    && (forall p :: p in s.db.pending ==> p.uuid in s.hist.usedUuids)
  }

  lemma {:induction false} ReachableInv(c: Config, s: State, run: seq<Action>, t: State)
    requires Inv(c, s) && Run(c, s, run, t)
    ensures Inv(c, t)
    decreases |run|
  {
    if run != [] {
      StepKeepsInv(c, s, run[0]);
      ReachableInv(c, Apply(c, s, run[0]), run[1..], t);
    }
  }

  lemma {:induction false} ReachableOutbox(c: Config, s: State, run: seq<Action>, t: State)
    requires Inv(c, s) && OutboxInv(s) && Run(c, s, run, t)
    ensures Inv(c, t) && OutboxInv(t)
    decreases |run|
  {
    if run != [] {
      StepKeepsInv(c, s, run[0]);
      KeepsOutbox(c, s, run[0]);
      ReachableOutbox(c, Apply(c, s, run[0]), run[1..], t);
    }
  }

  /** In every reachable state each committed row names an existing file with the published bytes' digest. */
  lemma RowsAlwaysImplyFiles(c: Config, s: State, run: seq<Action>, t: State)
    requires Start(c, s) && Run(c, s, run, t)
    ensures RowsImplyFiles(c, t)
  {
    ReachableInv(c, s, run, t);
  }

  /**
   In every reachable state no two assets share (submitter, digest), and every
   registered image has its four rows, a Pin, and only Pins of its submitter.
   */
  lemma RegistryAlwaysConsistent(c: Config, s: State, run: seq<Action>, t: State)
    requires Start(c, s) && Run(c, s, run, t)
    ensures KeysUnique(t.db)
    ensures forall m :: m in t.db.assets ==> RegisteredOk(t.db, m)
    ensures forall p :: p in t.db.pins ==> Path(t.db.pins[p].image, Original) in t.db.rows
  {
    ReachableInv(c, s, run, t);
  }

  /** As long as a Pin made by an import lives, its image's files hold what was uploaded for it. */
  lemma PinsAlwaysShowTheirUpload(c: Config, s: State, run: seq<Action>, t: State, p: PinId)
    requires Start(c, s) && Run(c, s, run, t)
    requires p in t.db.pins && p in t.hist.uploads
    ensures var u := t.hist.uploads[p];
            forall k: Kind ::
              && HasDigest(c, t.files, Path(t.db.pins[p].image, k), c.sha(u.data.At(k)))
              && (u.reused ==> HasBytes(t.files, Path(t.db.pins[p].image, k), u.data.At(k)))
  {
    ReachableInv(c, s, run, t);
    assert ShowsUpload(c, t, t.db.pins[p].image, t.hist.uploads[p]);
  }

  /** Every file that ever had a committed row is referenced, queued for deletion, or gone. */
  lemma FilesAreConserved(c: Config, s: State, run: seq<Action>, t: State, p: Path)
    requires CleanStart(c, s) && Run(c, s, run, t)
    requires p in t.hist.born
    ensures p in t.db.rows || p in t.db.pending || p !in t.files.names
  {
    ReachableOutbox(c, s, run, t);
  }

  /**
   A file that disappears in some step was named by no row then or just after,
   and was under no receipt of an import that still held its shared lock.
   */
  lemma OnlyUnneededFilesDisappear(c: Config, s: State, run: seq<Action>, t: State, a: Action, p: Path)
    requires Start(c, s) && Run(c, s, run, t) && Enabled(c, t, a)
    requires p in t.files.names && p !in Apply(c, t, a).files.names
    ensures a.WorkerUnlink? || a.Compensate?
    ensures p !in t.db.rows && p !in Apply(c, t, a).db.rows
    ensures forall j :: IsImport(t, j) && Active(t.procs[j].istage) ==> p !in ReceiptsOf(t.procs[j].istage)
  {
    ReachableInv(c, s, run, t);
    FilesFrame(c, t, a);
    RemovalIsSafe(c, t, a, p);
  }

  /** No step ever makes an existing name lead to another file. */
  lemma NamesAreNeverReplaced(c: Config, s: State, a: Action, p: Path)
    requires Enabled(c, s, a)
    requires p in s.files.names && p in Apply(c, s, a).files.names
    ensures Apply(c, s, a).files.names[p] == s.files.names[p]
  {
    match a
    case _ =>
  }

  /** While a worker has the exclusive lock no import is inside its transaction. */
  lemma WorkersExcludeImports(c: Config, s: State, run: seq<Action>, t: State, w: Pid, i: Pid)
    requires Start(c, s) && Run(c, s, run, t)
    requires IsWorker(t, w) && t.locks.exclusive == Some(w)
    requires IsImport(t, i)
    ensures !Active(t.procs[i].istage)
  {
    ReachableInv(c, s, run, t);
    assert Protected(c, t, i);
  }

  /** Two imports of the same upload by one user are never inside their transactions together. */
  lemma SameKeyImportsExclude(c: Config, s: State, run: seq<Action>, t: State, i: Pid, j: Pid)
    requires Start(c, s) && Run(c, s, run, t) && i != j
    requires IsImport(t, i) && IsImport(t, j)
    requires KeyOf(c, t.procs[i].job) == KeyOf(c, t.procs[j].job)
    ensures !(Active(t.procs[i].istage) && Active(t.procs[j].istage))
  {
    ReachableInv(c, s, run, t);
    assert Protected(c, t, i);
    assert Protected(c, t, j);
  }

  /**
   Deleting a registered Pin removes that Pin and nothing else, unless it was the
   last one: then the four rows and the asset go too, and all four files are queued.
   */
  lemma DeletingThePin(c: Config, s: State, run: seq<Action>, t: State, a: Action)
    requires Start(c, s) && Run(c, s, run, t) && a.DeleteCommit? && Enabled(c, t, a)
    ensures var d, t' := t.procs[a.i], Apply(c, t, a);
            && t'.db.pins.Keys == t.db.pins.Keys - {d.pin}
            && (forall p :: p in t'.db.pins ==> t'.db.pins[p] == t.db.pins[p])
            && t'.files == t.files
            && (OtherPinsOn(t.db, d.image, d.pin) ==>
                  && t'.db.rows == t.db.rows && t'.db.assets == t.db.assets && t'.db.pending == t.db.pending)
            && (!OtherPinsOn(t.db, d.image, d.pin) ==>
                  && t'.db.rows == t.db.rows - AssetPaths(d.image)
                  && t'.db.assets.Keys == t.db.assets.Keys - {d.image}
                  && t'.db.pending == t.db.pending + AssetPaths(d.image))
  {
    ReachableInv(c, s, run, t);
    assert RegisteredOk(t.db, t.procs[a.i].image);
    DeleteOneEffect(t.db, t.procs[a.i].pin, t.procs[a.i].image);
  }

  lemma DeleteOneEffect(db: Db, pin: PinId, image: Uuid)
    requires pin in db.pins && db.pins[pin].image == image && AssetPaths(image) <= db.rows && image in db.assets
    ensures var db' := DeleteOne(db, pin, image);
            && db'.pins.Keys == db.pins.Keys - {pin}
            && (forall p :: p in db'.pins ==> db'.pins[p] == db.pins[p])
            && (OtherPinsOn(db, image, pin) ==>
                  && db'.rows == db.rows && db'.assets == db.assets && db'.pending == db.pending)
            && (!OtherPinsOn(db, image, pin) ==>
                  && db'.rows == db.rows - AssetPaths(image)
                  && db'.assets.Keys == db.assets.Keys - {image}
                  && db'.pending == db.pending + AssetPaths(image))
  {
    var db1 := db.(pins := Without(db.pins, pin));
    if OtherPinsOn(db, image, pin) {
      var p :| p in db.pins && p != pin && db.pins[p].image == image;
      assert db1.pins[p].image == image;
    } else {
      assert !PinsOn(db1, image);
      assert db.rows * AssetPaths(image) == AssetPaths(image);
    }
  }
}
