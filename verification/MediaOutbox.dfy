/**
 Conservation of files: a file that once had a committed row is still named by
 a row, queued for deletion, or gone.
 */
module MediaOutbox {
  import opened Wrappers
  import opened MediaStore
  import opened MediaInvariant
  import opened MediaSteps

  /** Every file that ever had a committed row is referenced, queued, or gone. */
  ghost predicate Conserved(s: State) {
    forall p :: p in s.hist.born && p in s.files.names ==> p in s.db.rows || p in s.db.pending
  }

  /** The path belongs to no upload that may still be committed. */
  ghost predicate Retired(s: State, p: Path) {
    && p.uuid in s.hist.usedUuids
    && (forall i :: IsImport(s, i) && Uncommitted(s.procs[i].istage) ==> s.procs[i].job.uuid != p.uuid)
  }

  ghost predicate OutboxInv(s: State) {
    && s.db.rows <= s.hist.born
    && s.db.rows !! s.db.pending
    && (forall p :: p in s.db.pending ==> Retired(s, p))
    && (forall p :: p in s.hist.born ==> Retired(s, p))
    && (forall i :: IsWorker(s, i) ==> DrainOk(s, i))
    && Conserved(s)
  }

  ghost predicate DrainOk(s: State, i: Pid)
    requires IsWorker(s, i)
  {
    var p := s.procs[i].path;
    && Retired(s, p) && p !in s.db.rows
    && (s.procs[i].wstage.Unlocking? || s.procs[i].wstage.DropRow? ==> p !in s.files.names)
  }

  lemma PendingPart(c: Config, s: State, a: Action)
    requires Enabled(c, s, a)
    ensures forall p :: p in DbAfter(c, s, a).pending ==>
              p in s.db.pending || (p in s.db.rows && p !in DbAfter(c, s, a).rows)
    ensures forall p :: p in s.db.pending && p !in DbAfter(c, s, a).pending ==>
              a.WorkerDrop? && p == s.procs[a.i].path
    ensures forall p :: p in s.db.rows && p !in DbAfter(c, s, a).rows ==> p in DbAfter(c, s, a).pending
  {
  }

  lemma PendingFrame(c: Config, s: State, a: Action)
    requires Enabled(c, s, a)
    ensures forall p :: p in Apply(c, s, a).db.pending ==>
              p in s.db.pending || (p in s.db.rows && p !in Apply(c, s, a).db.rows)
    ensures forall p :: p in s.db.pending && p !in Apply(c, s, a).db.pending ==>
              a.WorkerDrop? && p == s.procs[a.i].path
    ensures forall p :: p in s.db.rows && p !in Apply(c, s, a).db.rows ==> p in Apply(c, s, a).db.pending
  {
    PendingPart(c, s, a);
  }

  lemma BornFrame(c: Config, s: State, a: Action)
    requires Enabled(c, s, a)
    ensures Apply(c, s, a).hist.born ==
            if a.CommitPublished? then s.hist.born + AssetPaths(s.procs[a.i].job.uuid) else s.hist.born
    ensures a.CommitPublished? ==> Apply(c, s, a).db.rows == s.db.rows + AssetPaths(s.procs[a.i].job.uuid)
    ensures a.CommitPublished? ==> Apply(c, s, a).procs == s.procs[a.i := Import(s.procs[a.i].job, Committed)]
  {
    match a
    case _ =>
  }

  /** A new name belongs to the import that publishes it. */
  lemma NamesFrame(c: Config, s: State, a: Action)
    requires Enabled(c, s, a)
    ensures forall p :: p in Apply(c, s, a).files.names && p !in s.files.names ==>
              a.PublishOne? && p.uuid == s.procs[a.i].job.uuid
  {
    match a
    case _ =>
  }

  lemma KeepsRetired(c: Config, s: State, a: Action, p: Path)
    requires Enabled(c, s, a) && Retired(s, p)
    ensures Retired(Apply(c, s, a), p)
  {
    UsedFrame(c, s, a);
    forall j | IsImport(Apply(c, s, a), j) && Uncommitted(Apply(c, s, a).procs[j].istage)
      ensures Apply(c, s, a).procs[j].job.uuid != p.uuid
    {
      JobFrame(c, s, a, j);
    }
  }

  lemma CommitRetires(c: Config, s: State, a: Action, p: Path)
    requires UuidInv(s) && a.CommitPublished? && Enabled(c, s, a) && p.uuid == s.procs[a.i].job.uuid
    ensures Retired(Apply(c, s, a), p)
  {
    UsedFrame(c, s, a);
    assert JobOk(s, a.i);
    forall j | IsImport(Apply(c, s, a), j) && Uncommitted(Apply(c, s, a).procs[j].istage)
      ensures Apply(c, s, a).procs[j].job.uuid != p.uuid
    {
      JobFrame(c, s, a, j);
      BornFrame(c, s, a);
    }
  }

  lemma WorkerKeepsDrain(c: Config, s: State, a: Action)
    requires Enabled(c, s, a) && !a.BackfillRegister? && ProcAfter(c, s, a).Some? && ProcAfter(c, s, a).value.Worker?
    requires IsWorker(s, a.i) ==> DrainOk(s, a.i)
    requires forall p :: p in s.db.pending ==> p !in s.db.rows && Retired(s, p)
    ensures var w := ProcAfter(c, s, a).value;
            && w.path !in s.db.rows && Retired(s, w.path)
            && (w.wstage.Unlocking? || w.wstage.DropRow? ==> w.path !in FilesAfter(c, s, a).names)
  {
  }

  lemma KeepsDrain(c: Config, s: State, a: Action, j: Pid)
    requires Inv(c, s) && OutboxInv(s) && Enabled(c, s, a) && IsWorker(Apply(c, s, a), j)
    ensures DrainOk(Apply(c, s, a), j)
  {
    ProcsFrame(c, s, a);
    RowsFrame(c, s, a);
    NamesFrame(c, s, a);
    var p := Apply(c, s, a).procs[j].path;
    if !a.BackfillRegister? && a.i == j {
      WorkerKeepsDrain(c, s, a);
    } else {
      assert DrainOk(s, j);
    }
    KeepsRetired(c, s, a, p);
  }

  lemma KeepsConserved(c: Config, s: State, a: Action)
    requires Inv(c, s) && OutboxInv(s) && Enabled(c, s, a)
    ensures Conserved(Apply(c, s, a))
  {
    var t := Apply(c, s, a);
    RowsFrame(c, s, a);
    PendingFrame(c, s, a);
    BornFrame(c, s, a);
    NamesFrame(c, s, a);
    DropKeepsFiles(c, s, a);
    forall p | p in t.hist.born && p in t.files.names ensures p in t.db.rows || p in t.db.pending { }
  }

  lemma DropKeepsFiles(c: Config, s: State, a: Action)
    requires Enabled(c, s, a)
    ensures a.WorkerDrop? ==> Apply(c, s, a).files == s.files
  {
  }

  lemma KeepsOutbox(c: Config, s: State, a: Action)
    requires Inv(c, s) && OutboxInv(s) && Enabled(c, s, a)
    ensures OutboxInv(Apply(c, s, a))
  {
    var t := Apply(c, s, a);
    RowsFrame(c, s, a);
    PendingFrame(c, s, a);
    BornFrame(c, s, a);
    KeepsConserved(c, s, a);
    forall p | p in t.db.pending ensures Retired(t, p) && p !in t.db.rows {
      KeepsRetired(c, s, a, p);
    }
    forall p | p in t.hist.born ensures Retired(t, p) {
      if p in s.hist.born { KeepsRetired(c, s, a, p); } else { CommitRetires(c, s, a, p); }
    }
    forall j | IsWorker(t, j) ensures DrainOk(t, j) { KeepsDrain(c, s, a, j); }
  }
}
