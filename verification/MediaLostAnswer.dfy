/**
 The steps of the media store presume that a COMMIT reported as failed did not
 take effect. This is what follows when it did and only its answer was lost:
 the import still takes its failure path and compensates.
 */
module MediaLostAnswer {
  import opened Wrappers
  import opened MediaStore
  import opened MediaInvariant
  import opened MediaSteps
  import opened MediaTheorems

  /** The database applied the commit, but the import saw it fail. */
  ghost function CommitAnswerLost(c: Config, t: State, i: Pid, pin: PinId): State
    requires Enabled(c, t, CommitPublished(i, pin))
  {
    Become(Apply(c, t, CommitPublished(i, pin)), i, Import(t.procs[i].job, Failed(t.procs[i].istage.receipts)))
  }

  ghost predicate OnlyCompensates(run: seq<Action>, i: Pid) {
    forall n :: 0 <= n < |run| ==> run[n].Compensate? && run[n].i == i
  }

  ghost predicate TakesBackNothing(run: seq<Action>, receipts: map<Path, Receipt>) {
    forall n :: 0 <= n < |run| && run[n].Compensate? && run[n].path in receipts ==> !receipts[run[n].path].created
  }

  /** All rows have their files but the `missing` ones, and the receipts left describe files of rows. */
  ghost predicate AllBut(c: Config, s: State, i: Pid, missing: set<Path>) {
    && IsImport(s, i) && s.procs[i].istage.Failed?
    && (forall p :: p in missing ==> p in s.db.rows && p !in s.files.names)
    && (forall p :: p in s.db.rows && p !in missing ==>
          p in s.hist.published && HasDigest(c, s.files, p, s.hist.published[p]))
    && (forall p :: p in s.procs[i].istage.receipts ==>
          && p in s.db.rows && p in s.files.names && s.files.names[p] == s.procs[i].istage.receipts[p].inode)
  }

  lemma MissingMeans(c: Config, s: State, i: Pid, missing: set<Path>)
    requires AllBut(c, s, i, missing)
    ensures RowsImplyFiles(c, s) <==> missing == {}
  {
  }

  lemma CompensatesOne(c: Config, s: State, i: Pid, p: Path, missing: set<Path>)
    requires AllBut(c, s, i, missing) && Enabled(c, s, Compensate(i, p))
    ensures var r, s' := s.procs[i].istage.receipts, Apply(c, s, Compensate(i, p));
            && AllBut(c, s', i, if r[p].created then missing + {p} else missing)
            && s'.procs[i].istage.receipts == Without(r, p)
  {
  }

  lemma {:induction false} Compensates(c: Config, s: State, i: Pid, run: seq<Action>, t: State, missing: set<Path>)
    requires AllBut(c, s, i, missing) && Run(c, s, run, t) && OnlyCompensates(run, i)
    ensures RowsImplyFiles(c, t) <==> missing == {} && TakesBackNothing(run, s.procs[i].istage.receipts)
    decreases |run|
  {
    if run == [] {
      MissingMeans(c, s, i, missing);
    } else {
      var p, r := run[0].path, s.procs[i].istage.receipts;
      assert run[0] == Compensate(i, p);
      CompensatesOne(c, s, i, p, missing);
      var s' := Apply(c, s, run[0]);
      assert OnlyCompensates(run[1..], i);
      Compensates(c, s', i, run[1..], t, if r[p].created then missing + {p} else missing);
      FirstAndRest(run, r);
    }
  }

  lemma FirstAndRest(run: seq<Action>, receipts: map<Path, Receipt>)
    requires run != [] && run[0].Compensate? && run[0].path in receipts
    ensures !receipts[run[0].path].created ==>
              (TakesBackNothing(run, receipts) <==> TakesBackNothing(run[1..], Without(receipts, run[0].path)))
    ensures receipts[run[0].path].created ==> !TakesBackNothing(run, receipts)
  {
  }

  /** Compensation has come to its end only when each receipt had its turn. */
  lemma {:induction false} AllHadTheirTurn(c: Config, s: State, i: Pid, run: seq<Action>, t: State, p: Path)
    requires IsImport(s, i) && s.procs[i].istage.Failed? && p in s.procs[i].istage.receipts
    requires Run(c, s, run, t) && OnlyCompensates(run, i)
    requires IsImport(t, i) && t.procs[i].istage == Failed(map[])
    ensures exists n :: 0 <= n < |run| && run[n] == Compensate(i, p)
    decreases |run|
  {
    if run[0] != Compensate(i, p) {
      assert OnlyCompensates(run[1..], i);
      AllHadTheirTurn(c, Apply(c, s, run[0]), i, run[1..], t, p);
      var n :| 0 <= n < |run[1..]| && run[1..][n] == Compensate(i, p);
      assert run[n + 1] == Compensate(i, p);
    }
  }

  lemma LostState(c: Config, t: State, i: Pid, pin: PinId)
    requires Enabled(c, t, CommitPublished(i, pin))
    ensures var lost, y := CommitAnswerLost(c, t, i, pin), Apply(c, t, CommitPublished(i, pin));
            && lost.files == y.files == t.files && lost.db == y.db && lost.hist == y.hist
            && y.db.rows == t.db.rows + AssetPaths(t.procs[i].job.uuid)
            && IsImport(lost, i) && lost.procs[i].istage == Failed(t.procs[i].istage.receipts)
  {
  }

  /** What the import has on its receipts is in place and becomes rows. */
  lemma VerifiedReceipts(c: Config, t: State, i: Pid, p: Path)
    requires IsImport(t, i) && JobOk(t, i) && ReceiptsOk(c, t, i) && t.procs[i].istage.Verified? && p in t.procs[i].istage.receipts
    ensures p in AssetPaths(t.procs[i].job.uuid)
    ensures p in t.files.names && t.files.names[p] == t.procs[i].istage.receipts[p].inode
  {
    assert p == Path(t.procs[i].job.uuid, p.kind);
    match p.kind
    case Original =>
    case Thumbnail =>
    case Standard =>
    case Square =>
  }

  lemma RowsAfterCommit(c: Config, t: State, i: Pid, pin: PinId)
    requires Inv(c, t) && Enabled(c, t, CommitPublished(i, pin))
    ensures RowsImplyFiles(c, Apply(c, t, CommitPublished(i, pin)))
    ensures JobOk(t, i) && ReceiptsOk(c, t, i)
  {
    StepKeepsInv(c, t, CommitPublished(i, pin));
  }

  lemma LostAnswerAllThere(c: Config, t: State, i: Pid, pin: PinId)
    requires Inv(c, t) && Enabled(c, t, CommitPublished(i, pin))
    ensures AllBut(c, CommitAnswerLost(c, t, i, pin), i, {})
  {
    RowsAfterCommit(c, t, i, pin);
    LostIsAllBut(c, t, i, pin);
  }

  lemma LostIsAllBut(c: Config, t: State, i: Pid, pin: PinId)
    requires Enabled(c, t, CommitPublished(i, pin)) && JobOk(t, i) && ReceiptsOk(c, t, i)
    requires RowsImplyFiles(c, Apply(c, t, CommitPublished(i, pin)))
    ensures AllBut(c, CommitAnswerLost(c, t, i, pin), i, {})
  {
    LostState(c, t, i, pin);
    forall p | p in t.procs[i].istage.receipts
      ensures p in AssetPaths(t.procs[i].job.uuid) && p in t.files.names && t.files.names[p] == t.procs[i].istage.receipts[p].inode
    {
      VerifiedReceipts(c, t, i, p);
    }
  }

  /**
   After any part of the compensation that follows a lost answer, rows still
   imply files if and only if no file taken back so far was made by this import.
   */
  lemma LostCommitAnswer(c: Config, s: State, run: seq<Action>, t: State, i: Pid, pin: PinId, back: seq<Action>, u: State)
    requires Start(c, s) && Run(c, s, run, t) && Enabled(c, t, CommitPublished(i, pin))
    requires Run(c, CommitAnswerLost(c, t, i, pin), back, u) && OnlyCompensates(back, i)
    ensures RowsImplyFiles(c, u) <==> TakesBackNothing(back, t.procs[i].istage.receipts)
  {
    ReachableInv(c, s, run, t);
    LostAnswerAllThere(c, t, i, pin);
    Compensates(c, CommitAnswerLost(c, t, i, pin), i, back, u, {});
  }

  /** One receipt: the file of a committed row is lost exactly when the import had made it. */
  lemma LostCommitAnswerLosesAFile(c: Config, s: State, run: seq<Action>, t: State, i: Pid, pin: PinId, p: Path)
    requires Start(c, s) && Run(c, s, run, t) && Enabled(c, t, CommitPublished(i, pin))
    requires p in t.procs[i].istage.receipts
    ensures RowsImplyFiles(c, CompensateFile(CommitAnswerLost(c, t, i, pin), i, p)) <==> !t.procs[i].istage.receipts[p].created
  {
    ReachableInv(c, s, run, t);
    var lost := CommitAnswerLost(c, t, i, pin);
    LostAnswerAllThere(c, t, i, pin);
    LostState(c, t, i, pin);
    CompensatesHere(c, lost, i, p);
  }

  lemma CompensatesHere(c: Config, s: State, i: Pid, p: Path)
    requires AllBut(c, s, i, {}) && p in s.procs[i].istage.receipts
    ensures RowsImplyFiles(c, CompensateFile(s, i, p)) <==> !s.procs[i].istage.receipts[p].created
  {
  }

  /** The whole compensation: harmless exactly when all four files were there before the import. */
  lemma LostCommitAnswerInFull(c: Config, s: State, run: seq<Action>, t: State, i: Pid, pin: PinId, back: seq<Action>, u: State)
    requires Start(c, s) && Run(c, s, run, t) && Enabled(c, t, CommitPublished(i, pin))
    requires Run(c, CommitAnswerLost(c, t, i, pin), back, u) && OnlyCompensates(back, i)
    requires IsImport(u, i) && u.procs[i].istage == Failed(map[])
    ensures RowsImplyFiles(c, u) <==>
              forall p :: p in t.procs[i].istage.receipts ==> !t.procs[i].istage.receipts[p].created
  {
    LostCommitAnswer(c, s, run, t, i, pin, back, u);
    var r := t.procs[i].istage.receipts;
    forall p | p in r && r[p].created ensures !TakesBackNothing(back, r) {
      AllHadTheirTurn(c, CommitAnswerLost(c, t, i, pin), i, back, u, p);
    }
  }

  // ---------------------------------------------------------------- a reused asset

  /** The database applied a commit that reuses an asset, but the import saw it fail. */
  ghost function ReuseAnswerLost(c: Config, t: State, i: Pid, pin: PinId): State
    requires Enabled(c, t, CommitReuse(i, pin))
  {
    Become(Apply(c, t, CommitReuse(i, pin)), i, Import(t.procs[i].job, Failed(map[])))
  }

  lemma LocksFailing(c: Config, s: State, i: Pid)
    requires LockInv(c, s) && IsImport(s, i) && s.procs[i].istage.Committed?
    ensures LockInv(c, Become(s, i, Import(s.procs[i].job, Failed(map[]))))
  {
    var t := Become(s, i, Import(s.procs[i].job, Failed(map[])));
    forall j | j in t.procs ensures Protected(c, t, j) {
      assert Protected(c, s, j);
    }
  }

  lemma JobsFailing(c: Config, s: State, i: Pid)
    requires UuidInv(s) && IsImport(s, i) && s.procs[i].istage.Committed?
    requires s.procs[i].job.uuid !in s.db.assets && forall p :: p in s.db.rows ==> p.uuid != s.procs[i].job.uuid
    ensures UuidInv(Become(s, i, Import(s.procs[i].job, Failed(map[]))))
  {
    var t := Become(s, i, Import(s.procs[i].job, Failed(map[])));
    forall j | IsImport(t, j) ensures JobOk(t, j) {
      assert IsImport(s, j) && JobOk(s, j);
    }
    forall j, k | IsImport(t, j) && IsImport(t, k) && j != k ensures t.procs[j].job.uuid != t.procs[k].job.uuid {
      assert IsImport(s, j) && IsImport(s, k);
    }
  }

  lemma StagesFailing(c: Config, s: State, i: Pid)
    requires ReceiptInv(c, s) && WindowInv(c, s) && WorkerInv(s) && LegacyInv(s) && IsImport(s, i) && s.procs[i].istage.Committed?
    ensures var t := Become(s, i, Import(s.procs[i].job, Failed(map[])));
            ReceiptInv(c, t) && WindowInv(c, t) && WorkerInv(t) && LegacyInv(t)
  {
    var t := Become(s, i, Import(s.procs[i].job, Failed(map[])));
    forall j | IsImport(t, j) ensures ReceiptsOk(c, t, j) && WindowOk(c, t, j) {
      assert IsImport(s, j) && ReceiptsOk(c, s, j) && WindowOk(c, s, j);
    }
    assert forall j :: IsDeleting(t, j) ==> IsDeleting(s, j) && t.procs[j] == s.procs[j];
  }

  /** An import that published nothing under its uuid may be taken for failed. */
  lemma FailingKeepsInv(c: Config, s: State, i: Pid)
    requires Inv(c, s) && IsImport(s, i) && s.procs[i].istage.Committed?
    requires s.procs[i].job.uuid !in s.db.assets && forall p :: p in s.db.rows ==> p.uuid != s.procs[i].job.uuid
    ensures Inv(c, Become(s, i, Import(s.procs[i].job, Failed(map[]))))
  {
    LocksFailing(c, s, i);
    JobsFailing(c, s, i);
    StagesFailing(c, s, i);
    assert UploadInv(c, Become(s, i, Import(s.procs[i].job, Failed(map[])))) by {
      UploadsStay(c, s, Become(s, i, Import(s.procs[i].job, Failed(map[]))));
    }
  }

  lemma UploadsStay(c: Config, s: State, t: State)
    requires UploadInv(c, s) && t.db == s.db && t.files == s.files && t.hist == s.hist
    ensures UploadInv(c, t)
  {
    forall p | p in t.db.pins && p in t.hist.uploads ensures ShowsUpload(c, t, t.db.pins[p].image, t.hist.uploads[p]) {
      assert ShowsUpload(c, s, s.db.pins[p].image, s.hist.uploads[p]);
    }
  }

  lemma ReuseState(c: Config, t: State, i: Pid, pin: PinId)
    requires UuidInv(t) && Enabled(c, t, CommitReuse(i, pin))
    ensures var y := Apply(c, t, CommitReuse(i, pin));
            && IsImport(y, i) && y.procs[i] == Import(t.procs[i].job, Committed)
            && y.procs[i].job.uuid !in y.db.assets && forall p :: p in y.db.rows ==> p.uuid != y.procs[i].job.uuid
  {
    assert JobOk(t, i);
  }

  lemma ReuseInv(c: Config, t: State, i: Pid, pin: PinId)
    requires Inv(c, t) && Enabled(c, t, CommitReuse(i, pin))
    ensures Inv(c, Apply(c, t, CommitReuse(i, pin))) && UuidInv(t)
  {
    StepKeepsInv(c, t, CommitReuse(i, pin));
  }

  lemma FailedAfterReuse(c: Config, y: State, i: Pid, lost: State)
    requires Inv(c, y) && IsImport(y, i) && y.procs[i].istage.Committed?
    requires y.procs[i].job.uuid !in y.db.assets && forall p :: p in y.db.rows ==> p.uuid != y.procs[i].job.uuid
    requires lost == Become(y, i, Import(y.procs[i].job, Failed(map[])))
    ensures Inv(c, lost) && forall p :: !Enabled(c, lost, Compensate(i, p))
  {
    FailingKeepsInv(c, y, i);
  }

  /** A lost answer does no harm then: the whole invariant holds on, and there is nothing to take back. */
  lemma LostReuseAnswerIsHarmless(c: Config, s: State, run: seq<Action>, t: State, i: Pid, pin: PinId)
    requires Start(c, s) && Run(c, s, run, t) && Enabled(c, t, CommitReuse(i, pin))
    ensures Inv(c, ReuseAnswerLost(c, t, i, pin))
    ensures forall p :: !Enabled(c, ReuseAnswerLost(c, t, i, pin), Compensate(i, p))
  {
    ReachableInv(c, s, run, t);
    ReuseInv(c, t, i, pin);
    ReuseState(c, t, i, pin);
    FailedAfterReuse(c, Apply(c, t, CommitReuse(i, pin)), i, ReuseAnswerLost(c, t, i, pin));
  }
}
