/** An import that nothing disturbs reaches its commit, from any quiet store; so the hazard of a lost answer is real. */
module MediaProgress {
  import opened Wrappers
  import opened MediaStore
  import opened MediaInvariant
  import opened MediaTheorems
  import opened MediaInterference
  import opened MediaLostAnswer

  /** A user may import: nothing with this key is registered, and the identifiers are new. */
  ghost predicate MayImport(c: Config, s: State, job: Job) {
    && job.uuid !in s.hist.usedUuids
    && (forall p :: p in s.files.names ==> p.uuid != job.uuid)
    && (forall k: Kind :: job.staged.At(k) !in s.files.content)
    && (forall k: Kind, k': Kind :: k != k' ==> job.staged.At(k) != job.staged.At(k'))
    && (forall m :: m in s.db.assets ==> s.db.assets[m] != KeyOf(c, job))
  }

  /** The import alone in the store, at some stage, with the database as it was. */
  ghost predicate Alone(s: State, m: State, i: Pid, job: Job, stage: ImportStage) {
    m.procs == map[i := Import(job, stage)] && m.db == s.db && m.locks.exclusive.None?
    && m.hist.uploads == s.hist.uploads
  }

  /** The first `n` files are in place under receipts of their own, and no other name of the uuid exists. */
  ghost predicate InPlace(names: map<Path, Inode>, job: Job, n: nat, receipts: map<Path, Receipt>) {
    && n <= |KINDS|
    && (forall p :: p in receipts <==> p.uuid == job.uuid && p.kind in KINDS[..n])
    && (forall p :: p in names && p.uuid == job.uuid ==> p in receipts)
    && (forall p :: p in receipts ==>
          receipts[p] == Receipt(job.staged.At(p.kind), true) && p in names && names[p] == job.staged.At(p.kind))
  }

  ghost predicate Midway(s: State, m: State, i: Pid, job: Job, n: nat, receipts: map<Path, Receipt>) {
    Alone(s, m, i, job, Publishing(n, receipts)) && InPlace(m.files.names, job, n, receipts)
  }

  lemma TakesItsLocks(c: Config, s: State, i: Pid, job: Job) returns (run: seq<Action>, m: State)
    requires Start(c, s) && MayImport(c, s, job)
    ensures Run(c, s, run, m) && Alone(s, m, i, job, StripeHeld) && m.files.names == s.files.names
  {
    var prepare := Prepare(i, job.user, job.uuid, job.data, job.staged);
    var m1 := Apply(c, s, prepare);
    RunThen(c, s, [], s, prepare);
    m := Apply(c, m1, TakeStripe(i));
    RunThen(c, s, [] + [prepare], m1, TakeStripe(i));
    run := [] + [prepare] + [TakeStripe(i)];
  }

  lemma EntersTransaction(c: Config, s: State, m: State, i: Pid, job: Job)
    requires Alone(s, m, i, job, StripeHeld)
    ensures Enabled(c, m, TakeShared(i))
    ensures Alone(s, Apply(c, m, TakeShared(i)), i, job, InTransaction)
    ensures Apply(c, m, TakeShared(i)).files == m.files
  {
  }

  lemma FindsNothing(c: Config, s: State, m: State, i: Pid, job: Job)
    requires Alone(s, m, i, job, InTransaction) && MayImport(c, s, job) && m.files.names == s.files.names
    ensures Enabled(c, m, FindNone(i)) && Midway(s, Apply(c, m, FindNone(i)), i, job, 0, map[])
  {
  }

  lemma StartsImport(c: Config, s: State, i: Pid, job: Job) returns (run: seq<Action>, m: State)
    requires Start(c, s) && MayImport(c, s, job)
    ensures Run(c, s, run, m) && Midway(s, m, i, job, 0, map[])
  {
    var run0, m0 := TakesItsLocks(c, s, i, job);
    EntersTransaction(c, s, m0, i, job);
    RunThen(c, s, run0, m0, TakeShared(i));
    var m1 := Apply(c, m0, TakeShared(i));
    FindsNothing(c, s, m1, i, job);
    RunThen(c, s, run0 + [TakeShared(i)], m1, FindNone(i));
    run, m := run0 + [TakeShared(i)] + [FindNone(i)], Apply(c, m1, FindNone(i));
  }

  function WithReceipt(receipts: map<Path, Receipt>, job: Job, k: Kind): map<Path, Receipt> {
    receipts[Path(job.uuid, k) := Receipt(job.staged.At(k), true)]
  }

  lemma OneMoreInPlace(names: map<Path, Inode>, job: Job, n: nat, receipts: map<Path, Receipt>)
    requires InPlace(names, job, n, receipts) && n < |KINDS|
    ensures Path(job.uuid, KINDS[n]) !in names
    ensures InPlace(names[Path(job.uuid, KINDS[n]) := job.staged.At(KINDS[n])], job, n + 1, WithReceipt(receipts, job, KINDS[n]))
  {
    assert KINDS[n] !in KINDS[..n];
    assert KINDS[..n + 1] == KINDS[..n] + [KINDS[n]];
  }

  lemma PublishesNext(c: Config, s: State, m: State, i: Pid, job: Job, n: nat, receipts: map<Path, Receipt>)
    requires Alone(s, m, i, job, Publishing(n, receipts)) && n < |KINDS|
    requires Path(job.uuid, KINDS[n]) !in m.files.names
    ensures Enabled(c, m, PublishOne(i))
    ensures var m' := Apply(c, m, PublishOne(i));
            && m'.files.names == m.files.names[Path(job.uuid, KINDS[n]) := job.staged.At(KINDS[n])]
            && Alone(s, m', i, job, Publishing(n + 1, WithReceipt(receipts, job, KINDS[n])))
  {
  }

  lemma {:induction false} PublishesAll(c: Config, s: State, run: seq<Action>, m: State, i: Pid, job: Job,
                                        n: nat, receipts: map<Path, Receipt>)
    returns (run': seq<Action>, m': State, all: map<Path, Receipt>)
    requires Run(c, s, run, m) && Midway(s, m, i, job, n, receipts)
    ensures Run(c, s, run', m') && Midway(s, m', i, job, |KINDS|, all)
    decreases |KINDS| - n
  {
    if n == |KINDS| {
      return run, m, receipts;
    }
    OneMoreInPlace(m.files.names, job, n, receipts);
    PublishesNext(c, s, m, i, job, n, receipts);
    RunThen(c, s, run, m, PublishOne(i));
    run', m', all := PublishesAll(c, s, run + [PublishOne(i)], Apply(c, m, PublishOne(i)), i, job, n + 1,
                                  WithReceipt(receipts, job, KINDS[n]));
  }

  lemma AllInPlace(names: map<Path, Inode>, job: Job, all: map<Path, Receipt>)
    requires InPlace(names, job, |KINDS|, all)
    ensures forall p :: p in AssetPaths(job.uuid) ==> p in all && all[p] == Receipt(job.staged.At(p.kind), true)
    ensures forall p :: p in all ==> p in names && names[p] == all[p].inode
  {
    assert KINDS[..|KINDS|] == KINDS;
    assert KINDS[0] == Original && KINDS[1] == Thumbnail && KINDS[2] == Standard && KINDS[3] == Square;
  }

  lemma Verifies(c: Config, s: State, m: State, i: Pid, job: Job, all: map<Path, Receipt>)
    requires Alone(s, m, i, job, Publishing(|KINDS|, all))
    requires forall p :: p in all ==> p in m.files.names && m.files.names[p] == all[p].inode
    ensures Enabled(c, m, VerifyPublished(i))
    ensures Alone(s, Apply(c, m, VerifyPublished(i)), i, job, Verified(all))
  {
  }

  /**
   From any quiet store an import whose key is not registered reaches its commit:
   its four files are in place, all made by itself, and any new Pin id will do.
   */
  lemma ImportsReachTheirCommit(c: Config, s: State, i: Pid, job: Job, pin: PinId)
    returns (run: seq<Action>, t: State, receipts: map<Path, Receipt>)
    requires Start(c, s) && MayImport(c, s, job) && pin !in s.db.pins
    ensures Run(c, s, run, t) && Alone(s, t, i, job, Verified(receipts)) && Enabled(c, t, CommitPublished(i, pin))
    ensures forall p :: p in AssetPaths(job.uuid) ==>
              p in receipts && receipts[p] == Receipt(job.staged.At(p.kind), true)
  {
    var run0, m0 := StartsImport(c, s, i, job);
    var run1, m;
    run1, m, receipts := PublishesAll(c, s, run0, m0, i, job, 0, map[]);
    AllInPlace(m.files.names, job, receipts);
    Verifies(c, s, m, i, job, receipts);
    RunThen(c, s, run1, m, VerifyPublished(i));
    run, t := run1 + [VerifyPublished(i)], Apply(c, m, VerifyPublished(i));
  }

  /** So a lost answer can cost a committed row its file, in any quiet store and for any new upload. */
  lemma ALostAnswerCanHappen(c: Config, s: State, i: Pid, job: Job, pin: PinId)
    returns (run: seq<Action>, t: State)
    requires Start(c, s) && MayImport(c, s, job) && pin !in s.db.pins
    ensures Run(c, s, run, t) && Enabled(c, t, CommitPublished(i, pin))
    ensures var p := Path(t.procs[i].job.uuid, Original);
            p in t.procs[i].istage.receipts && !RowsImplyFiles(c, CompensateFile(CommitAnswerLost(c, t, i, pin), i, p))
  {
    var receipts;
    run, t, receipts := ImportsReachTheirCommit(c, s, i, job, pin);
    LostCommitAnswerLosesAFile(c, s, run, t, i, pin, Path(job.uuid, Original));
  }
}
