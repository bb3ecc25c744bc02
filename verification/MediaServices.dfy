/**
 The services over the media store, written as the source writes them, with
 other processes running between any two of their steps. Every execution of
 these methods is a run of the transition system of `MediaStore`.
 */
module MediaServices {
  import opened Wrappers
  import opened MediaStore
  import opened MediaInvariant
  import opened MediaSteps
  import opened MediaTheorems
  import opened MediaInterference

  const TIMEOUT := "processing_timeout"
  const CONFLICT := "media_conflict"

  /** Some steps of other processes lead from `s` to `t`. */
  ghost predicate OthersMayReach(c: Config, i: Pid, s: State, t: State) {
    exists run :: Run(c, s, run, t) && NoneBy(run, i)
  }

  ghost predicate OthersAct(c: Config, others: (Pid, nat, State) -> State) {
    forall i, n, s :: OthersMayReach(c, i, s, others(i, n, s))
  }

  /** A sequence never gives out the id of a Pin that exists or that an import ever made. */
  ghost predicate FreshPins(newPin: State -> PinId) {
    forall s :: newPin(s) !in s.db.pins && newPin(s) !in s.hist.uploads
  }

  /** The names under a uuid are old ones, and those that the import made itself. */
  ghost predicate Added(before: map<Path, Inode>, after: map<Path, Inode>, uuid: Uuid, receipts: map<Path, Receipt>) {
    forall p :: p in after && p.uuid == uuid ==>
      (p in before && before[p] == after[p]) || (p in receipts && receipts[p] == Receipt(after[p], true))
  }

  /** Without what is on the receipts as made here, the names are the old ones. */
  ghost predicate Restores(before: map<Path, Inode>, after: map<Path, Inode>, receipts: map<Path, Receipt>) {
    && (forall p :: p in receipts && receipts[p].created ==> p !in before && p in after && after[p] == receipts[p].inode)
    && (forall p :: p in before ==> p in after && after[p] == before[p])
    && (forall p :: p in after && p !in before ==> p in receipts && receipts[p].created)
  }

  /** The asset that this upload is registered as. */
  function AssetOf(c: Config, job: Job): Asset {
    Asset(job.user, c.sha(job.data.original))
  }

  /** The stripe of the upload's key is free, and nobody has the lifecycle lock exclusively. */
  predicate MayEnter(c: Config, locks: Locks, job: Job) {
    c.stripe(job.user, c.sha(job.data.original)) !in locks.stripes && locks.exclusive.None?
  }

  ghost predicate Unregistered(c: Config, db: Db, job: Job) {
    forall m :: m in db.assets ==> db.assets[m] != AssetOf(c, job)
  }

  /** The image is registered for this user and digest, with all its rows, and its files are this very upload. */
  ghost predicate Matches(c: Config, db: Db, files: Files, job: Job, image: Uuid) {
    && image in db.assets && db.assets[image] == AssetOf(c, job)
    && (forall k: Kind :: Path(image, k) in db.rows && HasBytes(files, Path(image, k), job.data.At(k)))
  }

  /** The name for this file is free, or its bytes have the upload's digest. */
  predicate Fits(c: Config, files: Files, job: Job, k: Kind) {
    Path(job.uuid, k) in files.names ==> HasDigest(c, files, Path(job.uuid, k), c.sha(job.data.At(k)))
  }

  /** The files can be referred to: those of a registered image, or new ones under the import's own uuid. */
  ghost predicate Servable(c: Config, db: Db, files: Files, job: Job) {
    || (exists image :: Matches(c, db, files, job, image))
    || (Unregistered(c, db, job) && forall k: Kind :: Fits(c, files, job, k))
  }

  /** One new Pin of the user: on the registered image, or on a new one with its four rows and its asset. */
  ghost predicate Imported(c: Config, before: Db, after: Db, job: Job, pin: PinId) {
    && pin !in before.pins && pin in after.pins && after.pins[pin].owner == job.user
    && after.pins == before.pins[pin := after.pins[pin]] && after.pending == before.pending
    && var image := after.pins[pin].image;
       if Unregistered(c, before, job)
       then image == job.uuid && after.assets == before.assets[image := AssetOf(c, job)]
            && forall p :: p in after.rows <==> p in before.rows || p.uuid == image
       else image in before.assets && before.assets[image] == AssetOf(c, job)
            && after.assets == before.assets && after.rows == before.rows
  }

  lemma NewIsImported(c: Config, db: Db, job: Job, pin: PinId)
    requires Unregistered(c, db, job) && pin !in db.pins
    ensures Imported(c, db, InsertRows(c, db, job, pin), job, pin)
  {
    forall p ensures p in AssetPaths(job.uuid) <==> p.uuid == job.uuid {
      assert p == Path(p.uuid, p.kind);
      assert p.kind == Original || p.kind == Thumbnail || p.kind == Standard || p.kind == Square;
    }
  }

  lemma ReusedIsImported(c: Config, db: Db, job: Job, pin: PinId, image: Uuid)
    requires image in db.assets && db.assets[image] == AssetOf(c, job) && pin !in db.pins
    ensures Imported(c, db, db.(pins := db.pins[pin := PinRow(job.user, image)]), job, pin)
  {
  }

  lemma NoMatch(c: Config, db: Db, files: Files, job: Job)
    requires Unregistered(c, db, job)
    ensures forall image :: !Matches(c, db, files, job, image)
  {
  }

  predicate ImportedOne(before: seq<Action>, after: seq<Action>, i: Pid, pin: PinId) {
    after == before + [CommitPublished(i, pin)] || after == before + [CommitReuse(i, pin)]
  }

  lemma OthersRun(c: Config, i: Pid, s: State, run: seq<Action>, m: State, t: State) returns (more: seq<Action>)
    requires Start(c, s) && Run(c, s, run, m) && OthersMayReach(c, i, m, t)
    ensures Run(c, s, run + more, t) && Kept(m, t, i) && Effects(run + more, i) == Effects(run, i)
    ensures Holds(t, i) == Holds(m, i)
  {
    more :| Run(c, m, more, t) && NoneBy(more, i);
    ReachableInv(c, s, run, m);
    OthersKeep(c, m, more, t, i);
    RunOn(c, s, run, m, more, t);
    EffectsOfOthers(run, more, i);
    HoldsKept(m, t, i);
  }

  lemma ReuseStep(c: Config, s: State, i: Pid, image: Uuid)
    requires IsImport(s, i) && s.procs[i].istage.InTransaction?
    requires image in s.db.assets && s.db.assets[image] == KeyOf(c, s.procs[i].job) && AssetPaths(image) <= s.db.rows
    requires forall n :: 0 <= n < |KINDS| ==> HasBytes(s.files, Path(image, KINDS[n]), s.procs[i].job.data.At(KINDS[n]))
    ensures Enabled(c, s, FindReusable(i, image))
  {
    assert KINDS[0] == Original && KINDS[1] == Thumbnail && KINDS[2] == Standard && KINDS[3] == Square;
  }

  /** Row by row and file by file is all of them. */
  lemma AllKinds(c: Config, db: Db, files: Files, job: Job, image: Uuid)
    requires image in db.assets && db.assets[image] == AssetOf(c, job)
    ensures Matches(c, db, files, job, image) <==>
              && AssetPaths(image) <= db.rows
              && forall n :: 0 <= n < |KINDS| ==> HasBytes(files, Path(image, KINDS[n]), job.data.At(KINDS[n]))
  {
    EveryKind();
    forall k: Kind ensures Path(image, k) in AssetPaths(image) {
      assert k == Original || k == Thumbnail || k == Standard || k == Square;
    }
    if forall n :: 0 <= n < |KINDS| ==> HasBytes(files, Path(image, KINDS[n]), job.data.At(KINDS[n])) {
      forall k: Kind ensures HasBytes(files, Path(image, k), job.data.At(k)) {
        assert k in KINDS;
        var n :| 0 <= n < |KINDS| && KINDS[n] == k;
      }
    }
  }

  lemma EveryKind()
    ensures forall k: Kind :: k in KINDS
    ensures forall m, n :: 0 <= m < n < |KINDS| ==> KINDS[m] != KINDS[n]
  {
    assert KINDS[0] == Original && KINDS[1] == Thumbnail && KINDS[2] == Standard && KINDS[3] == Square;
    forall k: Kind ensures k in KINDS {
      assert k == Original || k == Thumbnail || k == Standard || k == Square;
    }
  }

  lemma AllFit(c: Config, files: Files, job: Job)
    ensures (forall k: Kind :: Fits(c, files, job, k)) <==> (forall n :: 0 <= n < |KINDS| ==> Fits(c, files, job, KINDS[n]))
  {
    EveryKind();
    if forall n :: 0 <= n < |KINDS| ==> Fits(c, files, job, KINDS[n]) {
      forall k: Kind ensures Fits(c, files, job, k) {
        assert k in KINDS;
        var n :| 0 <= n < |KINDS| && KINDS[n] == k;
      }
    }
  }

  /** What publishing the next file does to the names. */
  function Linked(f: Files, p: Path, n: Inode): Files {
    if p in f.names then f else f.(names := f.names[p := n])
  }

  lemma PublishStep(c: Config, s: State, i: Pid)
    requires IsImport(s, i)
    requires s.procs[i].istage.Publishing? && s.procs[i].istage.count < |KINDS|
    requires var p := NextPath(s, i);
             p in s.files.names ==> HasDigest(c, s.files, p, c.sha(s.procs[i].job.data.At(p.kind)))
    ensures var job, st, p, r := s.procs[i].job, s.procs[i].istage, NextPath(s, i), PublishReceipt(s, i);
            && Enabled(c, s, PublishOne(i))
            && Apply(c, s, PublishOne(i)) ==
               s.(files := Linked(s.files, p, r.inode),
                  procs := s.procs[i := Import(job, Publishing(st.count + 1, st.receipts[p := r]))])
  {
  }

  lemma VerifyStep(c: Config, s: State, i: Pid)
    requires IsImport(s, i) && s.procs[i].istage.Publishing? && s.procs[i].istage.count == |KINDS|
    requires var r := s.procs[i].istage.receipts;
             forall p :: p in r ==> p in s.files.names && s.files.names[p] == r[p].inode
    ensures Enabled(c, s, VerifyPublished(i))
    ensures Apply(c, s, VerifyPublished(i)) ==
            s.(procs := s.procs[i := Import(s.procs[i].job, Verified(s.procs[i].istage.receipts))])
  {
  }

  /** Nobody touches what an import has published. */
  lemma ReceiptsHold(c: Config, start: State, run: seq<Action>, s: State, i: Pid)
    requires Start(c, start) && Run(c, start, run, s) && IsImport(s, i) && s.procs[i].istage.Publishing?
    ensures forall p :: p in s.procs[i].istage.receipts ==>
              p in s.files.names && s.files.names[p] == s.procs[i].istage.receipts[p].inode
  {
    ReachableInv(c, start, run, s);
    ReceiptsInPlace(c, s, i);
  }

  lemma ReceiptsInPlace(c: Config, s: State, i: Pid)
    requires ReceiptInv(c, s) && IsImport(s, i) && s.procs[i].istage.Publishing?
    ensures forall p :: p in s.procs[i].istage.receipts ==>
              p in s.files.names && s.files.names[p] == s.procs[i].istage.receipts[p].inode
  {
    assert ReceiptsOk(c, s, i);
    assert ReceiptsOf(s.procs[i].istage) == s.procs[i].istage.receipts;
  }

  /** The receipts of the first files only. */
  ghost predicate Counted(st: ImportStage) {
    st.Publishing? ==> st.count <= |KINDS| && forall p :: p in st.receipts ==> p.kind in KINDS[..st.count]
  }

  lemma CountsOne(st: ImportStage, p: Path, r: Receipt)
    requires st.Publishing? && Counted(st) && st.count < |KINDS| && p.kind == KINDS[st.count]
    ensures p !in st.receipts && Counted(Publishing(st.count + 1, st.receipts[p := r]))
  {
    assert KINDS[st.count] !in KINDS[..st.count];
    assert KINDS[..st.count + 1] == KINDS[..st.count] + [KINDS[st.count]];
  }

  lemma AddsOne(before: map<Path, Inode>, f: Files, uuid: Uuid, receipts: map<Path, Receipt>, p: Path, r: Receipt)
    requires Added(before, f.names, uuid, receipts) && p.uuid == uuid
    requires if p in f.names then r == Receipt(f.names[p], false) && p !in receipts else r.created
    ensures Added(before, Linked(f, p, r.inode).names, uuid, receipts[p := r])
    ensures Restores(before, f.names, receipts) && p !in receipts ==>
              Restores(before, Linked(f, p, r.inode).names, receipts[p := r])
  {
  }

  lemma AllBack(before: map<Path, Inode>, after: map<Path, Inode>, uuid: Uuid)
    requires Added(before, after, uuid, map[])
    ensures OnlyFewer(before, after, uuid)
    ensures Restores(before, after, map[]) ==> after == before
  {
  }

  lemma NothingMade(names: map<Path, Inode>)
    ensures forall uuid :: Added(names, names, uuid, map[])
    ensures Restores(names, names, map[])
  {
  }

  function Unlinked(f: Files, p: Path, r: Receipt): Files {
    if r.created && p in f.names && f.names[p] == r.inode then f.(names := Without(f.names, p)) else f
  }

  lemma TakesBackOne(before: map<Path, Inode>, f: Files, uuid: Uuid, receipts: map<Path, Receipt>, p: Path)
    requires Added(before, f.names, uuid, receipts) && p in receipts
    ensures Added(before, Unlinked(f, p, receipts[p]).names, uuid, Without(receipts, p))
    ensures Restores(before, f.names, receipts) ==>
              Restores(before, Unlinked(f, p, receipts[p]).names, Without(receipts, p))
  {
  }

  class MediaServer {
    const c: Config
    /** What the others do at the n-th chance they get, whether the n-th check fails, and the ids of new Pins. */
    const others: (Pid, nat, State) -> State
    const fails: nat -> bool
    const newPin: State -> PinId

    var db: Db
    var files: Files
    var locks: Locks
    var procs: map<Pid, Proc>
    var hist: History
    var ticks: nat

    ghost const start: State
    ghost var run: seq<Action>

    constructor (c: Config, s: State, others: (Pid, nat, State) -> State, fails: nat -> bool, newPin: State -> PinId)
      requires Start(c, s) && OthersAct(c, others) && FreshPins(newPin)
      ensures Valid() && Abs() == s && run == []
      ensures this.c == c && this.others == others && this.fails == fails && this.newPin == newPin && start == s
    {
      this.c, this.others, this.fails, this.newPin, start := c, others, fails, newPin, s;
      db, files, locks, procs, hist := s.db, s.files, s.locks, s.procs, s.hist;
      ticks, run := 0, [];
    }

    function Abs(): State
      reads this
    {
      State(db, files, locks, procs, hist)
    }

    ghost predicate Lawful() {
      OthersAct(c, others) && FreshPins(newPin)
    }

    /** Nobody else does anything, and no check fails. */
    ghost predicate Quiet() {
      (forall i, n, s :: others(i, n, s) == s) && forall n :: !fails(n)
    }

    /** None of the checks after the first `from` ones and up to `to` failed. */
    ghost predicate Passed(from: nat, to: nat) {
      forall n :: from < n <= to ==> !fails(n)
    }

    /** All that happened so far is a run from a quiet store. */
    ghost predicate Valid()
      reads this
    {
      Lawful() && Start(c, start) && Run(c, start, run, Abs())
    }

    lemma ValidInv()
      requires Valid()
      ensures Inv(c, Abs())
    {
      ReachableInv(c, start, run, Abs());
    }

    /** The fields now hold what step `a` makes of `before`. */
    ghost method Log(before: State, a: Action, i: Pid)
      requires Lawful() && Start(c, start) && Run(c, start, run, before) && !Writes(a)
      requires Enabled(c, before, a) && Abs() == Apply(c, before, a)
      modifies this`run
      ensures Valid() && Effects(run, i) == Effects(old(run), i)
    {
      RunThen(c, start, run, before, a);
      EffectsThen(run, a, i);
      run := run + [a];
    }

    ghost method LogWrite(before: State, a: Action, i: Pid)
      requires Lawful() && Start(c, start) && Run(c, start, run, before) && Writes(a) && a.i == i
      requires Enabled(c, before, a) && Abs() == Apply(c, before, a)
      modifies this`run
      ensures Valid() && Effects(run, i) == Effects(old(run), i) + [a]
    {
      RunThen(c, start, run, before, a);
      EffectsThen(run, a, i);
      run := run + [a];
    }

    /** Other processes run here, and then the deadline is checked. */
    method Yield(i: Pid) returns (failed: bool)
      requires Valid()
      modifies this
      ensures Valid() && Kept(old(Abs()), Abs(), i) && Effects(run, i) == Effects(old(run), i)
      ensures Holds(Abs(), i) == old(Holds(Abs(), i))
      ensures ticks == old(ticks) + 1 && failed == fails(ticks)
      ensures Quiet() ==> Abs() == old(Abs()) && !failed
    {
      hide Kept, Holds, Effects, Run, Start, OthersMayReach, FreshPins;
      var t := others(i, ticks, Abs());
      ghost var more := OthersRun(c, i, start, run, Abs(), t);
      db, files, locks, procs, hist := t.db, t.files, t.locks, t.procs, t.hist;
      run := run + more;
      ticks := ticks + 1;
      failed := fails(ticks);
    }

    // ---------------------------------------------------------------- importing

    predicate At(i: Pid, p: Proc)
      reads this
    {
      i in procs && procs[i] == p
    }

    predicate Importing(i: Pid, job: Job)
      reads this
    {
      IsImport(Abs(), i) && procs[i].job == job
    }

    function Stage(i: Pid): ImportStage
      requires IsImport(Abs(), i)
      reads this
    {
      procs[i].istage
    }

    /** Nothing under the import's uuid is new but what is on its receipts. */
    ghost predicate Clean(i: Pid, job: Job, names: map<Path, Inode>)
      reads this
    {
      && Importing(i, job) && Counted(Stage(i)) && Added(names, files.names, job.uuid, ReceiptsOf(Stage(i)))
      && (Quiet() ==> Restores(names, files.names, ReceiptsOf(Stage(i))))
    }

    method TakeStripe(i: Pid, job: Job) returns (ok: bool)
      requires Valid() && Importing(i, job) && Stage(i).Staged?
      modifies this`locks, this`procs, this`run
      ensures Valid() && Importing(i, job) && Effects(run, i) == Effects(old(run), i)
      ensures Stage(i) == if ok then StripeHeld else Staged
      ensures ok <==> StripeOf(c, KeyOf(c, job)) !in old(locks).stripes
      ensures locks.exclusive == old(locks).exclusive
    {
      var k := StripeOf(c, KeyOf(c, job));
      ok := k !in locks.stripes;
      if ok {
        ghost var before := Abs();
        locks := locks.(stripes := locks.stripes[k := i]);
        procs := procs[i := Import(job, StripeHeld)];
        Log(before, Action.TakeStripe(i), i);
      }
    }

    method TakeShared(i: Pid, job: Job) returns (ok: bool)
      requires Valid() && Importing(i, job) && Stage(i).StripeHeld?
      modifies this`locks, this`procs, this`run
      ensures Valid() && Importing(i, job) && Effects(run, i) == Effects(old(run), i)
      ensures Stage(i) == if ok then InTransaction else StripeHeld
      ensures ok <==> old(locks).exclusive.None?
    {
      ok := locks.exclusive.None?;
      if ok {
        ghost var before := Abs();
        locks := locks.(shared := locks.shared + {i});
        procs := procs[i := Import(job, InTransaction)];
        Log(before, Action.TakeShared(i), i);
      }
    }

    /** The transaction is rolled back: nothing it inserted was ever visible. */
    method Abort(i: Pid, job: Job)
      requires Valid() && Importing(i, job) && Uncommitted(Stage(i)) && !Stage(i).Failed?
      modifies this`procs, this`run
      ensures Valid() && Importing(i, job) && Effects(run, i) == Effects(old(run), i)
      ensures Stage(i) == Failed(ReceiptsOf(old(Stage(i))))
    {
      ghost var before := Abs();
      procs := procs[i := Import(job, Failed(ReceiptsOf(Stage(i))))];
      Log(before, Action.Abort(i), i);
    }

    /** A chance for the others, and what they leave of the import. */
    method Pause(i: Pid, job: Job, ghost names: map<Path, Inode>) returns (failed: bool)
      requires Valid() && Clean(i, job, names)
      modifies this
      ensures Valid() && Clean(i, job, names) && Effects(run, i) == Effects(old(run), i)
      ensures Stage(i) == old(Stage(i)) && Holds(Abs(), i) == old(Holds(Abs(), i))
      ensures ticks == old(ticks) + 1 && failed == fails(ticks)
      ensures Quiet() ==> !failed && db == old(db) && files == old(files) && locks == old(locks)
    {
      hide Valid, Quiet, Restores, Counted, Holds;
      failed := Yield(i);
    }

    /** Takes the dedup stripe and then the shared lifecycle lock. */
    method Enter(i: Pid, job: Job, ghost names: map<Path, Inode>) returns (ok: bool)
      requires Valid() && Clean(i, job, names) && Stage(i).Staged?
      modifies this
      ensures Valid() && Clean(i, job, names) && Effects(run, i) == Effects(old(run), i)
      ensures Stage(i) == if ok then InTransaction else Failed(map[])
      ensures ok ==> ticks == old(ticks) + 2 && Passed(old(ticks), ticks)
      ensures Quiet() ==> db == old(db) && files == old(files) && (ok <==> MayEnter(c, old(locks), job))
    {
      hide Valid, Quiet, Restores, Added;
      var failed := Pause(i, job, names);
      ok := false;
      if !failed {
        ok := TakeStripe(i, job);
      }
      if ok {
        failed := Pause(i, job, names);
        ok := false;
        if !failed {
          ok := TakeShared(i, job);
        }
      }
      if !ok {
        Abort(i, job);
      }
    }

    lemma KeysDiffer()
      requires Valid()
      ensures KeysUnique(db)
    {
      ValidInv();
    }

    /** The asset registered for this user and digest, if its files are this very upload. */
    method FindReusable(i: Pid, job: Job) returns (r: Result<Option<Uuid>, string>)
      requires Valid() && Importing(i, job) && Stage(i).InTransaction?
      modifies this`procs, this`run
      ensures Valid() && Importing(i, job) && Effects(run, i) == Effects(old(run), i)
      ensures r.Ok? ==> Stage(i) == if r.value.Some? then Reusing(r.value.value) else Publishing(0, map[])
      ensures r.Err? ==> Stage(i).InTransaction? && r.error == CONFLICT
      ensures r.Ok? && r.value.Some? ==> Matches(c, db, files, job, r.value.value)
      ensures r.Ok? && r.value.None? <==> Unregistered(c, db, job)
      ensures r.Err? ==> forall image :: !Matches(c, db, files, job, image)
    {
      KeysDiffer();
      if image :| image in db.assets && db.assets[image] == KeyOf(c, job) {
        var same := VerifyReusable(i, job, image);
        r := if same then Ok(Some(image)) else Err(CONFLICT);
      } else {
        ghost var before := Abs();
        procs := procs[i := Import(job, Publishing(0, map[]))];
        Log(before, FindNone(i), i);
        r := Ok(None);
      }
    }

    /** Compares rows and bytes with the upload, one file after the other. */
    method VerifyReusable(i: Pid, job: Job, image: Uuid) returns (same: bool)
      requires Valid() && Importing(i, job) && Stage(i).InTransaction?
      requires image in db.assets && db.assets[image] == KeyOf(c, job)
      modifies this`procs, this`run
      ensures Valid() && Importing(i, job) && Effects(run, i) == Effects(old(run), i)
      ensures Stage(i) == if same then Reusing(image) else InTransaction
      ensures same <==> Matches(c, db, files, job, image)
    {
      same := AssetPaths(image) <= db.rows;
      for n := 0 to |KINDS|
        invariant same <==> AssetPaths(image) <= db.rows
                            && forall k :: 0 <= k < n ==> HasBytes(files, Path(image, KINDS[k]), job.data.At(KINDS[k]))
      {
        same := same && HasBytes(files, Path(image, KINDS[n]), job.data.At(KINDS[n]));
      }
      AllKinds(c, db, files, job, image);
      if same {
        ReuseStep(c, Abs(), i, image);
        ghost var before := Abs();
        procs := procs[i := Import(job, Reusing(image))];
        Log(before, Action.FindReusable(i, image), i);
      }
    }

    lemma NamesHaveContent()
      requires Valid()
      ensures forall p :: p in files.names ==> files.names[p] in files.content
    {
      ValidInv();
    }

    /** Links the next file, or finds the same bytes under its name. */
    method PublishOne(i: Pid, job: Job, ghost names: map<Path, Inode>) returns (ok: bool)
      requires Valid() && Clean(i, job, names) && Stage(i).Publishing? && Stage(i).count < |KINDS|
      modifies this`files, this`procs, this`run
      ensures Valid() && Clean(i, job, names) && Effects(run, i) == Effects(old(run), i)
      ensures Stage(i).Publishing? && Stage(i).count == old(Stage(i)).count + if ok then 1 else 0
      ensures ok <==> Fits(c, old(files), job, KINDS[old(Stage(i)).count])
      ensures forall k: Kind :: k != KINDS[old(Stage(i)).count] ==>
                (Fits(c, files, job, k) <==> Fits(c, old(files), job, k))
    {
      hide Valid, Quiet, Restores, Added;
      var stage, p, receipt := Stage(i), NextPath(Abs(), i), PublishReceipt(Abs(), i);
      NamesHaveContent();
      if p in files.names && c.sha(files.content[files.names[p]]) != c.sha(job.data.At(p.kind)) {
        return false;
      }
      CountsOne(stage, p, receipt);
      AddsOne(names, files, job.uuid, stage.receipts, p, receipt);
      LinkNext(i, job, stage, p, receipt);
      ok := true;
    }

    method LinkNext(i: Pid, job: Job, stage: ImportStage, p: Path, receipt: Receipt)
      requires Valid() && Importing(i, job) && Stage(i) == stage && stage.Publishing? && stage.count < |KINDS|
      requires p == NextPath(Abs(), i) && receipt == PublishReceipt(Abs(), i)
      requires p in files.names ==> HasDigest(c, files, p, c.sha(job.data.At(p.kind)))
      modifies this`files, this`procs, this`run
      ensures Valid() && Importing(i, job) && files == Linked(old(files), p, receipt.inode)
      ensures Stage(i) == Publishing(stage.count + 1, stage.receipts[p := receipt])
      ensures Effects(run, i) == Effects(old(run), i)
    {
      ghost var before := Abs();
      PublishStep(c, before, i);
      files := Linked(files, p, receipt.inode);
      procs := procs[i := Import(job, Publishing(stage.count + 1, stage.receipts[p := receipt]))];
      Log(before, Action.PublishOne(i), i);
    }

    /** Every receipt still describes what is on disk, or the import fails. */
    method VerifyPublished(i: Pid, job: Job, ghost names: map<Path, Inode>) returns (ok: bool)
      requires Valid() && Clean(i, job, names) && Stage(i).Publishing? && Stage(i).count == |KINDS|
      modifies this`procs, this`run
      ensures Valid() && Clean(i, job, names) && Effects(run, i) == Effects(old(run), i)
      ensures ok && Stage(i).Verified?
    {
      hide Restores, Added;
      ghost var s, r := Abs(), run;
      var receipts := Stage(i).receipts;
      ok := forall p :: p in receipts ==> p in files.names && files.names[p] == receipts[p].inode;
      if ok {
        MarkVerified(i, job, receipts);
      } else {
        Abort(i, job);
      }
      ReceiptsHold(c, start, r, s, i);
    }

    method MarkVerified(i: Pid, job: Job, receipts: map<Path, Receipt>)
      requires Valid() && Importing(i, job) && Stage(i) == Publishing(|KINDS|, receipts)
      requires forall p :: p in receipts ==> p in files.names && files.names[p] == receipts[p].inode
      modifies this`procs, this`run
      ensures Valid() && Importing(i, job) && Stage(i) == Verified(receipts)
      ensures Effects(run, i) == Effects(old(run), i)
    {
      VerifyStep(c, Abs(), i);
      ghost var before := Abs();
      procs := procs[i := Import(job, Verified(receipts))];
      Log(before, Action.VerifyPublished(i), i);
    }

    /** What the import has found in the registry is still so. */
    lemma WindowMeans(i: Pid, job: Job)
      requires Valid() && Importing(i, job) && (Stage(i).Verified? || Stage(i).Reusing?)
      ensures Stage(i).Verified? ==> Unregistered(c, db, job)
      ensures Stage(i).Reusing? ==> Stage(i).image in db.assets && db.assets[Stage(i).image] == AssetOf(c, job)
    {
      ValidInv();
      assert WindowOk(c, Abs(), i);
    }

    /** The new Pin, on the reused image or on a new one with its rows and asset, all at once. */
    method CommitTransaction(i: Pid, job: Job) returns (pin: PinId)
      requires Valid() && Importing(i, job) && (Stage(i).Verified? || Stage(i).Reusing?)
      modifies this`db, this`hist, this`procs, this`run
      ensures Valid() && At(i, Import(job, Committed))
      ensures ImportedOne(Effects(old(run), i), Effects(run, i), i, pin)
      ensures pin in hist.uploads && hist.uploads[pin] == Upload(job.data, old(Stage(i)).Reusing?)
      ensures Imported(c, old(db), db, job, pin)
    {
      hide Valid, Effects, Imported;
      WindowMeans(i, job);
      ghost var before := db;
      pin := newPin(Abs());
      if Stage(i).Reusing? {
        ghost var image := Stage(i).image;
        CommitReused(i, job, pin);
        ReusedIsImported(c, before, job, pin, image);
      } else {
        CommitNew(i, job, pin);
        NewIsImported(c, before, job, pin);
      }
    }

    method CommitReused(i: Pid, job: Job, pin: PinId)
      requires Valid() && Importing(i, job) && Stage(i).Reusing? && pin == newPin(Abs())
      modifies this`db, this`hist, this`procs, this`run
      ensures Valid() && At(i, Import(job, Committed)) && Effects(run, i) == Effects(old(run), i) + [CommitReuse(i, pin)]
      ensures hist.uploads == old(hist).uploads[pin := Upload(job.data, true)]
      ensures db == old(db).(pins := old(db).pins[pin := PinRow(job.user, old(Stage(i)).image)]) && pin !in old(db).pins
    {
      ghost var before := Abs();
      db := db.(pins := db.pins[pin := PinRow(job.user, Stage(i).image)]);
      hist := hist.(uploads := hist.uploads[pin := Upload(job.data, true)]);
      procs := procs[i := Import(job, Committed)];
      LogWrite(before, CommitReuse(i, pin), i);
    }

    method CommitNew(i: Pid, job: Job, pin: PinId)
      requires Valid() && Importing(i, job) && Stage(i).Verified? && pin == newPin(Abs())
      modifies this`db, this`hist, this`procs, this`run
      ensures Valid() && At(i, Import(job, Committed))
      ensures Effects(run, i) == Effects(old(run), i) + [CommitPublished(i, pin)]
      ensures hist.uploads == old(hist).uploads[pin := Upload(job.data, false)]
      ensures db == InsertRows(c, old(db), job, pin) && pin !in old(db).pins
    {
      ghost var before := Abs();
      db := InsertRows(c, db, job, pin);
      hist := hist.(published := hist.published + Digests(c, job),
                    born := hist.born + AssetPaths(job.uuid),
                    uploads := hist.uploads[pin := Upload(job.data, false)]);
      procs := procs[i := Import(job, Committed)];
      LogWrite(before, CommitPublished(i, pin), i);
    }

    /** Unlinks one file if this import made it and its name still leads to it. */
    method Compensate(i: Pid, job: Job, p: Path, ghost names: map<Path, Inode>)
      requires Valid() && Clean(i, job, names) && Stage(i).Failed? && p in Stage(i).receipts
      modifies this`files, this`procs, this`run
      ensures Valid() && Clean(i, job, names) && Stage(i) == Failed(Without(old(Stage(i)).receipts, p))
      ensures Effects(run, i) == Effects(old(run), i)
    {
      TakesBackOne(names, files, job.uuid, Stage(i).receipts, p);
      UnlinkOwn(i, job, p, Stage(i).receipts);
    }

    method UnlinkOwn(i: Pid, job: Job, p: Path, receipts: map<Path, Receipt>)
      requires Valid() && Importing(i, job) && Stage(i) == Failed(receipts) && p in receipts
      modifies this`files, this`procs, this`run
      ensures Valid() && Importing(i, job) && files == Unlinked(old(files), p, receipts[p])
      ensures Stage(i) == Failed(Without(receipts, p)) && Effects(run, i) == Effects(old(run), i)
    {
      ghost var before := Abs();
      files := Unlinked(files, p, receipts[p]);
      procs := procs[i := Import(job, Failed(Without(receipts, p)))];
      Log(before, Action.Compensate(i, p), i);
    }

    method CompensateNext(i: Pid, job: Job, ghost names: map<Path, Inode>)
      requires Valid() && Clean(i, job, names) && Stage(i).Failed? && Stage(i).receipts != map[]
      modifies this
      ensures Valid() && Clean(i, job, names) && Stage(i).Failed? && |Stage(i).receipts| < old(|Stage(i).receipts|)
      ensures Quiet() ==> db == old(db)
      ensures Holds(Abs(), i) == old(Holds(Abs(), i)) && Effects(run, i) == Effects(old(run), i)
    {
      hide Valid, Quiet, Restores, Added;
      var _ := Pause(i, job, names);
      var receipts := Stage(i).receipts;
      var p :| p in receipts;
      Compensate(i, job, p, names);
      Smaller(receipts, p);
    }

    method CompensateAll(i: Pid, job: Job, ghost names: map<Path, Inode>)
      requires Valid() && Clean(i, job, names) && Stage(i).Failed?
      modifies this
      ensures Valid() && Clean(i, job, names) && Stage(i) == Failed(map[])
      ensures Quiet() ==> db == old(db)
      ensures Holds(Abs(), i) == old(Holds(Abs(), i)) && Effects(run, i) == Effects(old(run), i)
    {
      while Stage(i).receipts != map[]
        invariant Valid() && Clean(i, job, names) && Stage(i).Failed?
        invariant Quiet() ==> db == old(db)
        invariant Holds(Abs(), i) == old(Holds(Abs(), i)) && Effects(run, i) == Effects(old(run), i)
        decreases |Stage(i).receipts|
      {
        CompensateNext(i, job, names);
      }
    }

    lemma Smaller(receipts: map<Path, Receipt>, p: Path)
      requires p in receipts
      ensures |Without(receipts, p)| < |receipts|
    {
      assert Without(receipts, p).Keys == receipts.Keys - {p};
    }

    predicate Known(error: Option<string>) {
      error in {None, Some(TIMEOUT), Some(CONFLICT)}
    }

    /** A chance for the others, and then a check that aborts the transaction when it fails. */
    method Check(i: Pid, job: Job, ghost names: map<Path, Inode>) returns (ok: bool)
      requires Valid() && Clean(i, job, names) && Uncommitted(Stage(i)) && !Stage(i).Failed?
      modifies this
      ensures Valid() && Clean(i, job, names) && Effects(run, i) == Effects(old(run), i)
      ensures Stage(i) == if ok then old(Stage(i)) else Failed(ReceiptsOf(old(Stage(i))))
      ensures ticks == old(ticks) + 1 && (ok <==> !fails(ticks))
      ensures Quiet() ==> ok && db == old(db) && files == old(files)
    {
      hide Valid, Quiet, Restores, Added;
      var failed := Pause(i, job, names);
      if failed {
        Abort(i, job);
      }
      ok := !failed;
    }

    method PublishNext(i: Pid, job: Job, ghost names: map<Path, Inode>) returns (error: Option<string>)
      requires Valid() && Clean(i, job, names) && Stage(i).Publishing? && Stage(i).count < |KINDS|
      modifies this
      ensures Valid() && Clean(i, job, names) && Effects(run, i) == Effects(old(run), i)
      ensures if error.None? then Stage(i).Publishing? && Stage(i).count == old(Stage(i)).count + 1 else Stage(i).Failed?
      ensures ticks == old(ticks) + 1 && (error == Some(TIMEOUT) <==> fails(ticks)) && Known(error)
      ensures Quiet() ==> db == old(db) && error != Some(TIMEOUT)
      ensures Quiet() ==> (error.None? <==> Fits(c, old(files), job, KINDS[old(Stage(i)).count]))
      ensures Quiet() ==> forall k: Kind :: k != KINDS[old(Stage(i)).count] ==>
                (Fits(c, files, job, k) <==> Fits(c, old(files), job, k))
    {
      hide Valid, Quiet, Restores, Added, Fits;
      var ok := Check(i, job, names);
      if !ok {
        return Some(TIMEOUT);
      }
      ok := PublishOne(i, job, names);
      if !ok {
        Abort(i, job);
        return Some(CONFLICT);
      }
      return None;
    }

    method PublishFiles(i: Pid, job: Job, ghost names: map<Path, Inode>) returns (error: Option<string>)
      requires Valid() && Clean(i, job, names) && Stage(i) == Publishing(0, map[])
      modifies this
      ensures Valid() && Clean(i, job, names) && Effects(run, i) == Effects(old(run), i)
      ensures if error.None? then Stage(i).Publishing? && Stage(i).count == |KINDS| else Stage(i).Failed?
      ensures Known(error) && (error.None? ==> ticks == old(ticks) + |KINDS| && Passed(old(ticks), ticks))
      ensures Quiet() ==> db == old(db) && error != Some(TIMEOUT)
      ensures Quiet() ==> (error.None? <==> forall n :: 0 <= n < |KINDS| ==> Fits(c, old(files), job, KINDS[n]))
    {
      hide Valid, Quiet, Counted, Added, Restores, Fits;
      error := None;
      EveryKind();
      for n := 0 to |KINDS|
        invariant Valid() && Clean(i, job, names) && Effects(run, i) == Effects(old(run), i)
        invariant if error.None? then Stage(i).Publishing? && Stage(i).count == n else Stage(i).Failed?
        invariant Known(error) && (error.None? ==> ticks == old(ticks) + n && Passed(old(ticks), ticks))
        invariant Quiet() ==> db == old(db) && error != Some(TIMEOUT)
        invariant Quiet() ==> (error.None? <==> forall m :: 0 <= m < n ==> Fits(c, old(files), job, KINDS[m]))
        invariant Quiet() && error.None? ==> forall m :: n <= m < |KINDS| ==>
                    (Fits(c, files, job, KINDS[m]) <==> Fits(c, old(files), job, KINDS[m]))
      {
        if error.None? {
          error := PublishNext(i, job, names);
        }
      }
    }

    /** Publishes the four files; what a failure leaves is taken back before the locks are given up. */
    method PublishAll(i: Pid, job: Job, ghost names: map<Path, Inode>) returns (error: Option<string>)
      requires Valid() && Clean(i, job, names) && Stage(i) == Publishing(0, map[])
      modifies this
      ensures Valid() && Clean(i, job, names) && Effects(run, i) == Effects(old(run), i)
      ensures if error.None? then Stage(i).Verified? else Stage(i) == Failed(map[])
      ensures Known(error) && (error.None? ==> ticks == old(ticks) + |KINDS| && Passed(old(ticks), ticks))
      ensures Quiet() ==> db == old(db) && error != Some(TIMEOUT)
      ensures Quiet() ==> (error.None? <==> forall k: Kind :: Fits(c, old(files), job, k))
    {
      hide Valid, Quiet, Fits, Restores, Added;
      AllFit(c, files, job);
      error := PublishFiles(i, job, names);
      if error.None? {
        var ok := VerifyPublished(i, job, names);
        error := if ok then None else Some(CONFLICT);
      } else {
        CompensateAll(i, job, names);
      }
    }

    /** Finds the files to refer to, or makes them. */
    method Place(i: Pid, job: Job, ghost names: map<Path, Inode>) returns (error: Option<string>)
      requires Valid() && Clean(i, job, names) && Stage(i).InTransaction?
      modifies this
      ensures Valid() && Clean(i, job, names) && Effects(run, i) == Effects(old(run), i)
      ensures if error.None? then Stage(i).Verified? || Stage(i).Reusing? else Stage(i).Failed?
      ensures error.None? ==> ticks == old(ticks) + (if Stage(i).Reusing? then 0 else |KINDS|) && Passed(old(ticks), ticks)
      ensures Quiet() ==> db == old(db) && error in {None, Some(CONFLICT)}
      ensures Quiet() ==> (error.None? <==> Servable(c, old(db), old(files), job))
    {
      hide Valid, Quiet, Restores, Added, Fits, Matches, Unregistered;
      var found := FindReusable(i, job);
      if found.Err? {
        Abort(i, job);
        return Some(found.error);
      }
      if found.value.None? {
        NoMatch(c, db, files, job);
        error := PublishAll(i, job, names);
        return;
      }
      return None;
    }

    /** The body of the transaction: reuse or publish, and commit unless a check fails on the way. */
    method Transact(i: Pid, job: Job, ghost names: map<Path, Inode>) returns (r: Result<PinId, string>)
      requires Valid() && Clean(i, job, names) && Stage(i).InTransaction?
      modifies this
      ensures Valid() && Importing(i, job)
      ensures r.Ok? ==> ImportedOne(Effects(old(run), i), Effects(run, i), i, r.value)
      ensures r.Err? ==> Effects(run, i) == Effects(old(run), i)
      ensures r.Ok? ==>
                && Stage(i).Committed?
                && r.value in hist.uploads && hist.uploads[r.value].data == job.data
      ensures r.Ok? ==> ticks == old(ticks) + 2 + (if hist.uploads[r.value].reused then 0 else |KINDS|)
      ensures r.Ok? ==> Passed(old(ticks), ticks)
      ensures r.Err? ==> Clean(i, job, names) && Stage(i).Failed?
      ensures Quiet() ==> (r.Ok? <==> Servable(c, old(db), old(files), job))
      ensures Quiet() ==> if r.Ok? then Imported(c, old(db), db, job, r.value) else db == old(db) && r.error == CONFLICT
    {
      hide Valid, Quiet, Counted, Added, Restores, Servable, Imported, ImportedOne;
      var ok := Check(i, job, names);
      if !ok {
        return Err(TIMEOUT);
      }
      var error := Place(i, job, names);
      if error.Some? {
        return Err(error.value);
      }
      ok := Check(i, job, names);
      if !ok {
        return Err(TIMEOUT);
      }
      var pin := CommitTransaction(i, job);
      r := Ok(pin);
    }

    lemma NotExclusive(i: Pid)
      requires Valid() && IsImport(Abs(), i)
      ensures locks.exclusive != Some(i)
    {
      ValidInv();
    }

    lemma NoRowOfFailed(i: Pid)
      requires Valid() && IsImport(Abs(), i) && Stage(i).Failed?
      ensures forall p :: p in db.rows ==> p.uuid != procs[i].job.uuid
    {
      ValidInv();
      assert JobOk(Abs(), i);
    }

    /** Gives up the lifecycle lock and then the stripe, whichever of them are held. */
    method Leave(i: Pid)
      requires Valid() && IsImport(Abs(), i) && (Stage(i).Committed? || Stage(i).Failed?)
      modifies this`locks, this`run
      ensures Valid()
      ensures !Holds(Abs(), i) && Effects(run, i) == Effects(old(run), i)
    {
      if i in locks.shared {
        LeaveShared(i);
      }
      LeaveStripe(i);
      NotExclusive(i);
    }

    method LeaveShared(i: Pid)
      requires Valid() && IsImport(Abs(), i) && (Stage(i).Committed? || Stage(i).Failed?) && i in locks.shared
      modifies this`locks, this`run
      ensures Valid()
      ensures i !in locks.shared && Effects(run, i) == Effects(old(run), i)
    {
      ghost var before := Abs();
      locks := locks.(shared := locks.shared - {i});
      assert procs == procs[i := procs[i]];
      Log(before, ReleaseShared(i), i);
    }

    method LeaveStripe(i: Pid)
      requires Valid() && IsImport(Abs(), i) && (Stage(i).Committed? || Stage(i).Failed?) && i !in locks.shared
      modifies this`locks, this`run
      ensures Valid()
      ensures i !in locks.shared && i !in locks.stripes.Values && locks.exclusive == old(locks).exclusive
      ensures Effects(run, i) == Effects(old(run), i)
    {
      ghost var before := Abs();
      locks := locks.(stripes := FreeStripes(locks.stripes, i));
      assert procs == procs[i := procs[i]];
      Log(before, ReleaseStripe(i), i);
    }

    method GiveUpLocks(i: Pid, job: Job, ghost names: map<Path, Inode>)
      requires Valid() && Importing(i, job) && (Stage(i).Committed? || (Stage(i).Failed? && Clean(i, job, names)))
      modifies this
      ensures Valid() && Importing(i, job) && Stage(i) == old(Stage(i)) && !Holds(Abs(), i)
      ensures Stage(i).Failed? ==> Clean(i, job, names)
      ensures Effects(run, i) == Effects(old(run), i) && ticks == old(ticks) + 1
      ensures forall p :: p in old(hist).uploads ==> p in hist.uploads && hist.uploads[p] == old(hist).uploads[p]
      ensures Quiet() ==> db == old(db) && files == old(files)
    {
      hide Valid, Quiet, Restores, Holds, Effects;
      var _ := Yield(i);
      Leave(i);
    }

    method Finish(i: Pid)
      requires Valid() && i in procs && !Holds(Abs(), i)
      modifies this`procs, this`run
      ensures Valid() && i !in procs && !Holds(Abs(), i)
      ensures Effects(run, i) == Effects(old(run), i)
    {
      ghost var before := Abs();
      procs := Without(procs, i);
      Log(before, Action.Finish(i), i);
    }

    /** The Pin's image has all four files, with the digests of this data. */
    ghost predicate Shows(pin: PinId, data: Four<Bytes>)
      requires pin in db.pins
      reads this
    {
      forall k: Kind :: HasDigest(c, files, Path(db.pins[pin].image, k), c.sha(data.At(k)))
    }

    lemma ShowsItsUpload(pin: PinId)
      requires Valid() && pin in hist.uploads
      ensures pin in db.pins ==> Shows(pin, hist.uploads[pin].data)
    {
      if pin in db.pins {
        PinsAlwaysShowTheirUpload(c, start, run, Abs(), pin);
      }
    }

    /** The staged files are written, under names and inodes nobody else has. */
    method Prepare(i: Pid, user: User, uuid: Uuid, data: Four<Bytes>, staged: Four<Inode>)
      requires Valid() && Enabled(c, Abs(), Action.Prepare(i, user, uuid, data, staged))
      modifies this
      ensures Valid() && At(i, Import(Job(user, uuid, data, staged), Staged)) && !Holds(Abs(), i)
      ensures db == old(db) && files.names == old(files).names && Effects(run, i) == Effects(old(run), i)
    {
      ghost var before := Abs();
      files := files.(content := files.content + StagedContent(data, staged));
      procs := procs[i := Import(Job(user, uuid, data, staged), Staged)];
      hist := hist.(usedUuids := hist.usedUuids + {uuid});
      Log(before, Action.Prepare(i, user, uuid, data, staged), i);
    }

    /** The locks and the transaction. */
    method Attempt(i: Pid, job: Job, ghost names: map<Path, Inode>) returns (r: Result<PinId, string>)
      requires Valid() && Clean(i, job, names) && Stage(i).Staged?
      modifies this
      ensures Valid() && Importing(i, job)
      ensures r.Ok? ==> ImportedOne(Effects(old(run), i), Effects(run, i), i, r.value)
      ensures r.Err? ==> Effects(run, i) == Effects(old(run), i)
      ensures r.Ok? ==>
                && Stage(i).Committed?
                && r.value in hist.uploads && hist.uploads[r.value].data == job.data
      ensures r.Ok? ==> ticks == old(ticks) + 4 + (if hist.uploads[r.value].reused then 0 else |KINDS|)
      ensures r.Ok? ==> Passed(old(ticks), ticks)
      ensures r.Err? ==> Clean(i, job, names) && Stage(i).Failed?
      ensures Quiet() ==> (r.Ok? <==> MayEnter(c, old(locks), job) && Servable(c, old(db), old(files), job))
      ensures Quiet() ==> if r.Ok? then Imported(c, old(db), db, job, r.value) else db == old(db) && r.error == if MayEnter(c, old(locks), job) then CONFLICT else TIMEOUT
    {
      hide Valid, Quiet, Counted, Added, Restores, Servable, Imported, ImportedOne, MayEnter;
      var entered := Enter(i, job, names);
      r := Err(TIMEOUT);
      if entered {
        r := Transact(i, job, names);
      }
    }

    /** Takes back what a failed import made, and ends. */
    method RollBack(i: Pid, job: Job, ghost names: map<Path, Inode>)
      requires Valid() && Clean(i, job, names) && Stage(i).Failed? && !Holds(Abs(), i)
      modifies this
      ensures Valid() && i !in procs && !Holds(Abs(), i) && Effects(run, i) == Effects(old(run), i)
      ensures OnlyFewer(names, files.names, job.uuid) && forall p :: p in db.rows ==> p.uuid != job.uuid
      ensures Quiet() ==> db == old(db) && files.names == names
    {
      hide Valid, Quiet, Restores, Added, OnlyFewer;
      CompensateAll(i, job, names);
      AllBack(names, files.names, job.uuid);
      NoRowOfFailed(i);
      Finish(i);
    }

    /**
     One import from its staged files to its answer, with anything happening around it.
     It commits exactly one Pin, for its own upload, if it answers with one, and
     otherwise none; and then no row has its uuid and no file that it made is left.
     */
    method Commit(i: Pid, job: Job) returns (r: Result<PinId, string>)
      requires Valid() && Importing(i, job) && Stage(i).Staged? && !Holds(Abs(), i)
      modifies this
      ensures Valid() && i !in procs && !Holds(Abs(), i)
      ensures r.Ok? ==> ImportedOne(Effects(old(run), i), Effects(run, i), i, r.value)
      ensures r.Err? ==> Effects(run, i) == Effects(old(run), i)
      ensures r.Ok? ==> r.value in hist.uploads && hist.uploads[r.value].data == job.data
      ensures r.Ok? && r.value in db.pins ==> Shows(r.value, job.data)
      ensures r.Err? ==> OnlyFewer(old(files).names, files.names, job.uuid) && forall p :: p in db.rows ==> p.uuid != job.uuid
      ensures r.Ok? ==> ticks == old(ticks) + 5 + (if hist.uploads[r.value].reused then 0 else |KINDS|)
      ensures r.Ok? ==> Passed(old(ticks), ticks - 1)
      ensures Quiet() ==> (r.Ok? <==> MayEnter(c, old(locks), job) && Servable(c, old(db), old(files), job))
      ensures Quiet() && r.Ok? ==> Imported(c, old(db), db, job, r.value)
      ensures Quiet() && r.Err? ==>
                && db == old(db) && files.names == old(files).names
                && r.error == if MayEnter(c, old(locks), job) then CONFLICT else TIMEOUT
    {
      hide Valid, Quiet, Added, Restores, Servable, Imported, ImportedOne, MayEnter, OnlyFewer;
      ghost var names := files.names;
      NothingMade(names);
      r := Attempt(i, job, names);
      GiveUpLocks(i, job, names);
      if r.Ok? {
        Finish(i);
        ShowsItsUpload(r.value);
      } else {
        RollBack(i, job, names);
      }
    }
  }
}
