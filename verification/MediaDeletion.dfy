/** Deleting a registered Pin, and the worker that drains the outbox, among other processes. */
module MediaDeletion {
  import opened Wrappers
  import opened MediaStore
  import opened MediaInvariant
  import opened MediaSteps
  import opened MediaOutbox
  import opened MediaTheorems
  import opened MediaInterference
  import opened MediaServices

  lemma Gone(m: MediaServer, i: Pid)
    requires m.Valid() && i !in m.procs
    ensures !Holds(m.Abs(), i)
  {
    m.ValidInv();
  }

  /** The process ends, by an answer or an error: its locks are given up and nothing else happens. */
  method End(m: MediaServer, i: Pid)
    requires m.Valid() && i in m.procs
    modifies m`locks, m`procs, m`run
    ensures m.Valid() && i !in m.procs && !Holds(m.Abs(), i) && Effects(m.run, i) == Effects(old(m.run), i)
  {
    ghost var before := m.Abs();
    m.locks := FreeAll(m.locks, i);
    m.procs := Without(m.procs, i);
    m.Log(before, Crash(i), i);
    Gone(m, i);
  }

  // ---------------------------------------------------------------- registered Pins

  /** What the deletion of one registered Pin does to the committed rows. */
  ghost predicate PinDeleted(before: Db, after: Db, pin: PinId, image: Uuid) {
    && after.pins.Keys == before.pins.Keys - {pin}
    && (forall p :: p in after.pins ==> after.pins[p] == before.pins[p])
    && (if OtherPinsOn(before, image, pin)
        then after.rows == before.rows && after.assets == before.assets && after.pending == before.pending
        else after.rows == before.rows - AssetPaths(image) && after.assets.Keys == before.assets.Keys - {image}
             && after.pending == before.pending + AssetPaths(image))
  }

  /** The rows read before locking are still the same. */
  ghost predicate Unchanged(db: Db, pin: PinId, image: Uuid, asset: Asset) {
    && pin in db.pins && db.pins[pin].image == image && image in db.assets && db.assets[image] == asset
    && forall k: Kind :: Path(image, k) in db.rows
  }

  lemma AllRows(db: Db, image: Uuid)
    ensures AssetPaths(image) <= db.rows <==> forall k: Kind :: Path(image, k) in db.rows
  {
    forall k: Kind ensures Path(image, k) in AssetPaths(image) {
      assert k == Original || k == Thumbnail || k == Standard || k == Square;
    }
  }

  predicate Deleting(m: MediaServer, i: Pid, pin: PinId, image: Uuid, asset: Asset, stage: DeleteStage)
    reads m
  {
    i in m.procs && m.procs[i] == RegisteredDelete(pin, image, asset, stage)
  }

  method TakeStripe(m: MediaServer, i: Pid, pin: PinId, image: Uuid, asset: Asset) returns (ok: bool)
    requires m.Valid() && Deleting(m, i, pin, image, asset, DeleteWaiting)
    modifies m`locks, m`procs, m`run
    ensures m.Valid() && Deleting(m, i, pin, image, asset, if ok then DeleteLocked else DeleteWaiting)
    ensures ok <==> m.c.stripe(asset.owner, asset.digest) !in old(m.locks).stripes
    ensures Effects(m.run, i) == Effects(old(m.run), i)
  {
    var k := StripeOf(m.c, asset);
    ok := k !in m.locks.stripes;
    if ok {
      ghost var before := m.Abs();
      m.locks := m.locks.(stripes := m.locks.stripes[k := i]);
      m.procs := m.procs[i := RegisteredDelete(pin, image, asset, DeleteLocked)];
      m.Log(before, DeleteLock(i), i);
    }
  }

  /** The rows read before locking are still the same, and the last Pin takes its image along. */
  method DeleteLockedPin(m: MediaServer, i: Pid, pin: PinId, image: Uuid, asset: Asset) returns (deleted: bool)
    requires m.Valid() && Deleting(m, i, pin, image, asset, DeleteLocked)
    modifies m`db, m`procs, m`run
    ensures m.Valid() && Deleting(m, i, pin, image, asset, if deleted then DeleteDone else DeleteLocked)
    ensures deleted <==> Unchanged(old(m.db), pin, image, asset)
    ensures if deleted then PinDeleted(old(m.db), m.db, pin, image) else m.db == old(m.db)
    ensures Effects(m.run, i) == Effects(old(m.run), i) + if deleted then [DeleteCommit(i)] else []
  {
    AllRows(m.db, image);
    deleted := pin in m.db.pins && m.db.pins[pin].image == image
               && image in m.db.assets && m.db.assets[image] == asset && AssetPaths(image) <= m.db.rows;
    if deleted {
      ghost var before := m.Abs();
      DeleteOneEffect(m.db, pin, image);
      m.db := m.db.(pins := Without(m.db.pins, pin));
      if !(exists p :: p in m.db.pins && m.db.pins[p].image == image) {
        m.db := DropImage(m.db, image);
      }
      m.procs := m.procs[i := RegisteredDelete(pin, image, asset, DeleteDone)];
      m.LogWrite(before, DeleteCommit(i), i);
    }
  }

  /** The Pin is registered, and the stripe of its asset is free. */
  predicate MayDelete(c: Config, db: Db, locks: Locks, pin: PinId) {
    && pin in db.pins && db.pins[pin].image in db.assets
    && var asset := db.assets[db.pins[pin].image];
       c.stripe(asset.owner, asset.digest) !in locks.stripes
  }

  lemma RegisteredRows(m: MediaServer, pin: PinId)
    requires m.Valid() && pin in m.db.pins && m.db.pins[pin].image in m.db.assets
    ensures Unchanged(m.db, pin, m.db.pins[pin].image, m.db.assets[m.db.pins[pin].image])
  {
    m.ValidInv();
    assert RegisteredOk(m.db, m.db.pins[pin].image);
    AllRows(m.db, m.db.pins[pin].image);
  }

  /** Deletes a registered Pin under its asset's stripe, or raises and changes no row. */
  method DeletePin(m: MediaServer, i: Pid, pin: PinId) returns (deleted: bool)
    requires m.Valid() && i !in m.procs && !Holds(m.Abs(), i)
    modifies m
    ensures m.Valid() && i !in m.procs && !Holds(m.Abs(), i)
    ensures Effects(m.run, i) == Effects(old(m.run), i) + if deleted then [DeleteCommit(i)] else []
    ensures deleted ==> m.ticks == old(m.ticks) + 2 && m.Passed(old(m.ticks), m.ticks)
    ensures m.Quiet() ==>
              && m.files == old(m.files)
              && (deleted <==> MayDelete(m.c, old(m.db), old(m.locks), pin))
              && (if deleted then PinDeleted(old(m.db), m.db, pin, old(m.db).pins[pin].image) else m.db == old(m.db))
  {
    hide m.Valid, m.Quiet, Holds, PinDeleted, Unchanged;
    if pin !in m.db.pins || m.db.pins[pin].image !in m.db.assets {
      return false;
    }
    RegisteredRows(m, pin);
    var image := m.db.pins[pin].image;
    var asset := m.db.assets[image];
    StartDelete(m, i, pin, image, asset);
    deleted := DeleteRegistered(m, i, pin, image, asset);
  }

  method StartDelete(m: MediaServer, i: Pid, pin: PinId, image: Uuid, asset: Asset)
    requires m.Valid() && i !in m.procs && !Holds(m.Abs(), i)
    requires pin in m.db.pins && image == m.db.pins[pin].image && image in m.db.assets && asset == m.db.assets[image]
    modifies m`procs, m`run
    ensures m.Valid() && Deleting(m, i, pin, image, asset, DeleteWaiting)
    ensures Effects(m.run, i) == Effects(old(m.run), i)
  {
    ghost var before := m.Abs();
    m.procs := m.procs[i := RegisteredDelete(pin, image, asset, DeleteWaiting)];
    m.Log(before, DeleteStart(i, pin), i);
  }

  method DeleteRegistered(m: MediaServer, i: Pid, pin: PinId, image: Uuid, asset: Asset) returns (deleted: bool)
    requires m.Valid() && Deleting(m, i, pin, image, asset, DeleteWaiting)
    modifies m
    ensures m.Valid() && i !in m.procs && !Holds(m.Abs(), i)
    ensures Effects(m.run, i) == Effects(old(m.run), i) + if deleted then [DeleteCommit(i)] else []
    ensures deleted ==> m.ticks == old(m.ticks) + 2 && m.Passed(old(m.ticks), m.ticks)
    ensures m.Quiet() ==>
              && m.files == old(m.files)
              && (deleted <==> Unchanged(old(m.db), pin, image, asset)
                               && m.c.stripe(asset.owner, asset.digest) !in old(m.locks).stripes)
              && (if deleted then PinDeleted(old(m.db), m.db, pin, image) else m.db == old(m.db))
  {
    hide m.Valid, m.Quiet, Holds, PinDeleted, Unchanged, Effects;
    var failed := m.Yield(i);
    deleted := false;
    if !failed {
      deleted := TakeStripe(m, i, pin, image, asset);
    }
    if deleted {
      failed := m.Yield(i);
      deleted := false;
      if !failed {
        deleted := DeleteLockedPin(m, i, pin, image, asset);
      }
    }
    End(m, i);
  }

  // ---------------------------------------------------------------- the outbox

  predicate Working(m: MediaServer, i: Pid, path: Path, stage: WorkerStage)
    reads m
  {
    i in m.procs && m.procs[i] == Worker(path, stage)
  }

  /** A file that some row names is not to be deleted; this is looked up before any lock is taken. */
  method Precheck(m: MediaServer, i: Pid, path: Path) returns (needed: bool)
    requires m.Valid() && Working(m, i, path, Fetched)
    modifies m`procs, m`run
    ensures m.Valid() && needed == (path in m.db.rows) && Working(m, i, path, if needed then DropRow else Wanting)
    ensures Effects(m.run, i) == Effects(old(m.run), i)
  {
    needed := path in m.db.rows;
    ghost var before := m.Abs();
    m.procs := m.procs[i := Worker(path, if needed then DropRow else Wanting)];
    m.Log(before, WorkerPrecheck(i), i);
  }

  /** The same question again, under the exclusive lock. */
  method Recheck(m: MediaServer, i: Pid, path: Path) returns (needed: bool)
    requires m.Valid() && Working(m, i, path, Holding)
    modifies m`procs, m`run
    ensures m.Valid() && needed == (path in m.db.rows) && Working(m, i, path, if needed then Unlocking else Cleared)
    ensures Effects(m.run, i) == Effects(old(m.run), i)
  {
    needed := path in m.db.rows;
    ghost var before := m.Abs();
    m.procs := m.procs[i := Worker(path, if needed then Unlocking else Cleared)];
    m.Log(before, WorkerCheck(i), i);
  }

  /** Exactly this name is gone, if `gone`; no other name and no content has changed. */
  ghost predicate FileGone(before: Files, after: Files, path: Path, gone: bool) {
    && after.content == before.content
    && (forall p :: p in after.names <==> p in before.names && !(gone && p == path))
    && (forall p :: p in after.names ==> after.names[p] == before.names[p])
  }

  method LockExclusive(m: MediaServer, i: Pid, path: Path) returns (ok: bool)
    requires m.Valid() && Working(m, i, path, Wanting)
    modifies m`locks, m`procs, m`run
    ensures m.Valid() && Working(m, i, path, if ok then Holding else Wanting)
    ensures ok <==> old(m.locks).exclusive.None? && old(m.locks).shared == {}
    ensures Effects(m.run, i) == Effects(old(m.run), i)
  {
    ok := m.locks.exclusive.None? && m.locks.shared == {};
    if ok {
      ghost var before := m.Abs();
      m.locks := m.locks.(exclusive := Some(i));
      m.procs := m.procs[i := Worker(path, Holding)];
      m.Log(before, WorkerLock(i), i);
    }
  }

  method Unlink(m: MediaServer, i: Pid, path: Path)
    requires m.Valid() && Working(m, i, path, Cleared)
    modifies m`files, m`procs, m`run
    ensures m.Valid() && Working(m, i, path, Unlocking)
    ensures m.files == old(m.files).(names := Without(old(m.files).names, path))
    ensures Effects(m.run, i) == Effects(old(m.run), i)
  {
    ghost var before := m.Abs();
    m.files := m.files.(names := Without(m.files.names, path));
    m.procs := m.procs[i := Worker(path, Unlocking)];
    m.Log(before, WorkerUnlink(i), i);
  }

  method Unlock(m: MediaServer, i: Pid, path: Path)
    requires m.Valid() && Working(m, i, path, Unlocking)
    modifies m`locks, m`procs, m`run
    ensures m.Valid() && Working(m, i, path, DropRow)
    ensures Effects(m.run, i) == Effects(old(m.run), i)
  {
    ghost var before := m.Abs();
    m.locks := m.locks.(exclusive := None);
    m.procs := m.procs[i := Worker(path, DropRow)];
    m.Log(before, WorkerUnlock(i), i);
  }

  /** A worker that may drop its row has seen to it that the file is gone. */
  lemma Drained(m: MediaServer, i: Pid, path: Path)
    requires m.Valid() && Working(m, i, path, DropRow) && CleanStart(m.c, m.start)
    ensures path !in m.files.names && path !in m.db.rows
  {
    ReachableOutbox(m.c, m.start, m.run, m.Abs());
    assert DrainOk(m.Abs(), i);
  }

  /** Unlinks the file unless a row names it, all under the exclusive lock. */
  method DeleteCanonical(m: MediaServer, i: Pid, path: Path) returns (ok: bool)
    requires m.Valid() && Working(m, i, path, Wanting)
    modifies m
    ensures m.Valid() && i in m.procs && (ok ==> Working(m, i, path, DropRow))
    ensures Effects(m.run, i) == Effects(old(m.run), i)
    ensures ok ==> m.Passed(old(m.ticks), m.ticks)
    ensures m.ticks >= old(m.ticks)
    ensures m.Quiet() ==> m.db == old(m.db) && (ok <==> old(m.locks).exclusive.None? && old(m.locks).shared == {})
    ensures m.Quiet() ==> FileGone(old(m.files), m.files, path, ok && path !in old(m.db).rows)
    ensures m.Quiet() && ok ==> m.ticks == old(m.ticks) + if path in old(m.db).rows then 2 else 3
  {
    hide m.Valid, m.Quiet, Holds, Effects;
    var failed := m.Yield(i);
    if failed {
      return false;
    }
    ok := LockExclusive(m, i, path);
    if ok {
      ok := CheckAndUnlink(m, i, path);
    }
  }

  method CheckAndUnlink(m: MediaServer, i: Pid, path: Path) returns (ok: bool)
    requires m.Valid() && Working(m, i, path, Holding)
    modifies m
    ensures m.Valid() && i in m.procs && (ok ==> Working(m, i, path, DropRow))
    ensures ok && CleanStart(m.c, m.start) ==> path !in m.files.names && path !in m.db.rows
    ensures Effects(m.run, i) == Effects(old(m.run), i)
    ensures ok ==> m.Passed(old(m.ticks), m.ticks)
    ensures m.ticks >= old(m.ticks)
    ensures m.Quiet() ==> m.ticks == old(m.ticks) + if path in old(m.db).rows then 1 else 2
    ensures m.Quiet() ==> ok && m.db == old(m.db) && FileGone(old(m.files), m.files, path, path !in old(m.db).rows)
  {
    hide m.Valid, m.Quiet, Holds, Effects, CleanStart;
    var failed := m.Yield(i);
    if failed {
      return false;
    }
    var needed := Recheck(m, i, path);
    if !needed {
      failed := m.Yield(i);
      if failed {
        return false;
      }
      Unlink(m, i, path);
    }
    Unlock(m, i, path);
    if CleanStart(m.c, m.start) {
      Drained(m, i, path);
    }
    ok := true;
  }

  /** The outbox row goes last; by then its file is gone. */
  method Drop(m: MediaServer, i: Pid, path: Path)
    requires m.Valid() && Working(m, i, path, DropRow)
    modifies m`db, m`procs, m`run
    ensures m.Valid() && i !in m.procs && !Holds(m.Abs(), i)
    ensures m.db == old(m.db).(pending := old(m.db).pending - {path})
    ensures CleanStart(m.c, m.start) ==> path !in m.files.names && path !in m.db.rows
    ensures Effects(m.run, i) == Effects(old(m.run), i) + [WorkerDrop(i)]
  {
    if CleanStart(m.c, m.start) {
      Drained(m, i, path);
    }
    ghost var before := m.Abs();
    m.db := m.db.(pending := m.db.pending - {path});
    m.procs := Without(m.procs, i);
    m.LogWrite(before, WorkerDrop(i), i);
    Gone(m, i);
  }

  /**
   One outbox row. Done means that this worker removed the row and that, unless
   the store began with rows queued by mistake, no row needs the file and it is
   gone; otherwise the row is left to a later attempt.
   */
  method ProcessPending(m: MediaServer, i: Pid, path: Path) returns (done: bool)
    requires m.Valid() && i !in m.procs && !Holds(m.Abs(), i)
    modifies m
    ensures m.Valid() && i !in m.procs && !Holds(m.Abs(), i)
    ensures Effects(m.run, i) == Effects(old(m.run), i) + if done then [WorkerDrop(i)] else []
    ensures done ==> path !in m.db.pending
    ensures done && CleanStart(m.c, m.start) ==> path !in m.files.names && path !in m.db.rows
    ensures done ==> m.Passed(old(m.ticks), m.ticks)
    ensures m.Quiet() ==>
              (done <==> path in old(m.db).pending
                         && (path in old(m.db).rows || (old(m.locks).exclusive.None? && old(m.locks).shared == {})))
    ensures m.Quiet() ==> FileGone(old(m.files), m.files, path, done && path !in old(m.db).rows)
    ensures m.Quiet() && done ==> m.ticks == old(m.ticks) + if path in old(m.db).rows then 2 else 5
    ensures m.Quiet() ==> m.db == if done then old(m.db).(pending := old(m.db).pending - {path}) else old(m.db)
  {
    hide m.Valid, m.Quiet, Holds, Effects, CleanStart;
    if path !in m.db.pending {
      return false;
    }
    Fetch(m, i, path);
    done := Remove(m, i, path);
    if done {
      Drop(m, i, path);
    } else {
      End(m, i);
    }
  }

  method Fetch(m: MediaServer, i: Pid, path: Path)
    requires m.Valid() && i !in m.procs && !Holds(m.Abs(), i) && path in m.db.pending
    modifies m`procs, m`run
    ensures m.Valid() && Working(m, i, path, Fetched) && Effects(m.run, i) == Effects(old(m.run), i)
  {
    ghost var before := m.Abs();
    m.procs := m.procs[i := Worker(path, Fetched)];
    m.Log(before, WorkerStart(i, path), i);
  }

  method Remove(m: MediaServer, i: Pid, path: Path) returns (ok: bool)
    requires m.Valid() && Working(m, i, path, Fetched)
    modifies m
    ensures m.Valid() && i in m.procs && (ok ==> Working(m, i, path, DropRow))
    ensures Effects(m.run, i) == Effects(old(m.run), i)
    ensures ok ==> m.Passed(old(m.ticks), m.ticks)
    ensures m.ticks >= old(m.ticks)
    ensures m.Quiet() ==> m.db == old(m.db)
    ensures m.Quiet() ==>
              (ok <==> path in old(m.db).rows || (old(m.locks).exclusive.None? && old(m.locks).shared == {}))
    ensures m.Quiet() ==> FileGone(old(m.files), m.files, path, ok && path !in old(m.db).rows)
    ensures m.Quiet() && ok ==> m.ticks == old(m.ticks) + if path in old(m.db).rows then 2 else 5
  {
    hide m.Valid, m.Quiet, Holds, Effects;
    var failed := m.Yield(i);
    if failed {
      return false;
    }
    var needed := Precheck(m, i, path);
    ok := true;
    if !needed {
      ok := DeleteCanonical(m, i, path);
    }
    if ok {
      failed := m.Yield(i);
      ok := !failed;
    }
  }
}
