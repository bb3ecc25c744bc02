/**
 The content-deduplicated media store as an interleaved transition system.

 The state is the committed database, the media directory, the dedup-stripe
 and lifecycle file locks and the running processes. Every constructor of
 `Action` is one step of one process that other processes may observe; a
 transaction's writes become visible in its single commit step. `Crash` may
 happen between any two steps: it drops the process, releases its file locks
 and undoes nothing that is already on disk or committed.
 */
module MediaStore {
  import opened Wrappers

  newtype byte = x: int | 0 <= x < 256

  type Bytes = seq<byte>
  type Digest = string
  type Uuid = nat
  type User = nat
  type Pid = nat
  type PinId = nat
  type Inode = nat

  /** SHA-256 and the choice of one of the 256 dedup stripes, both arbitrary. */
  datatype Config = Config(sha: Bytes -> Digest, stripe: (User, Digest) -> nat)

  datatype Kind = Original | Thumbnail | Standard | Square

  /** The four files of an asset, published in this order. */
  const KINDS: seq<Kind> := [Original, Thumbnail, Standard, Square]

  datatype Four<T> = Four(original: T, thumbnail: T, standard: T, square: T) {
    function At(k: Kind): T {
      match k
      case Original => original
      case Thumbnail => thumbnail
      case Standard => standard
      case Square => square
    }
  }

  /** A canonical media path: originals/{uuid}/... or derivatives/{uuid}/{kind}.ext */
  datatype Path = Path(uuid: Uuid, kind: Kind)

  /** The four rows of one image: an Image row and its three Thumbnail rows. */
  function AssetPaths(u: Uuid): set<Path> {
    {Path(u, Original), Path(u, Thumbnail), Path(u, Standard), Path(u, Square)}
  }

  datatype Asset = Asset(owner: User, digest: Digest)

  datatype PinRow = PinRow(owner: User, image: Uuid)

  /** Committed rows: `rows` holds Image and Thumbnail rows by the path they name. */
  datatype Db = Db(rows: set<Path>, assets: map<Uuid, Asset>, pins: map<PinId, PinRow>, pending: set<Path>)

  datatype Files = Files(names: map<Path, Inode>, content: map<Inode, Bytes>)

  datatype Locks = Locks(stripes: map<nat, Pid>, shared: set<Pid>, exclusive: Option<Pid>)

  datatype Upload = Upload(data: Four<Bytes>, reused: bool)

  /** What happened so far; no step reads it. */
  datatype History = History(
    usedUuids: set<Uuid>,
    published: map<Path, Digest>,
    born: set<Path>,
    uploads: map<PinId, Upload>)

  /** What publishing one file left behind: the inode under the name, and who made the name. */
  datatype Receipt = Receipt(inode: Inode, created: bool)

  datatype Job = Job(user: User, uuid: Uuid, data: Four<Bytes>, staged: Four<Inode>)

  datatype ImportStage =
    | Staged
    | StripeHeld
    | InTransaction
    | Reusing(image: Uuid)
    | Publishing(count: nat, receipts: map<Path, Receipt>)
    | Verified(receipts: map<Path, Receipt>)
    | Committed
    | Failed(receipts: map<Path, Receipt>)

  datatype DeleteStage = DeleteWaiting | DeleteLocked | DeleteDone

  datatype LegacyStage = LegacyWaiting | LegacyLocked | LegacyDeleting(doomed: set<PinId>) | Cleaning(images: set<Uuid>)

  datatype WorkerStage = Fetched | Wanting | Holding | Cleared | Unlocking | DropRow

  datatype Proc =
    | Import(job: Job, istage: ImportStage)
    | RegisteredDelete(pin: PinId, image: Uuid, asset: Asset, dstage: DeleteStage)
    | LegacyDelete(targets: set<PinId>, lstage: LegacyStage)
    | Worker(path: Path, wstage: WorkerStage)

  datatype State = State(db: Db, files: Files, locks: Locks, procs: map<Pid, Proc>, hist: History)

  datatype Action =
    | Prepare(i: Pid, user: User, uuid: Uuid, data: Four<Bytes>, staged: Four<Inode>)
    | TakeStripe(i: Pid)
    | TakeShared(i: Pid)
    | FindReusable(i: Pid, image: Uuid)
    | FindNone(i: Pid)
    | PublishOne(i: Pid)
    | VerifyPublished(i: Pid)
    | CommitPublished(i: Pid, pin: PinId)
    | CommitReuse(i: Pid, pin: PinId)
    | Abort(i: Pid)
    | Compensate(i: Pid, path: Path)
    | ReleaseShared(i: Pid)
    | ReleaseStripe(i: Pid)
    | Finish(i: Pid)
    | Crash(i: Pid)
    | DeleteStart(i: Pid, pin: PinId)
    | DeleteLock(i: Pid)
    | DeleteCommit(i: Pid)
    | LegacyStart(i: Pid, targets: set<PinId>)
    | LegacyLock(i: Pid)
    | LegacyDeletePins(i: Pid)
    | LegacyCommit(i: Pid)
    | LegacyCleanup(i: Pid, image: Uuid)
    | WorkerStart(i: Pid, path: Path)
    | WorkerPrecheck(i: Pid)
    | WorkerLock(i: Pid)
    | WorkerCheck(i: Pid)
    | WorkerUnlink(i: Pid)
    | WorkerUnlock(i: Pid)
    | WorkerDrop(i: Pid)
    | BackfillRegister(image: Uuid)

  // ---------------------------------------------------------------- reading

  function KeyOf(c: Config, job: Job): Asset {
    Asset(job.user, c.sha(job.data.original))
  }

  function StripeOf(c: Config, a: Asset): nat {
    c.stripe(a.owner, a.digest)
  }

  predicate IsImport(s: State, i: Pid) {
    i in s.procs && s.procs[i].Import?
  }

  predicate IsWorker(s: State, i: Pid) {
    i in s.procs && s.procs[i].Worker?
  }

  predicate IsDelete(s: State, i: Pid) {
    i in s.procs && s.procs[i].RegisteredDelete?
  }

  predicate IsLegacy(s: State, i: Pid) {
    i in s.procs && s.procs[i].LegacyDelete?
  }

  /** A legacy deletion whose rows are deleted and not committed: others wait for these rows. */
  predicate IsDeleting(s: State, i: Pid) {
    IsLegacy(s, i) && s.procs[i].lstage.LegacyDeleting?
  }

  /** The commit step has not run and the transaction has not failed. */
  predicate Active(st: ImportStage) {
    st.InTransaction? || st.Reusing? || st.Publishing? || st.Verified?
  }

  predicate Uncommitted(st: ImportStage) {
    !st.Committed?
  }

  function ReceiptsOf(st: ImportStage): map<Path, Receipt> {
    match st
    case Publishing(_, r) => r
    case Verified(r) => r
    case Failed(r) => r
    case _ => map[]
  }

  /** The name `p` exists and its bytes have digest `d`. */
  predicate HasDigest(c: Config, f: Files, p: Path, d: Digest) {
    p in f.names && f.names[p] in f.content && c.sha(f.content[f.names[p]]) == d
  }

  predicate HasBytes(f: Files, p: Path, b: Bytes) {
    p in f.names && f.names[p] in f.content && f.content[f.names[p]] == b
  }

  ghost predicate PinsOn(db: Db, image: Uuid) {
    exists p :: p in db.pins && db.pins[p].image == image
  }

  ghost predicate OtherPinsOn(db: Db, image: Uuid, pin: PinId) {
    exists p :: p in db.pins && p != pin && db.pins[p].image == image
  }

  predicate Holds(s: State, i: Pid) {
    i in s.locks.shared || s.locks.exclusive == Some(i) || i in s.locks.stripes.Values
  }

  predicate NoLocks(l: Locks) {
    l.stripes == map[] && l.shared == {} && l.exclusive == None
  }

  // ---------------------------------------------------------------- the steps

  ghost predicate Enabled(c: Config, s: State, a: Action) {
    match a
    case Prepare(i, user, uuid, data, st) =>
      && i !in s.procs && !Holds(s, i)
      && uuid !in s.hist.usedUuids
      && (forall k: Kind :: st.At(k) !in s.files.content)
      && (forall k: Kind, k': Kind :: k != k' ==> st.At(k) != st.At(k'))
    case TakeStripe(i) =>
      && IsImport(s, i) && s.procs[i].istage.Staged?
      && StripeOf(c, KeyOf(c, s.procs[i].job)) !in s.locks.stripes
    case TakeShared(i) =>
      && IsImport(s, i) && s.procs[i].istage.StripeHeld?
      && s.locks.exclusive.None?
    case FindReusable(i, image) =>
      && IsImport(s, i) && s.procs[i].istage.InTransaction?
      && image in s.db.assets && s.db.assets[image] == KeyOf(c, s.procs[i].job)
      && AssetPaths(image) <= s.db.rows
      && (forall k: Kind :: HasBytes(s.files, Path(image, k), s.procs[i].job.data.At(k)))
    case FindNone(i) =>
      && IsImport(s, i) && s.procs[i].istage.InTransaction?
      && (forall m :: m in s.db.assets ==> s.db.assets[m] != KeyOf(c, s.procs[i].job))
    case PublishOne(i) =>
      && IsImport(s, i) && s.procs[i].istage.Publishing?
      && s.procs[i].istage.count < |KINDS|
      && var p := Path(s.procs[i].job.uuid, KINDS[s.procs[i].istage.count]);
         p in s.files.names ==> HasDigest(c, s.files, p, c.sha(s.procs[i].job.data.At(p.kind)))
    case VerifyPublished(i) =>
      && IsImport(s, i) && s.procs[i].istage.Publishing?
      && s.procs[i].istage.count == |KINDS|
      && var r := s.procs[i].istage.receipts;
         forall p :: p in r ==> p in s.files.names && s.files.names[p] == r[p].inode
    case CommitPublished(i, pin) =>
      && IsImport(s, i) && s.procs[i].istage.Verified?
      && pin !in s.db.pins && pin !in s.hist.uploads
    case CommitReuse(i, pin) =>
      && IsImport(s, i) && s.procs[i].istage.Reusing?
      && pin !in s.db.pins && pin !in s.hist.uploads
    case Abort(i) =>
      && IsImport(s, i) && Uncommitted(s.procs[i].istage) && !s.procs[i].istage.Failed?
    case Compensate(i, path) =>
      && IsImport(s, i) && s.procs[i].istage.Failed? && path in s.procs[i].istage.receipts
    case ReleaseShared(i) =>
      && i in s.locks.shared && i in s.procs
      && (s.procs[i].Import? ==> s.procs[i].istage.Committed? || s.procs[i].istage.Failed?)
      && (s.procs[i].LegacyDelete? ==> s.procs[i].lstage.LegacyDeleting? || s.procs[i].lstage.Cleaning?)
    case ReleaseStripe(i) =>
      && i in s.procs && i !in s.locks.shared
      && (s.procs[i].Import? ==> s.procs[i].istage.Committed? || s.procs[i].istage.Failed?)
      && (s.procs[i].RegisteredDelete? ==> s.procs[i].dstage.DeleteDone?)
    case Finish(i) =>
      && i in s.procs && !Holds(s, i)
    case Crash(i) =>
      && i in s.procs
    case DeleteStart(i, pin) =>
      && i !in s.procs && !Holds(s, i)
      && pin in s.db.pins && s.db.pins[pin].image in s.db.assets
    case DeleteLock(i) =>
      && IsDelete(s, i) && s.procs[i].dstage.DeleteWaiting?
      && StripeOf(c, s.procs[i].asset) !in s.locks.stripes
    case DeleteCommit(i) =>
      && IsDelete(s, i) && s.procs[i].dstage.DeleteLocked?
      && s.procs[i].pin in s.db.pins && s.db.pins[s.procs[i].pin].image == s.procs[i].image
      && s.procs[i].image in s.db.assets && s.db.assets[s.procs[i].image] == s.procs[i].asset
      && AssetPaths(s.procs[i].image) <= s.db.rows
    case LegacyStart(i, targets) =>
      && i !in s.procs && !Holds(s, i)
    case LegacyLock(i) =>
      && IsLegacy(s, i) && s.procs[i].lstage.LegacyWaiting?
      && s.locks.exclusive.None?
    case LegacyDeletePins(i) =>
      && IsLegacy(s, i) && s.procs[i].lstage.LegacyLocked?
      && (forall p :: p in s.procs[i].targets && p in s.db.pins ==> s.db.pins[p].image !in s.db.assets)
      && (forall j :: IsDeleting(s, j) ==> s.procs[j].lstage.doomed !! s.procs[i].targets)
    case LegacyCommit(i) =>
      && IsLegacy(s, i) && s.procs[i].lstage.LegacyDeleting? && i !in s.locks.shared
    case LegacyCleanup(i, image) =>
      && IsLegacy(s, i) && s.procs[i].lstage.Cleaning? && image in s.procs[i].lstage.images
      && (if image in s.db.assets then StripeOf(c, s.db.assets[image]) !in s.locks.stripes else s.locks.exclusive.None?)
    case WorkerStart(i, path) =>
      && i !in s.procs && !Holds(s, i) && path in s.db.pending
    case WorkerPrecheck(i) =>
      IsWorker(s, i) && s.procs[i].wstage.Fetched?
    case WorkerLock(i) =>
      && IsWorker(s, i) && s.procs[i].wstage.Wanting?
      && s.locks.exclusive.None? && s.locks.shared == {}
    case WorkerCheck(i) =>
      IsWorker(s, i) && s.procs[i].wstage.Holding?
    case WorkerUnlink(i) =>
      IsWorker(s, i) && s.procs[i].wstage.Cleared?
    case WorkerUnlock(i) =>
      IsWorker(s, i) && s.procs[i].wstage.Unlocking?
    case WorkerDrop(i) =>
      IsWorker(s, i) && s.procs[i].wstage.DropRow?
    case BackfillRegister(image) =>
      && NoLocks(s.locks) && (forall j :: !IsDeleting(s, j))
      && AssetPaths(image) <= s.db.rows && image !in s.db.assets
      && PinsOn(s.db, image)
      && (forall p, q :: p in s.db.pins && q in s.db.pins && s.db.pins[p].image == image && s.db.pins[q].image == image
                         ==> s.db.pins[p].owner == s.db.pins[q].owner)
      && Path(image, Original) in s.files.names && s.files.names[Path(image, Original)] in s.files.content
      && (forall m :: m in s.db.assets ==> s.db.assets[m] != BackfillAsset(c, s, image))
  }

  /** The single owner of the image's pins, and the digest of its original file. */
  ghost function BackfillAsset(c: Config, s: State, image: Uuid): Asset
    requires PinsOn(s.db, image)
    requires Path(image, Original) in s.files.names && s.files.names[Path(image, Original)] in s.files.content
  {
    var p :| p in s.db.pins && s.db.pins[p].image == image;
    Asset(s.db.pins[p].owner, c.sha(s.files.content[s.files.names[Path(image, Original)]]))
  }

  function Become(s: State, i: Pid, p: Proc): State {
    s.(procs := s.procs[i := p])
  }

  function Without<K, V>(m: map<K, V>, k: K): map<K, V> {
    map x | x in m && x != k :: m[x]
  }

  function FreeStripes(m: map<nat, Pid>, i: Pid): map<nat, Pid> {
    map x | x in m && m[x] != i :: m[x]
  }

  function FreeAll(l: Locks, i: Pid): Locks {
    Locks(FreeStripes(l.stripes, i), l.shared - {i}, if l.exclusive == Some(i) then None else l.exclusive)
  }

  /** Deleting an Image row deletes its Thumbnail rows and asset and queues all four files. */
  function DropImage(db: Db, image: Uuid): Db {
    db.(rows := db.rows - AssetPaths(image),
        assets := Without(db.assets, image),
        pending := db.pending + (db.rows * AssetPaths(image)))
  }

  ghost function DeleteOne(db: Db, pin: PinId, image: Uuid): Db {
    var db1 := db.(pins := Without(db.pins, pin));
    if PinsOn(db1, image) then db1 else DropImage(db1, image)
  }

  function DeleteMany(db: Db, targets: set<PinId>): Db {
    db.(pins := map p | p in db.pins && p !in targets :: db.pins[p])
  }

  function ImagesOf(db: Db, targets: set<PinId>): set<Uuid> {
    set p | p in targets && p in db.pins :: db.pins[p].image
  }

  function InsertRows(c: Config, db: Db, job: Job, pin: PinId): Db {
    Db(db.rows + AssetPaths(job.uuid),
       db.assets[job.uuid := KeyOf(c, job)],
       db.pins[pin := PinRow(job.user, job.uuid)],
       db.pending)
  }

  function Digests(c: Config, job: Job): map<Path, Digest> {
    map p | p in AssetPaths(job.uuid) :: c.sha(job.data.At(p.kind))
  }

  function CompensateFile(s: State, i: Pid, path: Path): State
    requires IsImport(s, i) && s.procs[i].istage.Failed? && path in s.procs[i].istage.receipts
  {
    var job, r := s.procs[i].job, s.procs[i].istage.receipts;
    var s1 := Become(s, i, Import(job, Failed(Without(r, path))));
    if r[path].created && path in s.files.names && s.files.names[path] == r[path].inode
    then s1.(files := s.files.(names := Without(s.files.names, path)))
    else s1
  }

  function StagedContent(data: Four<Bytes>, st: Four<Inode>): map<Inode, Bytes> {
    map[st.original := data.original, st.thumbnail := data.thumbnail,
        st.standard := data.standard, st.square := data.square]
  }

  /** The name that an import publishes next. */
  function NextPath(s: State, i: Pid): Path
    requires IsImport(s, i) && s.procs[i].istage.Publishing? && s.procs[i].istage.count < |KINDS|
  {
    Path(s.procs[i].job.uuid, KINDS[s.procs[i].istage.count])
  }

  /** Linking a file when its name is free; the name and the inode under it go on the receipt either way. */
  function PublishReceipt(s: State, i: Pid): Receipt
    requires IsImport(s, i) && s.procs[i].istage.Publishing? && s.procs[i].istage.count < |KINDS|
  {
    var p := NextPath(s, i);
    if p in s.files.names then Receipt(s.files.names[p], false) else Receipt(s.procs[i].job.staged.At(p.kind), true)
  }

  ghost function FilesAfter(c: Config, s: State, a: Action): Files
    requires Enabled(c, s, a)
  {
    match a
    case Prepare(_, _, _, data, st) => s.files.(content := s.files.content + StagedContent(data, st))
    case PublishOne(i) =>
      var p := NextPath(s, i);
      if p in s.files.names then s.files
      else s.files.(names := s.files.names[p := s.procs[i].job.staged.At(p.kind)])
    case Compensate(i, path) => CompensateFile(s, i, path).files
    case WorkerUnlink(i) => s.files.(names := Without(s.files.names, s.procs[i].path))
    case _ => s.files
  }

  ghost function LocksAfter(c: Config, s: State, a: Action): Locks
    requires Enabled(c, s, a)
  {
    match a
    case TakeStripe(i) => s.locks.(stripes := s.locks.stripes[StripeOf(c, KeyOf(c, s.procs[i].job)) := i])
    case DeleteLock(i) => s.locks.(stripes := s.locks.stripes[StripeOf(c, s.procs[i].asset) := i])
    case TakeShared(i) => s.locks.(shared := s.locks.shared + {i})
    case LegacyLock(i) => s.locks.(shared := s.locks.shared + {i})
    case ReleaseShared(i) => s.locks.(shared := s.locks.shared - {i})
    case ReleaseStripe(i) => s.locks.(stripes := FreeStripes(s.locks.stripes, i))
    case WorkerLock(i) => s.locks.(exclusive := Some(i))
    case WorkerUnlock(i) => s.locks.(exclusive := None)
    case Crash(i) => FreeAll(s.locks, i)
    case _ => s.locks
  }

  ghost function DbAfter(c: Config, s: State, a: Action): Db
    requires Enabled(c, s, a)
  {
    match a
    case CommitPublished(i, pin) => InsertRows(c, s.db, s.procs[i].job, pin)
    case CommitReuse(i, pin) =>
      s.db.(pins := s.db.pins[pin := PinRow(s.procs[i].job.user, s.procs[i].istage.image)])
    case DeleteCommit(i) => DeleteOne(s.db, s.procs[i].pin, s.procs[i].image)
    case LegacyCommit(i) => DeleteMany(s.db, s.procs[i].lstage.doomed)
    case LegacyCleanup(_, image) =>
      if Path(image, Original) in s.db.rows && !PinsOn(s.db, image)
      then DropImage(s.db, image) else s.db
    case WorkerDrop(i) => s.db.(pending := s.db.pending - {s.procs[i].path})
    case BackfillRegister(image) => s.db.(assets := s.db.assets[image := BackfillAsset(c, s, image)])
    case _ => s.db
  }

  /** The process that a step leaves behind for its actor, if any. */
  ghost function ProcAfter(c: Config, s: State, a: Action): Option<Proc>
    requires Enabled(c, s, a) && !a.BackfillRegister?
  {
    match a
    case Prepare(_, user, uuid, data, st) => Some(Import(Job(user, uuid, data, st), Staged))
    case TakeStripe(i) => Some(Import(s.procs[i].job, StripeHeld))
    case TakeShared(i) => Some(Import(s.procs[i].job, InTransaction))
    case FindReusable(i, image) => Some(Import(s.procs[i].job, Reusing(image)))
    case FindNone(i) => Some(Import(s.procs[i].job, Publishing(0, map[])))
    case PublishOne(i) =>
      var st := s.procs[i].istage;
      Some(Import(s.procs[i].job, Publishing(st.count + 1, st.receipts[NextPath(s, i) := PublishReceipt(s, i)])))
    case VerifyPublished(i) => Some(Import(s.procs[i].job, Verified(s.procs[i].istage.receipts)))
    case CommitPublished(i, _) => Some(Import(s.procs[i].job, Committed))
    case CommitReuse(i, _) => Some(Import(s.procs[i].job, Committed))
    case Abort(i) => Some(Import(s.procs[i].job, Failed(ReceiptsOf(s.procs[i].istage))))
    case Compensate(i, path) => Some(Import(s.procs[i].job, Failed(Without(s.procs[i].istage.receipts, path))))
    case ReleaseShared(i) => Some(s.procs[i])
    case ReleaseStripe(i) => Some(s.procs[i])
    case Finish(_) => None
    case Crash(_) => None
    case DeleteStart(_, pin) =>
      Some(RegisteredDelete(pin, s.db.pins[pin].image, s.db.assets[s.db.pins[pin].image], DeleteWaiting))
    case DeleteLock(i) => Some(s.procs[i].(dstage := DeleteLocked))
    case DeleteCommit(i) => Some(s.procs[i].(dstage := DeleteDone))
    case LegacyStart(_, targets) => Some(LegacyDelete(targets, LegacyWaiting))
    case LegacyLock(i) => Some(s.procs[i].(lstage := LegacyLocked))
    case LegacyDeletePins(i) => Some(s.procs[i].(lstage := LegacyDeleting(s.procs[i].targets * s.db.pins.Keys)))
    case LegacyCommit(i) => Some(s.procs[i].(lstage := Cleaning(ImagesOf(s.db, s.procs[i].lstage.doomed))))
    case LegacyCleanup(i, image) => Some(s.procs[i].(lstage := Cleaning(s.procs[i].lstage.images - {image})))
    case WorkerStart(_, path) => Some(Worker(path, Fetched))
    case WorkerPrecheck(i) => Some(Worker(s.procs[i].path, if s.procs[i].path in s.db.rows then DropRow else Wanting))
    case WorkerLock(i) => Some(Worker(s.procs[i].path, Holding))
    case WorkerCheck(i) => Some(Worker(s.procs[i].path, if s.procs[i].path in s.db.rows then Unlocking else Cleared))
    case WorkerUnlink(i) => Some(Worker(s.procs[i].path, Unlocking))
    case WorkerUnlock(i) => Some(Worker(s.procs[i].path, DropRow))
    case WorkerDrop(_) => None
  }

  ghost function ProcsAfter(c: Config, s: State, a: Action): map<Pid, Proc>
    requires Enabled(c, s, a)
  {
    if a.BackfillRegister? then s.procs
    else
      match ProcAfter(c, s, a)
      case Some(p) => s.procs[a.i := p]
      case None => Without(s.procs, a.i)
  }

  ghost function HistAfter(c: Config, s: State, a: Action): History
    requires Enabled(c, s, a)
  {
    match a
    case Prepare(_, _, uuid, _, _) => s.hist.(usedUuids := s.hist.usedUuids + {uuid})
    case CommitPublished(i, pin) =>
      var job := s.procs[i].job;
      s.hist.(published := s.hist.published + Digests(c, job),
              born := s.hist.born + AssetPaths(job.uuid),
              uploads := s.hist.uploads[pin := Upload(job.data, false)])
    case CommitReuse(i, pin) => s.hist.(uploads := s.hist.uploads[pin := Upload(s.procs[i].job.data, true)])
    case _ => s.hist
  }

  /** One step, part by part. */
  ghost function Apply(c: Config, s: State, a: Action): State
    requires Enabled(c, s, a)
  {
    State(DbAfter(c, s, a), FilesAfter(c, s, a), LocksAfter(c, s, a), ProcsAfter(c, s, a), HistAfter(c, s, a))
  }

  /** The state reached by performing `run` from `s`, when every step is enabled. */
  ghost predicate Run(c: Config, s: State, run: seq<Action>, t: State)
    decreases |run|
  {
    if run == [] then s == t
    else Enabled(c, s, run[0]) && Run(c, Apply(c, s, run[0]), run[1..], t)
  }
}
