/**
 Row-locked transactions on boards and Pins, interleaved. Each transaction
 probes without locks, locks boards, then Pins, reads again under its locks,
 and commits or rolls back. Other writers take their row locks and commit in
 one step.
 */
module BoardMachine {
  import opened Wrappers
  import opened Boards

  type Tid = nat

  datatype Stage = Locking | PinsChosen | Checked(seen: Db)

  datatype Txn = Txn(
    op: Op, probed: set<BoardId>, stage: Stage,
    wantBoards: set<BoardId>, boards: set<BoardId>,
    wantPins: set<PinId>, pins: set<PinId>)

  /** `edits` holds Pin instances loaded without a lock by edits that do not change privacy. */
  datatype State = State(db: Db, txns: map<Tid, Txn>, edits: map<Tid, (PinId, Pin)>)

  datatype Action =
    | Begin(t: Tid, op: Op)
    | LockBoard(t: Tid, b: BoardId)
    | ChoosePins(t: Tid)
    | LockPin(t: Tid, p: PinId)
    | SkipPin(t: Tid, p: PinId)
    | Check(t: Tid)
    | Commit(t: Tid)
    | Abort(t: Tid)
    | NewBoard(b: BoardId, user: User, private: bool)
    | ImportPin(p: PinId, user: User, private: bool, into: set<BoardId>)
    | DeleteLegacyPin(p: PinId)
    | LoadEdit(t: Tid, p: PinId)
    | SaveEdit(t: Tid)

  predicate BoardFree(s: State, b: BoardId) {
    forall t :: t in s.txns ==> b !in s.txns[t].boards
  }

  predicate PinFree(s: State, p: PinId) {
    forall t :: t in s.txns ==> p !in s.txns[t].pins
  }

  ghost predicate Enabled(s: State, a: Action) {
    match a
    case Begin(t, op) => t !in s.txns
    case LockBoard(t, b) =>
      t in s.txns && b in s.txns[t].wantBoards && b in s.db.boards && BoardFree(s, b)
    case ChoosePins(t) =>
      t in s.txns && s.txns[t].stage.Locking? && s.txns[t].wantBoards == {}
    case LockPin(t, p) =>
      t in s.txns && p in s.txns[t].wantPins && p in s.db.pins && PinFree(s, p)
    case SkipPin(t, p) =>
      t in s.txns && p in s.txns[t].wantPins && p !in s.db.pins
      && (s.txns[t].op.UpdateBoard? || s.txns[t].op.DeleteBoard?)
    case Check(t) =>
      && t in s.txns && s.txns[t].stage.PinsChosen? && s.txns[t].wantPins == {}
      && Accepts(s.txns[t].op, s.txns[t].probed, s.db)
    case Commit(t) => t in s.txns && s.txns[t].stage.Checked?
    case Abort(t) => t in s.txns
    case NewBoard(b, _, _) => b !in s.db.boards
    case ImportPin(p, user, _, into) =>
      p !in s.db.pins && forall b :: b in into ==> OwnedBoard(s.db, user, b) && BoardFree(s, b)
    case DeleteLegacyPin(p) =>
      p in s.db.pins && PinFree(s, p) && forall b :: Covers(s.db, b, p) ==> BoardFree(s, b)
    case LoadEdit(t, p) => t !in s.edits && p in s.db.pins
    case SaveEdit(t) => t in s.edits && PinFree(s, s.edits[t].0)
  }

  function Ended(s: State, t: Tid, db: Db): State {
    s.(db := db, txns := map u | u in s.txns && u != t :: s.txns[u])
  }

  function Put(s: State, t: Tid, x: Txn): State {
    s.(txns := s.txns[t := x])
  }

  function CommittedDb(s: State, t: Tid): Db
    requires t in s.txns && s.txns[t].stage.Checked?
  {
    var x := s.txns[t];
    Effect(x.op, x.probed, x.pins, x.stage.seen, s.db)
  }

  /** The whole row is written back as it was loaded; a vanished row is inserted again. */
  function SavedDb(s: State, t: Tid): Db
    requires t in s.edits
  {
    s.db.(pins := s.db.pins[s.edits[t].0 := s.edits[t].1])
  }

  function Imported(db: Db, p: PinId, row: Pin, into: set<BoardId>): Db {
    db.(pins := db.pins[p := row], members := db.members + set b | b in into :: (b, p))
  }

  ghost function Apply(s: State, a: Action): State
    requires Enabled(s, a)
  {
    match a
    case Begin(t, op) =>
      var probed := Probed(op, s.db);
      Put(s, t, Txn(op, probed, Locking, BoardsToLock(op, probed), {}, {}, {}))
    case LockBoard(t, b) =>
      var x := s.txns[t];
      Put(s, t, x.(wantBoards := x.wantBoards - {b}, boards := x.boards + {b}))
    case ChoosePins(t) =>
      var x := s.txns[t];
      Put(s, t, x.(stage := PinsChosen, wantPins := PinsToLock(x.op, s.db)))
    case LockPin(t, p) =>
      var x := s.txns[t];
      Put(s, t, x.(wantPins := x.wantPins - {p}, pins := x.pins + {p}))
    case SkipPin(t, p) =>
      var x := s.txns[t];
      Put(s, t, x.(wantPins := x.wantPins - {p}))
    case Check(t) =>
      Put(s, t, s.txns[t].(stage := Checked(s.db)))
    case Commit(t) => Ended(s, t, CommittedDb(s, t))
    case Abort(t) => Ended(s, t, s.db)
    case NewBoard(b, user, private) => s.(db := s.db.(boards := s.db.boards[b := Board(user, private, None)]))
    case ImportPin(p, user, private, into) => s.(db := Imported(s.db, p, Pin(user, private), into))
    case DeleteLegacyPin(p) => s.(db := RemovePin(s.db, p))
    case LoadEdit(t, p) => s.(edits := s.edits[t := (p, s.db.pins[p])])
    case SaveEdit(t) => s.(db := SavedDb(s, t), edits := map u | u in s.edits && u != t :: s.edits[u])
  }

  /** The edit would make a public board's cover private again. */
  ghost predicate Unsafe(s: State, a: Action) {
    a.SaveEdit? && a.t in s.edits && s.edits[a.t].1.private
    && exists b :: Covers(s.db, b, s.edits[a.t].0) && !s.db.boards[b].private
  }

  ghost predicate Run(s: State, run: seq<Action>, t: State)
    decreases |run|
  {
    if run == [] then s == t
    else Enabled(s, run[0]) && Run(Apply(s, run[0]), run[1..], t)
  }

  /** A run without an unsafe edit. */
  ghost predicate SafeRun(s: State, run: seq<Action>, t: State)
    decreases |run|
  {
    if run == [] then s == t
    else Enabled(s, run[0]) && !Unsafe(s, run[0]) && SafeRun(Apply(s, run[0]), run[1..], t)
  }

  // ---------------------------------------------------------------- the invariant

  ghost predicate Exclusive(s: State) {
    forall t, u :: t in s.txns && u in s.txns && t != u ==>
      s.txns[t].boards !! s.txns[u].boards && s.txns[t].pins !! s.txns[u].pins
  }

  /** What a transaction may rely on at its stage. */
  ghost predicate TxnOk(db: Db, x: Txn) {
    && (forall b :: b in x.boards ==> b in db.boards)
    && (forall p :: p in x.pins ==> p in db.pins)
    && BoardsToLock(x.op, x.probed) == x.wantBoards + x.boards
    && (x.stage.Locking? ==> x.pins == {} && x.wantPins == {})
    && (!x.stage.Locking? ==> x.wantBoards == {} && PinsCovered(db, x))
    && (x.stage.Checked? ==>
          && x.wantPins == {} && Accepts(x.op, x.probed, x.stage.seen) && MembersExist(x.stage.seen)
          && Agree(db, x.stage.seen, x.boards, x.pins) && Closed(x.op, db, x.boards))
  }

  /** Every Pin the transaction must lock is locked or still wanted. */
  ghost predicate PinsCovered(db: Db, x: Txn) {
    match x.op
    case UpdateBoard(_, b, _, _, _) =>
      b in db.boards && db.boards[b].cover.Some? ==> db.boards[b].cover.value in x.wantPins + x.pins
    case DeleteBoard(_, _) => true
    case _ => PinsToLock(x.op, db) <= x.wantPins + x.pins
  }

  ghost predicate Inv(s: State) {
    DbInv(s.db) && Exclusive(s) && forall t :: t in s.txns ==> TxnOk(s.db, s.txns[t])
  }
}
