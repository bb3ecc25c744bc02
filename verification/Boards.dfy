/**
 Boards, their member Pins and their covers: what each service transaction
 checks under its row locks, and what it then writes.
 */
module Boards {
  import opened Wrappers

  type User = nat
  type BoardId = nat
  type PinId = nat

  datatype Board = Board(owner: User, private: bool, cover: Option<PinId>)

  datatype Pin = Pin(owner: User, private: bool)

  /** Committed rows; `members` is the through table. */
  datatype Db = Db(boards: map<BoardId, Board>, pins: map<PinId, Pin>, members: set<(BoardId, PinId)>)

  datatype Op =
    | SetCover(user: User, board: BoardId, pin: Option<PinId>)
    | SetPrivacy(user: User, targets: set<PinId>, private: bool)
    | AddPins(user: User, board: BoardId, targets: set<PinId>)
    | MovePins(user: User, source: BoardId, target: BoardId, targets: set<PinId>)
    | UpdateBoard(user: User, board: BoardId, newPrivate: Option<bool>, add: set<PinId>, remove: set<PinId>)
    | DeletePin(doomed: PinId)
    | DeleteExclusive(user: User, doomed: PinId, source: BoardId)
    | DeleteBoard(user: User, board: BoardId)

  // ---------------------------------------------------------------- reading

  predicate OwnedBoard(db: Db, user: User, b: BoardId) {
    b in db.boards && db.boards[b].owner == user
  }

  predicate Covers(db: Db, b: BoardId, p: PinId) {
    b in db.boards && db.boards[b].cover == Some(p)
  }

  /** Public boards that show one of the Pins as their cover. */
  function PublicCovered(db: Db, targets: set<PinId>): set<BoardId> {
    set b | b in db.boards && !db.boards[b].private && db.boards[b].cover.Some? && db.boards[b].cover.value in targets
  }

  /** Boards that contain the Pin or show it as their cover. */
  function BoardsOf(db: Db, p: PinId): set<BoardId> {
    set b | b in db.boards && ((b, p) in db.members || Covers(db, b, p))
  }

  function MembersOf(db: Db, b: BoardId): set<PinId> {
    set m | m in db.members && m.0 == b :: m.1
  }

  /** Own Pins and public Pins. */
  predicate Visible(db: Db, user: User, p: PinId) {
    p in db.pins && (!db.pins[p].private || db.pins[p].owner == user)
  }

  // ---------------------------------------------------------------- locks a transaction takes

  predicate Probes(op: Op) {
    (op.SetPrivacy? && op.private) || op.DeletePin?
  }

  /** Boards found by the unlocked probe. */
  function Probed(op: Op, db: Db): set<BoardId> {
    match op
    case SetPrivacy(_, targets, private) => if private then PublicCovered(db, targets) else {}
    case DeletePin(p) => BoardsOf(db, p)
    case _ => {}
  }

  /** Boards to lock, before any Pin. */
  function BoardsToLock(op: Op, probed: set<BoardId>): set<BoardId> {
    match op
    case SetCover(_, b, _) => {b}
    case SetPrivacy(_, _, _) => probed
    case AddPins(_, b, _) => {b}
    case MovePins(_, source, target, _) => {source, target}
    case UpdateBoard(_, b, _, _, _) => {b}
    case DeletePin(_) => probed
    case DeleteExclusive(_, _, source) => {source}
    case DeleteBoard(_, b) => {b}
  }

  /** Pins to lock; read once all boards are locked. */
  function PinsToLock(op: Op, db: Db): set<PinId> {
    match op
    case SetCover(_, _, pin) => if pin.Some? then {pin.value} else {}
    case SetPrivacy(_, targets, _) => targets
    case AddPins(_, _, targets) => targets
    case MovePins(_, _, _, targets) => targets
    case UpdateBoard(_, b, _, add, remove) =>
      add + remove + (if b in db.boards && db.boards[b].cover.Some? then {db.boards[b].cover.value} else {})
    case DeletePin(p) => {p}
    case DeleteExclusive(_, p, _) => {p}
    case DeleteBoard(_, b) => MembersOf(db, b)
  }

  // ---------------------------------------------------------------- checks under the locks

  /** Whether the transaction goes on to write; otherwise it rolls back with an error. */
  ghost predicate Accepts(op: Op, probed: set<BoardId>, seen: Db) {
    match op
    case SetCover(user, b, pin) =>
      && OwnedBoard(seen, user, b)
      && (pin.Some? ==>
            && pin.value in seen.pins && (b, pin.value) in seen.members
            && !(seen.pins[pin.value].private && seen.pins[pin.value].owner != user)
            && (seen.boards[b].private || !seen.pins[pin.value].private))
    case SetPrivacy(user, targets, private) =>
      && (forall p :: p in targets ==> p in seen.pins && seen.pins[p].owner == user)
      && (private ==> PublicCovered(seen, targets) == probed)
    case AddPins(user, b, targets) =>
      && OwnedBoard(seen, user, b)
      && (forall p :: p in targets ==> p in seen.pins && seen.pins[p].owner == user)
    case MovePins(user, source, target, targets) =>
      && OwnedBoard(seen, user, source) && OwnedBoard(seen, user, target)
      && (forall p :: p in targets ==>
            Visible(seen, user, p) && ((source, p) in seen.members || (target, p) in seen.members))
    case UpdateBoard(user, b, _, _, _) =>
      OwnedBoard(seen, user, b)
    case DeletePin(p) =>
      p in seen.pins && BoardsOf(seen, p) == probed
    case DeleteExclusive(user, p, source) =>
      && source in seen.boards && p in seen.pins && (source, p) in seen.members
      && seen.pins[p].owner == user
      && (forall b :: (b, p) in seen.members ==> b == source)
    case DeleteBoard(user, b) =>
      OwnedBoard(seen, user, b)
  }

  // ---------------------------------------------------------------- writes

  function PutCover(db: Db, b: BoardId, cover: Option<PinId>): Db
    requires b in db.boards
  {
    db.(boards := db.boards[b := db.boards[b].(cover := cover)])
  }

  /** Deleting a Pin row drops its memberships and empties the covers that show it. */
  function RemovePin(db: Db, p: PinId): Db {
    Db(map b | b in db.boards :: if db.boards[b].cover == Some(p) then db.boards[b].(cover := None) else db.boards[b],
       map q | q in db.pins && q != p :: db.pins[q],
       set m | m in db.members && m.1 != p)
  }

  function RemoveBoard(db: Db, b: BoardId): Db {
    Db(map c | c in db.boards && c != b :: db.boards[c], db.pins, set m | m in db.members && m.0 != b)
  }

  function Join(b: BoardId, ps: set<PinId>): set<(BoardId, PinId)> {
    set p | p in ps :: (b, p)
  }

  function Moved(db: Db, seen: Db, source: BoardId, target: BoardId, targets: set<PinId>): Db
    requires source in db.boards && source in seen.boards
  {
    var removed := set p | p in targets && (source, p) in seen.members;
    var added := set p | p in targets && (target, p) !in seen.members;
    var cover := seen.boards[source].cover;
    var db1 := if cover.Some? && cover.value in removed then PutCover(db, source, None) else db;
    db1.(members := db.members - Join(source, removed) + Join(target, added))
  }

  /** The board as saved, its membership changed, and the cover emptied when it no longer fits. */
  function Updated(db: Db, seen: Db, op: Op, locked: set<PinId>): Db
    requires op.UpdateBoard? && op.board in db.boards && op.board in seen.boards
  {
    var b := op.board;
    var private := if op.newPrivate.Some? then op.newPrivate.value else seen.boards[b].private;
    var added := set p | p in op.add && p in locked && Visible(seen, op.user, p);
    var removed := set p | p in op.remove && p in locked && Visible(seen, op.user, p);
    var members := db.members + Join(b, added) - Join(b, removed);
    var cover := seen.boards[b].cover;
    var kept :=
      cover.Some?
      && !(cover.value in removed && (b, cover.value) in seen.members)
      && cover.value in seen.pins && (b, cover.value) in members
      && (private || !seen.pins[cover.value].private);
    Db(db.boards[b := Board(seen.boards[b].owner, private, if kept then cover else None)], db.pins, members)
  }

  /** The committed state after the transaction; what it decided from `seen` is applied to `db`. */
  function Effect(op: Op, probed: set<BoardId>, locked: set<PinId>, seen: Db, db: Db): Db {
    match op
    case SetCover(_, b, pin) => if b in db.boards then PutCover(db, b, pin) else db
    case SetPrivacy(_, targets, private) =>
      Db(map b | b in db.boards ::
           if private && b in probed && !db.boards[b].private && db.boards[b].cover.Some? && db.boards[b].cover.value in targets
           then db.boards[b].(cover := None) else db.boards[b],
         map p | p in db.pins :: if p in targets then db.pins[p].(private := private) else db.pins[p],
         db.members)
    case AddPins(_, b, targets) =>
      db.(members := db.members + Join(b, set p | p in targets && (b, p) !in seen.members))
    case MovePins(_, source, target, targets) =>
      if source in db.boards && source in seen.boards then Moved(db, seen, source, target, targets) else db
    case UpdateBoard(_, b, _, _, _) =>
      if b in db.boards && b in seen.boards then Updated(db, seen, op, locked) else db
    case DeletePin(p) => RemovePin(db, p)
    case DeleteExclusive(_, p, _) => RemovePin(db, p)
    case DeleteBoard(_, b) => RemoveBoard(db, b)
  }

  // ---------------------------------------------------------------- the invariant

  /** Empty, or a member Pin that everyone who sees the board may see. */
  predicate CoverOk(db: Db, b: BoardId)
    requires b in db.boards
  {
    db.boards[b].cover.Some? ==>
      var p := db.boards[b].cover.value;
      p in db.pins && (b, p) in db.members && (db.boards[b].private || !db.pins[p].private)
  }

  ghost predicate CoversOk(db: Db) {
    forall b :: b in db.boards ==> CoverOk(db, b)
  }

  /** Foreign keys of the through table. */
  ghost predicate MembersExist(db: Db) {
    forall m :: m in db.members ==> m.0 in db.boards && m.1 in db.pins
  }

  ghost predicate DbInv(db: Db) {
    CoversOk(db) && MembersExist(db)
  }

  // ---------------------------------------------------------------- locked slices

  /** Both agree on every locked board row, locked Pin row, and membership between them. */
  ghost predicate Agree(db: Db, seen: Db, boards: set<BoardId>, pins: set<PinId>) {
    && (forall b :: b in boards ==> b in db.boards && b in seen.boards && db.boards[b] == seen.boards[b])
    && (forall p :: p in pins ==> p in db.pins && p in seen.pins && db.pins[p] == seen.pins[p])
    && (forall b, p :: b in boards && p in pins ==> ((b, p) in db.members <==> (b, p) in seen.members))
  }

  /** Boards outside the locked ones that matter to this transaction: there must be none. */
  ghost predicate Closed(op: Op, db: Db, boards: set<BoardId>) {
    match op
    case SetPrivacy(_, targets, private) => private ==> PublicCovered(db, targets) <= boards
    case DeletePin(p) => BoardsOf(db, p) <= boards
    case DeleteExclusive(_, p, source) => forall b :: (b, p) in db.members ==> b == source
    case _ => true
  }

  /** From `db` to `after`, rows are written only inside the given boards and Pins. */
  ghost predicate Within(db: Db, after: Db, boards: set<BoardId>, pins: set<PinId>) {
    && (forall b :: b !in boards ==> (b in db.boards <==> b in after.boards)
                                     && (b in db.boards ==> db.boards[b] == after.boards[b]))
    && (forall p :: p !in pins ==> (p in db.pins <==> p in after.pins)
                                   && (p in db.pins ==> db.pins[p] == after.pins[p]))
    && (forall m :: m in after.members && m !in db.members ==> m.0 in boards && m.1 in pins)
    && (forall m :: m in db.members && m !in after.members ==> m.0 in boards || m.1 in pins)
    && (forall b, p :: p !in pins && Covers(after, b, p) ==>
          Covers(db, b, p) && (!after.boards[b].private ==> !db.boards[b].private))
  }
}
