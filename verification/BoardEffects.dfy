/** What each accepted transaction does to boards, Pins and memberships, row by row. */
module BoardEffects {
  import opened Wrappers
  import opened Boards
  import opened BoardMachine
  import opened BoardProofs

  // ---------------------------------------------------------------- row by row

  /** All boards stay as they are but for the covers, which are now as `cover` says. */
  ghost predicate OnlyCovers(before: Db, after: Db, cover: BoardId -> Option<PinId>) {
    && (forall b :: b in after.boards <==> b in before.boards)
    && (forall b :: b in before.boards ==>
          && after.boards[b].owner == before.boards[b].owner && after.boards[b].private == before.boards[b].private
          && after.boards[b].cover == cover(b))
  }

  function CoverOf(db: Db, b: BoardId): Option<PinId> {
    if b in db.boards then db.boards[b].cover else None
  }

  /** Each target has the asked privacy and its old owner; public boards no longer show a Pin made private. */
  ghost predicate PrivacySet(before: Db, after: Db, targets: set<PinId>, private: bool) {
    && (forall p :: p in after.pins <==> p in before.pins)
    && (forall p :: p in before.pins ==>
          && after.pins[p].owner == before.pins[p].owner
          && after.pins[p].private == if p in targets then private else before.pins[p].private)
    && after.members == before.members
    && OnlyCovers(before, after, b =>
         if private && b in before.boards && !before.boards[b].private
            && CoverOf(before, b).Some? && CoverOf(before, b).value in targets
         then None else CoverOf(before, b))
  }

  ghost predicate CoverSet(before: Db, after: Db, b: BoardId, pin: Option<PinId>) {
    && after.pins == before.pins && after.members == before.members
    && OnlyCovers(before, after, c => if c == b then pin else CoverOf(before, c))
  }

  ghost predicate PinsAdded(before: Db, after: Db, b: BoardId, targets: set<PinId>) {
    && after.pins == before.pins && after.boards == before.boards
    && (forall c, p :: (c, p) in after.members <==> (c, p) in before.members || (c == b && p in targets))
  }

  /** Every target leaves the source and is in the target board; the source no longer shows one that it had. */
  ghost predicate PinsMoved(before: Db, after: Db, source: BoardId, target: BoardId, targets: set<PinId>) {
    && after.pins == before.pins
    && (forall c, p :: (c, p) in after.members <==>
          if p in targets && c == source then false
          else if p in targets && c == target then true
          else (c, p) in before.members)
    && OnlyCovers(before, after, c =>
         if c == source && CoverOf(before, c).Some? && CoverOf(before, c).value in targets
            && (source, CoverOf(before, c).value) in before.members
         then None else CoverOf(before, c))
  }

  /** A Pin that the user may see and that the transaction found. */
  predicate Seen(db: Db, user: User, locked: set<PinId>, p: PinId) {
    p in locked && p in db.pins && (db.pins[p].private ==> db.pins[p].owner == user)
  }

  /** Asked Pins come, then asked Pins go, as far as they are seen; the cover stays exactly if it still fits. */
  ghost predicate BoardUpdated(before: Db, after: Db, user: User, b: BoardId, newPrivate: Option<bool>,
                               add: set<PinId>, remove: set<PinId>, locked: set<PinId>)
    requires b in before.boards
  {
    && after.pins == before.pins
    && (forall c, p :: (c, p) in after.members <==>
          if c == b && p in remove && Seen(before, user, locked, p) then false
          else (c, p) in before.members || (c == b && p in add && Seen(before, user, locked, p)))
    && (forall c :: c in after.boards <==> c in before.boards)
    && (forall c :: c in before.boards && c != b ==> after.boards[c] == before.boards[c])
    && after.boards[b].owner == before.boards[b].owner
    && after.boards[b].private == (match newPrivate case Some(v) => v case None => before.boards[b].private)
    && (var cover := before.boards[b].cover;
        after.boards[b].cover ==
        if cover.Some? && (b, cover.value) in after.members && cover.value in before.pins
           && (after.boards[b].private || !before.pins[cover.value].private)
        then cover else None)
  }

  ghost predicate PinGone(before: Db, after: Db, p: PinId) {
    && (forall q :: q in after.pins <==> q in before.pins && q != p)
    && (forall q :: q in after.pins ==> after.pins[q] == before.pins[q])
    && (forall c, q :: (c, q) in after.members <==> (c, q) in before.members && q != p)
    && OnlyCovers(before, after, c => if CoverOf(before, c) == Some(p) then None else CoverOf(before, c))
  }

  ghost predicate BoardGone(before: Db, after: Db, b: BoardId) {
    && after.pins == before.pins
    && (forall c :: c in after.boards <==> c in before.boards && c != b)
    && (forall c :: c in after.boards ==> after.boards[c] == before.boards[c])
    && (forall c, q :: (c, q) in after.members <==> (c, q) in before.members && c != b)
  }

  ghost predicate Does(op: Op, locked: set<PinId>, before: Db, after: Db) {
    match op
    case SetCover(_, b, pin) => CoverSet(before, after, b, pin)
    case SetPrivacy(_, targets, private) => PrivacySet(before, after, targets, private)
    case AddPins(_, b, targets) => PinsAdded(before, after, b, targets)
    case MovePins(_, source, target, targets) => source != target ==> PinsMoved(before, after, source, target, targets)
    case UpdateBoard(user, b, newPrivate, add, remove) =>
      b in before.boards && BoardUpdated(before, after, user, b, newPrivate, add, remove, locked)
    case DeletePin(p) => PinGone(before, after, p)
    case DeleteExclusive(_, p, _) => PinGone(before, after, p)
    case DeleteBoard(_, b) => BoardGone(before, after, b)
  }

  // ---------------------------------------------------------------- a single transaction

  lemma MovedMeans(db: Db, seen: Db, source: BoardId, target: BoardId, targets: set<PinId>)
    requires source != target && source in db.boards && source in seen.boards && db.boards[source] == seen.boards[source]
    requires forall p :: p in targets ==> ((source, p) in db.members <==> (source, p) in seen.members)
    requires forall p :: p in targets ==> ((target, p) in db.members <==> (target, p) in seen.members)
    requires forall p :: p in targets ==> (source, p) in db.members || (target, p) in db.members
    ensures PinsMoved(db, Moved(db, seen, source, target, targets), source, target, targets)
  {
  }

  lemma UpdatedMeans(db: Db, seen: Db, op: Op, locked: set<PinId>)
    requires op.UpdateBoard? && op.board in db.boards && op.board in seen.boards
    requires db.boards[op.board] == seen.boards[op.board]
    requires forall p :: p in locked ==> (p in db.pins <==> p in seen.pins) && (p in db.pins ==> db.pins[p] == seen.pins[p])
    requires forall p :: p in locked ==> ((op.board, p) in db.members <==> (op.board, p) in seen.members)
    requires var cover := db.boards[op.board].cover;
             cover.Some? ==>
               && (cover.value in db.pins <==> cover.value in seen.pins)
               && (cover.value in db.pins ==> db.pins[cover.value] == seen.pins[cover.value])
               && ((op.board, cover.value) in db.members <==> (op.board, cover.value) in seen.members)
    ensures BoardUpdated(db, Updated(db, seen, op, locked), op.user, op.board, op.newPrivate, op.add, op.remove, locked)
  {
  }

  /** What an accepted transaction commits is exactly its effect on the rows as they are then. */
  lemma CommitMeans(db: Db, x: Txn)
    requires DbInv(db) && TxnOk(db, x) && x.stage.Checked?
    ensures Does(x.op, x.pins, db, Effect(x.op, x.probed, x.pins, x.stage.seen, db))
  {
    match x.op
    case SetCover(_, _, _) =>
    case SetPrivacy(_, targets, private) => PrivacyMeans(db, x);
    case AddPins(_, _, _) =>
    case MovePins(_, source, target, targets) =>
      if source != target { MovedMeans(db, x.stage.seen, source, target, targets); }
    case UpdateBoard(_, _, _, _, _) => UpdatedMeans(db, x.stage.seen, x.op, x.pins);
    case DeletePin(_) =>
    case DeleteExclusive(_, _, _) =>
    case DeleteBoard(_, _) =>
  }

  lemma PrivacyMeans(db: Db, x: Txn)
    requires TxnOk(db, x) && x.stage.Checked? && x.op.SetPrivacy?
    ensures Does(x.op, x.pins, db, Effect(x.op, x.probed, x.pins, x.stage.seen, db))
  {
    forall b | b in db.boards && x.op.private && !db.boards[b].private && db.boards[b].cover.Some?
               && db.boards[b].cover.value in x.op.targets
      ensures b in x.probed
    {
      assert b in PublicCovered(db, x.op.targets);
    }
  }

  /** In every run without an unsafe edit. */
  lemma CommitsDoWhatIsAsked(s: State, run: seq<Action>, t: State, id: Tid)
    requires Start(s) && SafeRun(s, run, t) && Enabled(t, Commit(id))
    ensures Does(t.txns[id].op, t.txns[id].pins, t.db, Apply(t, Commit(id)).db)
  {
    SafeRunKeepsInv(s, run, t);
    CommitMeans(t.db, t.txns[id]);
  }

  // ---------------------------------------------------------------- who may do what

  /** A user changes own boards and own Pins, and moves Pins that they may see. */
  ghost predicate Permitted(op: Op, db: Db) {
    match op
    case SetCover(user, b, pin) =>
      && b in db.boards && db.boards[b].owner == user
      && (pin.Some? ==> pin.value in db.pins && (b, pin.value) in db.members
                        && (db.pins[pin.value].private ==> db.pins[pin.value].owner == user && db.boards[b].private))
    case SetPrivacy(user, targets, _) => forall p :: p in targets ==> p in db.pins && db.pins[p].owner == user
    case AddPins(user, b, targets) =>
      && b in db.boards && db.boards[b].owner == user
      && (forall p :: p in targets ==> p in db.pins && db.pins[p].owner == user)
    case MovePins(user, source, target, targets) =>
      && source in db.boards && db.boards[source].owner == user && target in db.boards && db.boards[target].owner == user
      && (forall p :: p in targets ==>
            && p in db.pins && (db.pins[p].private ==> db.pins[p].owner == user)
            && ((source, p) in db.members || (target, p) in db.members))
    case UpdateBoard(user, b, _, _, _) => b in db.boards && db.boards[b].owner == user
    case DeletePin(p) => p in db.pins
    case DeleteExclusive(user, p, source) =>
      && p in db.pins && db.pins[p].owner == user && (source, p) in db.members
      && (forall b :: (b, p) in db.members ==> b == source)
    case DeleteBoard(user, b) => b in db.boards && db.boards[b].owner == user
  }

  /** What was checked under the locks still holds of the rows at the commit. */
  lemma CommitIsPermitted(db: Db, x: Txn)
    requires TxnOk(db, x) && x.stage.Checked?
    ensures Permitted(x.op, db)
  {
  }

  /** Checked in one go, a transaction is accepted exactly when it is permitted and its probe missed nothing. */
  lemma AcceptsMeans(op: Op, probed: set<BoardId>, db: Db)
    ensures Accepts(op, probed, db) <==>
              && Permitted(op, db)
              && (op.DeleteExclusive? ==> op.source in db.boards)
              && (op.SetPrivacy? && op.private ==>
                    forall b :: b in probed <==> b in db.boards && !db.boards[b].private
                                                 && CoverOf(db, b).Some? && CoverOf(db, b).value in op.targets)
              && (op.DeletePin? ==>
                    forall b :: b in probed <==> b in db.boards && ((b, op.doomed) in db.members || CoverOf(db, b) == Some(op.doomed)))
  {
    match op
    case SetPrivacy(_, targets, private) =>
      assert forall b :: b in PublicCovered(db, targets) <==>
          b in db.boards && !db.boards[b].private && CoverOf(db, b).Some? && CoverOf(db, b).value in targets;
    case DeletePin(p) =>
      assert forall b :: b in BoardsOf(db, p) <==> b in db.boards && ((b, p) in db.members || CoverOf(db, b) == Some(p));
    case _ =>
  }
}
