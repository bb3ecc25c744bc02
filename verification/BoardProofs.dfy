/** Locked slices are stable, and every commit keeps every board's cover valid. */
module BoardProofs {
  import opened Wrappers
  import opened Boards
  import opened BoardMachine

  // ---------------------------------------------------------------- what a commit writes

  lemma RemovePinWithin(db: Db, p: PinId, boards: set<BoardId>)
    requires forall b :: Covers(db, b, p) ==> b in boards
    ensures Within(db, RemovePin(db, p), boards, {p})
  {
  }

  lemma CoverWithin(db: Db, x: Txn)
    requires TxnOk(db, x) && x.stage.Checked? && (x.op.SetCover? || x.op.SetPrivacy?)
    ensures Within(db, Effect(x.op, x.probed, x.pins, x.stage.seen, db), x.boards, x.pins)
  {
  }

  lemma AddWithin(db: Db, x: Txn)
    requires TxnOk(db, x) && x.stage.Checked? && x.op.AddPins?
    ensures Within(db, Effect(x.op, x.probed, x.pins, x.stage.seen, db), x.boards, x.pins)
  {
  }

  lemma MoveWithin(db: Db, x: Txn)
    requires TxnOk(db, x) && x.stage.Checked? && x.op.MovePins?
    ensures Within(db, Effect(x.op, x.probed, x.pins, x.stage.seen, db), x.boards, x.pins)
  {
  }

  lemma UpdateWithin(db: Db, x: Txn)
    requires TxnOk(db, x) && x.stage.Checked? && x.op.UpdateBoard?
    ensures Within(db, Effect(x.op, x.probed, x.pins, x.stage.seen, db), x.boards, x.pins)
  {
  }

  lemma CommitWithin(db: Db, x: Txn)
    requires DbInv(db) && TxnOk(db, x) && x.stage.Checked?
    ensures Within(db, Effect(x.op, x.probed, x.pins, x.stage.seen, db), x.boards, x.pins)
  {
    match x.op
    case DeletePin(p) => RemovePinWithin(db, p, x.boards);
    case DeleteExclusive(_, p, source) =>
      forall b | Covers(db, b, p) ensures b in x.boards { assert CoverOk(db, b); }
      RemovePinWithin(db, p, x.boards);
    case SetCover(_, _, _) => CoverWithin(db, x);
    case SetPrivacy(_, _, _) => CoverWithin(db, x);
    case AddPins(_, _, _) => AddWithin(db, x);
    case MovePins(_, _, _, _) => MoveWithin(db, x);
    case UpdateBoard(_, _, _, _, _) => UpdateWithin(db, x);
    case DeleteBoard(_, _) =>
  }

  lemma StaysClosed(db: Db, after: Db, boards: set<BoardId>, pins: set<PinId>, x: Txn)
    requires Within(db, after, boards, pins) && pins !! x.pins
    requires x.stage.Checked? && TxnOk(db, x) && MembersExist(db)
    ensures Closed(x.op, after, x.boards)
  {
    match x.op
    case SetPrivacy(_, targets, private) =>
      forall b | b in PublicCovered(after, targets) && private ensures b in x.boards {
        var p := after.boards[b].cover.value;
        assert p in x.pins && Covers(after, b, p);
        assert b in PublicCovered(db, targets);
      }
    case DeletePin(p) =>
      assert p in x.pins;
      forall b | b in BoardsOf(after, p) ensures b in x.boards {
        assert (b, p) in after.members ==> (b, p) in db.members;
        assert Covers(after, b, p) ==> Covers(db, b, p);
        assert b in BoardsOf(db, p);
      }
    case DeleteExclusive(_, p, _) =>
      assert p in x.pins;
    case _ =>
  }

  /** A transaction whose locks a write stays away from keeps everything it relies on. */
  lemma OthersStay(db: Db, after: Db, boards: set<BoardId>, pins: set<PinId>, x: Txn)
    requires Within(db, after, boards, pins) && boards !! x.boards && pins !! x.pins
    requires TxnOk(db, x) && MembersExist(db)
    ensures TxnOk(after, x)
  {
    if x.stage.Checked? { StaysClosed(db, after, boards, pins, x); }
  }

  // ---------------------------------------------------------------- covers after a commit

  /** Rows outside the written ones keep a valid cover unless their cover Pin is written. */
  lemma RemovePinKeepsCovers(db: Db, p: PinId)
    requires DbInv(db)
    ensures DbInv(RemovePin(db, p))
  {
    forall b | b in db.boards ensures CoverOk(RemovePin(db, p), b) { assert CoverOk(db, b); }
  }

  lemma SetCoverKeeps(db: Db, x: Txn)
    requires DbInv(db) && TxnOk(db, x) && x.stage.Checked? && x.op.SetCover?
    ensures DbInv(Effect(x.op, x.probed, x.pins, x.stage.seen, db))
  {
    var b, after := x.op.board, Effect(x.op, x.probed, x.pins, x.stage.seen, db);
    assert b in x.boards;
    if x.op.pin.Some? { assert x.op.pin.value in x.pins; }
    forall c | c in after.boards ensures CoverOk(after, c) { assert CoverOk(db, c); }
  }

  lemma SetPrivacyKeeps(db: Db, x: Txn)
    requires DbInv(db) && TxnOk(db, x) && x.stage.Checked? && x.op.SetPrivacy?
    ensures DbInv(Effect(x.op, x.probed, x.pins, x.stage.seen, db))
  {
    var after := Effect(x.op, x.probed, x.pins, x.stage.seen, db);
    forall c | c in after.boards ensures CoverOk(after, c) {
      assert CoverOk(db, c);
      if c in PublicCovered(db, x.op.targets) { assert x.op.private ==> c in x.boards; }
    }
  }

  lemma MembershipKeeps(db: Db, x: Txn)
    requires DbInv(db) && TxnOk(db, x) && x.stage.Checked? && (x.op.AddPins? || x.op.MovePins?)
    ensures DbInv(Effect(x.op, x.probed, x.pins, x.stage.seen, db))
  {
    var after := Effect(x.op, x.probed, x.pins, x.stage.seen, db);
    forall c | c in after.boards ensures CoverOk(after, c) { assert CoverOk(db, c); }
  }

  lemma UpdateBoardKeeps(db: Db, x: Txn)
    requires DbInv(db) && TxnOk(db, x) && x.stage.Checked? && x.op.UpdateBoard?
    ensures DbInv(Effect(x.op, x.probed, x.pins, x.stage.seen, db))
  {
    var after, b := Effect(x.op, x.probed, x.pins, x.stage.seen, db), x.op.board;
    assert b in x.boards;
    forall c | c in after.boards ensures CoverOk(after, c) { assert CoverOk(db, c); }
  }

  lemma CommitKeepsDb(db: Db, x: Txn)
    requires DbInv(db) && TxnOk(db, x) && x.stage.Checked?
    ensures DbInv(Effect(x.op, x.probed, x.pins, x.stage.seen, db))
  {
    match x.op
    case SetCover(_, _, _) => SetCoverKeeps(db, x);
    case SetPrivacy(_, _, _) => SetPrivacyKeeps(db, x);
    case AddPins(_, _, _) => MembershipKeeps(db, x);
    case MovePins(_, _, _, _) => MembershipKeeps(db, x);
    case UpdateBoard(_, _, _, _, _) => UpdateBoardKeeps(db, x);
    case DeletePin(p) => RemovePinKeepsCovers(db, p);
    case DeleteExclusive(_, p, _) => RemovePinKeepsCovers(db, p);
    case DeleteBoard(_, b) =>
      forall c | c in db.boards && c != b ensures CoverOk(RemoveBoard(db, b), c) { assert CoverOk(db, c); }
  }

  // ---------------------------------------------------------------- steps

  /** A write stays away from the locks of every transaction but `t`. */
  lemma WriteKeepsTxns(s: State, s': State, boards: set<BoardId>, pins: set<PinId>)
    requires Inv(s) && Within(s.db, s'.db, boards, pins)
    requires forall u :: u in s'.txns ==> u in s.txns && s'.txns[u] == s.txns[u]
    requires forall u :: u in s'.txns ==> boards !! s.txns[u].boards && pins !! s.txns[u].pins
    ensures Exclusive(s') && forall u :: u in s'.txns ==> TxnOk(s'.db, s'.txns[u])
  {
    forall u | u in s'.txns ensures TxnOk(s'.db, s'.txns[u]) {
      OthersStay(s.db, s'.db, boards, pins, s.txns[u]);
    }
  }

  lemma CommitStep(s: State, t: Tid)
    requires Inv(s) && Enabled(s, Commit(t))
    ensures Inv(Apply(s, Commit(t)))
  {
    CommitWithin(s.db, s.txns[t]);
    CommitKeepsDb(s.db, s.txns[t]);
    WriteKeepsTxns(s, Apply(s, Commit(t)), s.txns[t].boards, s.txns[t].pins);
  }

  lemma NewBoardStep(s: State, a: Action)
    requires Inv(s) && a.NewBoard? && Enabled(s, a)
    ensures Inv(Apply(s, a))
  {
    var s' := Apply(s, a);
    forall c | c in s'.db.boards ensures CoverOk(s'.db, c) { if c != a.b { assert CoverOk(s.db, c); } }
    WriteKeepsTxns(s, s', {a.b}, {});
  }

  lemma ImportPinStep(s: State, a: Action)
    requires Inv(s) && a.ImportPin? && Enabled(s, a)
    ensures Inv(Apply(s, a))
  {
    var s' := Apply(s, a);
    forall c | c in s'.db.boards ensures CoverOk(s'.db, c) { assert CoverOk(s.db, c); }
    WriteKeepsTxns(s, s', a.into, {a.p});
  }

  lemma LegacyDeleteStep(s: State, a: Action)
    requires Inv(s) && a.DeleteLegacyPin? && Enabled(s, a)
    ensures Inv(Apply(s, a))
  {
    var covered := set b | b in s.db.boards && Covers(s.db, b, a.p);
    RemovePinWithin(s.db, a.p, covered);
    RemovePinKeepsCovers(s.db, a.p);
    WriteKeepsTxns(s, Apply(s, a), covered, {a.p});
  }

  /** An edit keeps every cover valid exactly when it is not unsafe. */
  lemma SaveEditCovers(s: State, a: Action)
    requires DbInv(s.db) && a.SaveEdit? && Enabled(s, a)
    ensures CoversOk(Apply(s, a).db) <==> !Unsafe(s, a)
  {
    var after := Apply(s, a).db;
    if Unsafe(s, a) {
      var b :| Covers(s.db, b, s.edits[a.t].0) && !s.db.boards[b].private;
      assert b in after.boards && !CoverOk(after, b);
    } else {
      forall c | c in after.boards ensures CoverOk(after, c) {
        assert CoverOk(s.db, c);
        assert Covers(s.db, c, s.edits[a.t].0) ==> s.db.boards[c].private || !s.edits[a.t].1.private;
      }
    }
  }

  lemma SaveEditStep(s: State, a: Action)
    requires Inv(s) && a.SaveEdit? && Enabled(s, a) && !Unsafe(s, a)
    ensures Inv(Apply(s, a))
  {
    SaveEditCovers(s, a);
    WriteKeepsTxns(s, Apply(s, a), {}, {s.edits[a.t].0});
  }

  /** Replacing one transaction, without touching a row or another's lock. */
  lemma PutKeepsInv(s: State, t: Tid, x: Txn)
    requires Inv(s) && TxnOk(s.db, x)
    requires forall u :: u in s.txns && u != t ==> x.boards !! s.txns[u].boards && x.pins !! s.txns[u].pins
    ensures Inv(Put(s, t, x))
  {
  }

  lemma LockStep(s: State, a: Action)
    requires Inv(s) && Enabled(s, a) && (a.LockBoard? || a.LockPin?)
    ensures Inv(Apply(s, a))
  {
    var x := Apply(s, a).txns[a.t];
    assert TxnOk(s.db, s.txns[a.t]);
    assert TxnOk(s.db, x);
    PutKeepsInv(s, a.t, x);
  }

  lemma SkipStep(s: State, a: Action)
    requires Inv(s) && Enabled(s, a) && a.SkipPin?
    ensures Inv(Apply(s, a))
  {
    var x := Apply(s, a).txns[a.t];
    assert TxnOk(s.db, s.txns[a.t]);
    if x.op.UpdateBoard? && x.op.board in s.db.boards { assert CoverOk(s.db, x.op.board); }
    PutKeepsInv(s, a.t, x);
  }

  lemma StageStep(s: State, a: Action)
    requires Inv(s) && Enabled(s, a) && (a.Begin? || a.ChoosePins?)
    ensures Inv(Apply(s, a))
  {
    PutKeepsInv(s, a.t, Apply(s, a).txns[a.t]);
  }

  /** Reading again under the locks: everything relied on holds at that moment. */
  lemma CheckStep(s: State, a: Action)
    requires Inv(s) && Enabled(s, a) && a.Check?
    ensures Inv(Apply(s, a))
  {
    var x := Apply(s, a).txns[a.t];
    assert TxnOk(s.db, s.txns[a.t]);
    assert Closed(x.op, s.db, x.boards);
    PutKeepsInv(s, a.t, x);
  }

  lemma StepKeepsInv(s: State, a: Action)
    requires Inv(s) && Enabled(s, a) && !Unsafe(s, a)
    ensures Inv(Apply(s, a))
  {
    match a
    case Commit(t) => CommitStep(s, t);
    case NewBoard(_, _, _) => NewBoardStep(s, a);
    case ImportPin(_, _, _, _) => ImportPinStep(s, a);
    case DeleteLegacyPin(_) => LegacyDeleteStep(s, a);
    case SaveEdit(_) => SaveEditStep(s, a);
    case LockBoard(_, _) => LockStep(s, a);
    case LockPin(_, _) => LockStep(s, a);
    case SkipPin(_, _) => SkipStep(s, a);
    case Check(_) => CheckStep(s, a);
    case Begin(_, _) => StageStep(s, a);
    case ChoosePins(_) => StageStep(s, a);
    case LoadEdit(_, _) =>
    case Abort(_) =>
  }

  // ---------------------------------------------------------------- runs

  /** Rows from a valid state; no transaction under way. */
  ghost predicate Start(s: State) {
    DbInv(s.db) && s.txns == map[]
  }

  lemma {:induction false} SafeRunKeepsInv(s: State, run: seq<Action>, t: State)
    requires Inv(s) && SafeRun(s, run, t)
    ensures Inv(t)
    decreases |run|
  {
    if run != [] {
      StepKeepsInv(s, run[0]);
      SafeRunKeepsInv(Apply(s, run[0]), run[1..], t);
    }
  }

  /**
   Whatever transactions interleave, a board's cover is empty, or a member Pin
   that is public if the board is; as long as no edit was unsafe.
   */
  lemma CoversAlwaysValid(s: State, run: seq<Action>, t: State, b: BoardId)
    requires Start(s) && SafeRun(s, run, t) && b in t.db.boards && t.db.boards[b].cover.Some?
    ensures var p := t.db.boards[b].cover.value;
            p in t.db.pins && (b, p) in t.db.members && (t.db.boards[b].private || !t.db.pins[p].private)
  {
    SafeRunKeepsInv(s, run, t);
    assert CoverOk(t.db, b);
  }

  /** The first unsafe edit is exactly the step that breaks a cover. */
  lemma CoversBreakExactlyWhenUnsafe(s: State, run: seq<Action>, t: State, a: Action)
    requires Start(s) && SafeRun(s, run, t) && Enabled(t, a)
    ensures CoversOk(Apply(t, a).db) <==> !Unsafe(t, a)
  {
    SafeRunKeepsInv(s, run, t);
    if Unsafe(t, a) {
      SaveEditCovers(t, a);
    } else {
      StepKeepsInv(t, a);
    }
  }

  /** What a transaction has read under its locks is still so when it commits. */
  lemma CheckedReadsAreCurrent(s: State, run: seq<Action>, t: State, id: Tid)
    requires Start(s) && SafeRun(s, run, t) && id in t.txns && t.txns[id].stage.Checked?
    ensures var x := t.txns[id];
            Agree(t.db, x.stage.seen, x.boards, x.pins) && Closed(x.op, t.db, x.boards)
  {
    SafeRunKeepsInv(s, run, t);
    assert TxnOk(t.db, t.txns[id]);
  }

  /** A commit writes only rows its transaction has locked. */
  lemma CommitsStayWithinTheirLocks(s: State, run: seq<Action>, t: State, id: Tid)
    requires Start(s) && SafeRun(s, run, t) && Enabled(t, Commit(id))
    ensures Within(t.db, Apply(t, Commit(id)).db, t.txns[id].boards, t.txns[id].pins)
  {
    SafeRunKeepsInv(s, run, t);
    CommitWithin(t.db, t.txns[id]);
  }

  // ---------------------------------------------------------------- the unsafe edit happens

  lemma {:induction false} SafeRunThen(s: State, run: seq<Action>, m: State, a: Action)
    requires SafeRun(s, run, m) && Enabled(m, a) && !Unsafe(m, a)
    ensures SafeRun(s, run + [a], Apply(m, a))
    decreases |run|
  {
    if run == [] {
      assert run + [a] == [a] && [a][1..] == [];
    } else {
      assert (run + [a])[1..] == run[1..] + [a];
      SafeRunThen(Apply(s, run[0]), run[1..], m, a);
    }
  }

  /** One public board with one private member Pin of the same user. */
  function OneBoard(cover: Option<PinId>, private: bool): Db {
    Db(map[0 := Board(0, false, cover)], map[0 := Pin(0, private)], {(0, 0)})
  }

  /** The only transaction, with all its locks, checks and commits. */
  lemma CheckAndCommit(s: State, run: seq<Action>, m: State, x: Txn) returns (run': seq<Action>, m': State)
    requires SafeRun(s, run, m) && m.txns == map[1 := x] && x.stage.PinsChosen? && x.wantPins == {}
    requires Accepts(x.op, x.probed, m.db)
    ensures SafeRun(s, run', m') && m' == m.(db := Effect(x.op, x.probed, x.pins, m.db, m.db), txns := map[])
  {
    var m1 := Apply(m, Check(1));
    SafeRunThen(s, run, m, Check(1));
    m' := Apply(m1, Commit(1));
    SafeRunThen(s, run + [Check(1)], m1, Commit(1));
    run' := run + [Check(1)] + [Commit(1)];
    assert m'.txns == map[];
  }

  lemma TakePin(s: State, run: seq<Action>, m: State, x: Txn) returns (run': seq<Action>, m': State)
    requires SafeRun(s, run, m) && m.txns == map[1 := x] && x.stage.Locking? && x.wantBoards == {} && x.pins == {}
    requires PinsToLock(x.op, m.db) == {0} && 0 in m.db.pins
    ensures SafeRun(s, run', m')
    ensures m' == m.(txns := map[1 := x.(stage := PinsChosen, wantPins := {}, pins := {0})])
  {
    var m1 := Apply(m, ChoosePins(1));
    SafeRunThen(s, run, m, ChoosePins(1));
    m' := Apply(m1, LockPin(1, 0));
    SafeRunThen(s, run + [ChoosePins(1)], m1, LockPin(1, 0));
    run' := run + [ChoosePins(1)] + [LockPin(1, 0)];
    assert {0} - {0} == {} && {} + {0} == {0};
  }

  lemma BeginAlone(s: State, run: seq<Action>, m: State, op: Op) returns (run': seq<Action>, m': State)
    requires SafeRun(s, run, m) && m.txns == map[] && !Probes(op)
    ensures SafeRun(s, run', m')
    ensures m' == m.(txns := map[1 := Txn(op, {}, Locking, BoardsToLock(op, {}), {}, {}, {})])
  {
    SafeRunThen(s, run, m, Begin(1, op));
    run', m' := run + [Begin(1, op)], Apply(m, Begin(1, op));
  }

  lemma TakeBoard(s: State, run: seq<Action>, m: State, x: Txn) returns (run': seq<Action>, m': State)
    requires SafeRun(s, run, m) && m.txns == map[1 := x] && x.wantBoards == {0} && x.boards == {} && 0 in m.db.boards
    ensures SafeRun(s, run', m') && m' == m.(txns := map[1 := x.(wantBoards := {}, boards := {0})])
  {
    SafeRunThen(s, run, m, LockBoard(1, 0));
    run', m' := run + [LockBoard(1, 0)], Apply(m, LockBoard(1, 0));
    assert {0} - {0} == {} && {} + {0} == {0};
  }

  lemma PublishingIsAccepted(op: Op)
    requires op == SetPrivacy(0, {0}, false)
    ensures PinsToLock(op, OneBoard(None, true)) == {0} && BoardsToLock(op, {}) == {}
    ensures Accepts(op, {}, OneBoard(None, true))
    ensures Effect(op, {}, {0}, OneBoard(None, true), OneBoard(None, true)) == OneBoard(None, false)
  {
  }

  lemma PublishPin(s: State, run: seq<Action>, m: State) returns (run': seq<Action>, m': State)
    requires SafeRun(s, run, m) && m.db == OneBoard(None, true) && m.txns == map[]
    ensures SafeRun(s, run', m') && m' == m.(db := OneBoard(None, false))
  {
    var op := SetPrivacy(0, {0}, false);
    PublishingIsAccepted(op);
    run', m' := BeginAlone(s, run, m, op);
    run', m' := TakePin(s, run', m', Txn(op, {}, Locking, {}, {}, {}, {}));
    run', m' := CheckAndCommit(s, run', m', Txn(op, {}, PinsChosen, {}, {}, {}, {0}));
  }

  lemma CoveringIsAccepted(op: Op)
    requires op == SetCover(0, 0, Some(0))
    ensures PinsToLock(op, OneBoard(None, false)) == {0} && BoardsToLock(op, {}) == {0}
    ensures Accepts(op, {}, OneBoard(None, false))
    ensures Effect(op, {}, {0}, OneBoard(None, false), OneBoard(None, false)) == OneBoard(Some(0), false)
  {
  }

  lemma MakeCover(s: State, run: seq<Action>, m: State) returns (run': seq<Action>, m': State)
    requires SafeRun(s, run, m) && m.db == OneBoard(None, false) && m.txns == map[]
    ensures SafeRun(s, run', m') && m' == m.(db := OneBoard(Some(0), false))
  {
    var op := SetCover(0, 0, Some(0));
    CoveringIsAccepted(op);
    run', m' := BeginAlone(s, run, m, op);
    run', m' := TakeBoard(s, run', m', Txn(op, {}, Locking, {0}, {}, {}, {}));
    run', m' := TakePin(s, run', m', Txn(op, {}, Locking, {}, {0}, {}, {}));
    run', m' := CheckAndCommit(s, run', m', Txn(op, {}, PinsChosen, {}, {0}, {}, {0}));
  }

  /**
   A user loads a private Pin for an edit of its description; meanwhile the Pin
   is made public and becomes the cover of a public board; saving the edit makes
   the Pin private again, under the board's cover.
   */
  lemma AnUnsafeEditHappens() returns (s: State, run: seq<Action>, t: State, a: Action)
    ensures Start(s) && SafeRun(s, run, t) && Enabled(t, a) && a.SaveEdit?
    ensures !CoversOk(Apply(t, a).db)
  {
    s := State(OneBoard(None, true), map[], map[]);
    var load := LoadEdit(9, 0);
    SafeRunThen(s, [], s, load);
    run, t := PublishPin(s, [] + [load], Apply(s, load));
    run, t := MakeCover(s, run, t);
    a := SaveEdit(9);
    assert Covers(t.db, 0, 0);
    SaveEditCovers(t, a);
  }
}
