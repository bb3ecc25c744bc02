/**
 The service transactions on boards and covers, statement by statement. Each
 accepts exactly when its specification does, and then leaves the rows that
 specification describes; rejected, it leaves everything as it was.
 */
module BoardServices {
  import opened Wrappers
  import opened Boards
  import opened BoardEffects

  const BOARD_NOT_FOUND := "board_not_found"
  const PIN_NOT_FOUND := "pin_not_found"
  const COVER_INVALID := "board_cover_invalid"
  const COVER_PRIVATE := "board_cover_private_pin"
  const COVER_CHANGED := "board_cover_changed"
  const MEMBERSHIP_CHANGED := "pin_membership_changed"
  const NAME_TAKEN := "name"

  /** One status for each requested Pin, in the order of the request. */
  function Statuses(ids: seq<PinId>, yes: set<PinId>, ifYes: string, ifNo: string): (s: seq<string>)
    ensures |s| == |ids| && forall i :: 0 <= i < |ids| ==> s[i] == if ids[i] in yes then ifYes else ifNo
  {
    seq(|ids|, i requires 0 <= i < |ids| => if ids[i] in yes then ifYes else ifNo)
  }

  function Ids(ids: seq<PinId>): (s: set<PinId>)
    ensures forall p :: p in s <==> p in ids
  {
    set p | p in ids
  }

  class BoardStore {
    var db: Db

    constructor (db: Db)
      ensures this.db == db
    {
      this.db := db;
    }

    method SaveCover(b: BoardId, cover: Option<PinId>)
      requires b in db.boards
      modifies this
      ensures db == PutCover(old(db), b, cover) && CoverSet(old(db), db, b, cover)
    {
      db := db.(boards := db.boards[b := db.boards[b].(cover := cover)]);
    }

    /** Empty the cover unless it is a member Pin that the board may show. */
    method ReconcileLockedBoard(b: BoardId) returns (changed: bool)
      requires b in db.boards
      modifies this
      ensures changed <==> !CoverOk(old(db), b)
      ensures db == if changed then PutCover(old(db), b, None) else old(db)
      ensures changed ==> CoverSet(old(db), db, b, None)
      ensures CoverOk(db, b)
    {
      if db.boards[b].cover.None? {
        return false;
      }
      var p := db.boards[b].cover.value;
      var valid := p in db.pins && (b, p) in db.members && (db.boards[b].private || !db.pins[p].private);
      if valid {
        return false;
      }
      SaveCover(b, None);
      return true;
    }

    /** Called before memberships go: valid covers stay valid when they have gone. */
    method ClearIfRemoved(b: BoardId, removed: set<PinId>) returns (changed: bool)
      requires b in db.boards
      modifies this
      ensures forall x :: x in old(db).boards && CoverOk(old(db), x) ==>
                x in db.boards && CoverOk(db.(members := db.members - Join(b, removed)), x)
      ensures changed <==> old(db).boards[b].cover.Some? && old(db).boards[b].cover.value in removed
      ensures db == if changed then PutCover(old(db), b, None) else old(db)
      ensures changed ==> CoverSet(old(db), db, b, None)
    {
      if db.boards[b].cover.None? || db.boards[b].cover.value !in removed {
        return false;
      }
      SaveCover(b, None);
      return true;
    }

    method CoverBoard(user: User, b: BoardId, pin: Option<PinId>) returns (error: Option<string>)
      modifies this
      ensures error.None? <==> Accepts(SetCover(user, b, pin), {}, old(db))
      ensures db == if error.None? then Effect(SetCover(user, b, pin), {}, {}, old(db), old(db)) else old(db)
      ensures error.None? || error.value in {BOARD_NOT_FOUND, COVER_INVALID, COVER_PRIVATE}
      ensures error == Some(BOARD_NOT_FOUND) <==> b !in old(db).boards || old(db).boards[b].owner != user
      ensures error == Some(COVER_INVALID) <==>
                && b in old(db).boards && old(db).boards[b].owner == user && pin.Some?
                && (pin.value !in old(db).pins || (b, pin.value) !in old(db).members
                    || (old(db).pins[pin.value].private && old(db).pins[pin.value].owner != user))
      ensures error == Some(COVER_PRIVATE) <==>
                && b in old(db).boards && old(db).boards[b].owner == user && !old(db).boards[b].private
                && pin.Some? && pin.value in old(db).pins && (b, pin.value) in old(db).members
                && old(db).pins[pin.value].private && old(db).pins[pin.value].owner == user
      ensures error.None? ==> CoverSet(old(db), db, b, pin)
    {
      if b !in db.boards || db.boards[b].owner != user {
        return Some(BOARD_NOT_FOUND);
      }
      if pin.None? {
        SaveCover(b, None);
        return None;
      }
      var p := pin.value;
      if p !in db.pins || (b, p) !in db.members || (db.pins[p].private && db.pins[p].owner != user) {
        return Some(COVER_INVALID);
      }
      if !db.boards[b].private && db.pins[p].private {
        return Some(COVER_PRIVATE);
      }
      SaveCover(b, Some(p));
      return None;
    }

    /**
     Change the privacy of some own Pins. `probed` is what the unlocked query
     found; the transaction fails when a second look under the locks differs.
     */
    method PinPrivacyTransition(user: User, targets: set<PinId>, private: bool, probed: set<BoardId>)
      returns (error: Option<string>)
      modifies this
      ensures error.None? <==> Accepts(SetPrivacy(user, targets, private), probed, old(db))
      ensures db == if error.None? then Effect(SetPrivacy(user, targets, private), probed, {}, old(db), old(db)) else old(db)
      ensures error.None? || error.value in {PIN_NOT_FOUND, COVER_CHANGED}
      ensures error == Some(PIN_NOT_FOUND) <==> exists p :: p in targets && (p !in old(db).pins || old(db).pins[p].owner != user)
      ensures error == Some(COVER_CHANGED) <==>
                && (forall p :: p in targets ==> p in old(db).pins && old(db).pins[p].owner == user)
                && private && exists b :: b in probed <==>
                     !(b in old(db).boards && !old(db).boards[b].private
                       && CoverOf(old(db), b).Some? && CoverOf(old(db), b).value in targets)
      ensures error.None? ==> PrivacySet(old(db), db, targets, private)
      ensures error.None? && CoversOk(old(db)) ==> CoversOk(db)
    {
      if exists p :: p in targets && (p !in db.pins || db.pins[p].owner != user) {
        return Some(PIN_NOT_FOUND);
      }
      ProbeDiffers(db, targets, probed);
      if private && PublicCovered(db, targets) != probed {
        return Some(COVER_CHANGED);
      }
      SavePrivacy(user, targets, private, probed);
      return None;
    }

    lemma ProbeDiffers(d: Db, targets: set<PinId>, probed: set<BoardId>)
      ensures PublicCovered(d, targets) != probed <==>
                exists b :: b in probed <==>
                  !(b in d.boards && !d.boards[b].private && CoverOf(d, b).Some? && CoverOf(d, b).value in targets)
    {
      assert forall b :: b in PublicCovered(d, targets) <==>
          b in d.boards && !d.boards[b].private && CoverOf(d, b).Some? && CoverOf(d, b).value in targets;
    }

    /** What the caller saves inside the transition, and the covers that go with it. */
    method SavePrivacy(user: User, targets: set<PinId>, private: bool, probed: set<BoardId>)
      requires private ==> PublicCovered(db, targets) == probed
      modifies this
      ensures db == Effect(SetPrivacy(user, targets, private), probed, {}, old(db), old(db))
      ensures PrivacySet(old(db), db, targets, private)
      ensures CoversOk(old(db)) ==> CoversOk(db)
    {
      ghost var before := db;
      db := db.(pins := map p | p in db.pins :: if p in targets then db.pins[p].(private := private) else db.pins[p]);
      if private && probed != {} {
        db := db.(boards := map b | b in db.boards ::
          if b in probed && !db.boards[b].private && db.boards[b].cover.Some? && db.boards[b].cover.value in targets
          then db.boards[b].(cover := None) else db.boards[b]);
      }
      assert db.boards == Effect(SetPrivacy(user, targets, private), probed, {}, before, before).boards;
      if private {
        forall b | b in before.boards && !before.boards[b].private && CoverOf(before, b).Some? && CoverOf(before, b).value in targets
          ensures b in probed
        {
          assert b in PublicCovered(before, targets);
        }
      }
      if CoversOk(before) {
        forall b | b in db.boards ensures CoverOk(db, b) { assert CoverOk(before, b); }
      }
    }

    method AddOwnedPins(user: User, b: BoardId, ids: seq<PinId>) returns (r: Result<seq<string>, string>)
      modifies this
      ensures r.Ok? <==> Accepts(AddPins(user, b, Ids(ids)), {}, old(db))
      ensures db == if r.Ok? then Effect(AddPins(user, b, Ids(ids)), {}, {}, old(db), old(db)) else old(db)
      ensures r.Ok? || r.error in {BOARD_NOT_FOUND, PIN_NOT_FOUND}
      ensures r == Err(BOARD_NOT_FOUND) <==> b !in old(db).boards || old(db).boards[b].owner != user
      ensures r == Err(PIN_NOT_FOUND) <==>
                && b in old(db).boards && old(db).boards[b].owner == user
                && exists p :: p in ids && (p !in old(db).pins || old(db).pins[p].owner != user)
      ensures r.Ok? ==> PinsAdded(old(db), db, b, Ids(ids))
      ensures r.Ok? ==>
                && |r.value| == |ids|
                && forall i :: 0 <= i < |ids| ==> r.value[i] == if (b, ids[i]) in old(db).members then "unchanged" else "added"
    {
      if b !in db.boards || db.boards[b].owner != user {
        return Err(BOARD_NOT_FOUND);
      }
      if exists p :: p in ids && (p !in db.pins || db.pins[p].owner != user) {
        return Err(PIN_NOT_FOUND);
      }
      var existing := MembersOf(db, b);
      ghost var before := db;
      InMembers(before, b);
      var toAdd := set p | p in Ids(ids) && p !in existing;
      if toAdd != {} {
        db := db.(members := db.members + Join(b, toAdd));
      }
      assert toAdd == set p | p in Ids(ids) && (b, p) !in before.members;
      JoinMembers(before, b, toAdd);
      return Ok(Statuses(ids, existing, "unchanged", "added"));
    }

    lemma InMembers(d: Db, b: BoardId)
      ensures forall p :: p in MembersOf(d, b) <==> (b, p) in d.members
    {
      forall p | (b, p) in d.members ensures p in MembersOf(d, b) { assert (b, p).0 == b && (b, p).1 == p; }
    }

    lemma JoinMembers(d: Db, b: BoardId, more: set<PinId>)
      ensures MembersOf(d.(members := d.members + Join(b, more)), b) == MembersOf(d, b) + more
    {
      InMembers(d, b);
      InMembers(d.(members := d.members + Join(b, more)), b);
    }

    /** The two membership changes of a move, and what they amount to. */
    lemma MovedMembers(before: Db, source: BoardId, target: BoardId, targets: set<PinId>,
                       toRemove: set<PinId>, toAdd: set<PinId>, after: Db)
      requires source != target && source in before.boards
      requires forall p :: p in targets ==> (source, p) in before.members || (target, p) in before.members
      requires toRemove == set p | p in targets && p in MembersOf(before, source)
      requires toAdd == set p | p in targets && p !in MembersOf(before, target)
      requires after.members == before.members - Join(source, toRemove) + Join(target, toAdd)
      requires after.pins == before.pins
      requires var cover := before.boards[source].cover;
               after.boards == if cover.Some? && cover.value in toRemove then PutCover(before, source, None).boards
                               else before.boards
      ensures after == Moved(before, before, source, target, targets) && PinsMoved(before, after, source, target, targets)
      ensures MembersOf(after, source) == MembersOf(before, source) - targets
      ensures MembersOf(after, target) == MembersOf(before, target) + targets
    {
      InMembers(before, source);
      InMembers(before, target);
      InMembers(after, source);
      InMembers(after, target);
      assert toRemove == set p | p in targets && (source, p) in before.members;
      assert toAdd == set p | p in targets && (target, p) !in before.members;
      MovedMeans(before, before, source, target, targets);
    }

    method MoveBetweenBoards(user: User, source: BoardId, target: BoardId, ids: seq<PinId>)
      returns (r: Result<seq<string>, string>)
      requires source != target
      modifies this
      ensures r.Ok? <==> Accepts(MovePins(user, source, target, Ids(ids)), {}, old(db))
      ensures db == if r.Ok? then Effect(MovePins(user, source, target, Ids(ids)), {}, {}, old(db), old(db)) else old(db)
      ensures r.Ok? || r.error in {BOARD_NOT_FOUND, PIN_NOT_FOUND, MEMBERSHIP_CHANGED}
      ensures r == Err(BOARD_NOT_FOUND) <==>
                || source !in old(db).boards || old(db).boards[source].owner != user
                || target !in old(db).boards || old(db).boards[target].owner != user
      ensures r == Err(PIN_NOT_FOUND) <==>
                && source in old(db).boards && old(db).boards[source].owner == user
                && target in old(db).boards && old(db).boards[target].owner == user
                && exists p :: p in ids && (p !in old(db).pins || (old(db).pins[p].private && old(db).pins[p].owner != user))
      ensures r == Err(MEMBERSHIP_CHANGED) ==>
                exists p :: p in ids && (source, p) !in old(db).members && (target, p) !in old(db).members
      ensures r.Ok? ==> forall p :: p in ids ==> (source, p) in old(db).members || (target, p) in old(db).members
      ensures r.Ok? ==> PinsMoved(old(db), db, source, target, Ids(ids))
      ensures r.Ok? ==>
                && |r.value| == |ids|
                && forall i :: 0 <= i < |ids| ==> r.value[i] == if (source, ids[i]) in old(db).members then "moved" else "unchanged"
    {
      if !OwnedBoard(db, user, source) || !OwnedBoard(db, user, target) {
        return Err(BOARD_NOT_FOUND);
      }
      if exists p :: p in ids && !Visible(db, user, p) {
        return Err(PIN_NOT_FOUND);
      }
      var sourceIds, targetIds := MembersOf(db, source), MembersOf(db, target);
      InMembers(db, source);
      InMembers(db, target);
      if exists p :: p in ids && p !in sourceIds && p !in targetIds {
        return Err(MEMBERSHIP_CHANGED);
      }
      MoveMembers(source, target, Ids(ids));
      return Ok(Statuses(ids, sourceIds, "moved", "unchanged"));
    }

    method MoveMembers(source: BoardId, target: BoardId, targets: set<PinId>)
      requires source != target && source in db.boards
      requires forall p :: p in targets ==> (source, p) in db.members || (target, p) in db.members
      modifies this
      ensures db == Moved(old(db), old(db), source, target, targets) && PinsMoved(old(db), db, source, target, targets)
    {
      ghost var before := db;
      var toRemove := set p | p in targets && p in MembersOf(db, source);
      var toAdd := set p | p in targets && p !in MembersOf(db, target);
      var _ := ClearIfRemoved(source, toRemove);
      if toRemove != {} {
        db := db.(members := db.members - Join(source, toRemove));
      }
      if toAdd != {} {
        db := db.(members := db.members + Join(target, toAdd));
      }
      MovedMembers(before, source, target, targets, toRemove, toAdd, db);
    }

    method UpdateBoardMembership(user: User, b: BoardId, add: set<PinId>, remove: set<PinId>)
      requires b in db.boards
      modifies this
      ensures var seen := old(db);
              var added := set p | p in add && Visible(seen, user, p);
              var removed := set p | p in remove && Visible(seen, user, p);
              var members := seen.members + Join(b, added) - Join(b, removed);
              var cover := seen.boards[b].cover;
              db == Db(seen.boards[b := seen.boards[b].(cover :=
                         if cover.Some? && cover.value in removed && (b, cover.value) in seen.members then None else cover)],
                       seen.pins, members)
    {
      ghost var seen := db;
      var additions := set p | p in add && Visible(db, user, p);
      var removals := set p | p in remove && Visible(db, user, p);
      var existing := set p | p in remove && (b, p) in db.members;
      if additions != {} {
        db := db.(members := db.members + Join(b, additions));
      }
      var _ := ClearIfRemoved(b, removals * existing);
      if removals != {} {
        db := db.(members := db.members - Join(b, removals));
      }
      assert db.members == seen.members + Join(b, additions) - Join(b, removals);
      assert db.boards == seen.boards[b := db.boards[b]];
    }

    /** Save the board, change its membership, then reconcile its cover. */
    method UpdateWholeBoard(user: User, b: BoardId, newPrivate: Option<bool>, add: set<PinId>, remove: set<PinId>,
                            nameTaken: bool)
      returns (error: Option<string>)
      requires MembersExist(db)
      modifies this
      ensures error.None? <==> !nameTaken && Accepts(UpdateBoard(user, b, newPrivate, add, remove), {}, old(db))
      ensures db == if error.None?
                    then Effect(UpdateBoard(user, b, newPrivate, add, remove), {}, old(db).pins.Keys, old(db), old(db))
                    else old(db)
      ensures error.None? || error.value in {BOARD_NOT_FOUND, NAME_TAKEN}
      ensures error == Some(BOARD_NOT_FOUND) <==> b !in old(db).boards || old(db).boards[b].owner != user
      ensures error == Some(NAME_TAKEN) <==> b in old(db).boards && old(db).boards[b].owner == user && nameTaken
      ensures error.None? ==> BoardUpdated(old(db), db, user, b, newPrivate, add, remove, old(db).pins.Keys)
      ensures error.None? ==> CoverOk(db, b)
    {
      if b !in db.boards || db.boards[b].owner != user {
        return Some(BOARD_NOT_FOUND);
      }
      if nameTaken {
        return Some(NAME_TAKEN);
      }
      ghost var seen, op := db, UpdateBoard(user, b, newPrivate, add, remove);
      if newPrivate.Some? {
        db := db.(boards := db.boards[b := db.boards[b].(private := newPrivate.value)]);
      }
      UpdateBoardMembership(user, b, add, remove);
      var _ := ReconcileLockedBoard(b);
      SameUpdate(seen, op, db);
      return None;
    }

    lemma SameUpdate(seen: Db, op: Op, after: Db)
      requires op.UpdateBoard? && op.board in seen.boards && after.pins == seen.pins
      requires var private := if op.newPrivate.Some? then op.newPrivate.value else seen.boards[op.board].private;
               var removed := set p | p in op.remove && Visible(seen, op.user, p);
               var cover := seen.boards[op.board].cover;
               var kept := if cover.Some? && cover.value in removed && (op.board, cover.value) in seen.members
                           then None else cover;
               && after.members == seen.members + Join(op.board, set p | p in op.add && Visible(seen, op.user, p))
                                   - Join(op.board, removed)
               && after.boards == seen.boards[op.board := Board(seen.boards[op.board].owner, private,
                    if kept.Some? && kept.value in seen.pins && (op.board, kept.value) in after.members
                       && (private || !seen.pins[kept.value].private) then kept else None)]
      ensures after == Effect(op, {}, seen.pins.Keys, seen, seen)
      ensures BoardUpdated(seen, after, op.user, op.board, op.newPrivate, op.add, op.remove, seen.pins.Keys)
    {
      UpdatedMeans(seen, seen, op, seen.pins.Keys);
      assert (set p | p in op.add && p in seen.pins.Keys && Visible(seen, op.user, p))
          == (set p | p in op.add && Visible(seen, op.user, p));
      assert (set p | p in op.remove && p in seen.pins.Keys && Visible(seen, op.user, p))
          == (set p | p in op.remove && Visible(seen, op.user, p));
    }

    method RemoveWholeBoard(user: User, b: BoardId) returns (error: Option<string>)
      modifies this
      ensures error.None? || error.value == BOARD_NOT_FOUND
      ensures error.Some? <==> b !in old(db).boards || old(db).boards[b].owner != user
      ensures error.None? ==> BoardGone(old(db), db, b)
      ensures error.None? <==> Accepts(DeleteBoard(user, b), {}, old(db))
      ensures db == if error.None? then Effect(DeleteBoard(user, b), {}, {}, old(db), old(db)) else old(db)
    {
      if b !in db.boards || db.boards[b].owner != user {
        return Some(BOARD_NOT_FOUND);
      }
      var members := MembersOf(db, b);
      InMembers(db, b);
      db := db.(members := db.members - Join(b, members));
      db := RemoveBoard(db, b);
      return None;
    }
  }
}
