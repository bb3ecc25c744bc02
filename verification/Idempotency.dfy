/**
 Lease rows for batch imports: one row per (submitter, client item), claimed and
 reclaimed by compare-and-swap updates and fenced by lease, generation and expiry.
 */
module Idempotency {
  import opened Wrappers

  type User = nat
  type PinId = nat
  type Lease = nat
  type Micros = int

  datatype Key = Key(submitter: User, clientItem: nat)

  datatype ItemState = Pending | Succeeded | Failed

  datatype Item = Item(
    fingerprint: string,
    state: ItemState,
    pin: Option<PinId>,
    errorCode: Option<string>,
    retryable: Option<bool>,
    lease: Option<Lease>,
    generation: int,
    expires: Option<Micros>)

  type Table = map<Key, Item>

  datatype StoredError = StoredError(code: string, retryable: bool)

  /** The lease a worker was granted. */
  datatype Grant = Grant(lease: Lease, generation: int)

  datatype ClaimResult =
    | Claimed(grant: Grant)
    | Replayed(pin: PinId)
    | InProgress(retryAfter: int)
    | Conflict
    | Refused(error: StoredError)
    | GaveUp
    | InsertFailed

  const CAS_REEVALUATION_LIMIT: nat := 4
  const SECOND: Micros := 1_000_000

  // ---------------------------------------------------------------- row predicates

  predicate SafeCodeChar(ch: char, first: bool) {
    'a' <= ch <= 'z' || (!first && ('0' <= ch <= '9' || ch == '_'))
  }

  /** [a-z][a-z0-9_]{0,63} */
  predicate SafeCode(code: string) {
    1 <= |code| <= 64 && forall i :: 0 <= i < |code| ==> SafeCodeChar(code[i], i == 0)
  }

  predicate ValidPending(r: Item) {
    && r.state == Pending && r.generation >= 1
    && r.pin.None? && r.errorCode.None? && r.retryable.None?
    && r.lease.Some? && r.expires.Some?
  }

  /** `owned`: the row's pin, if any, exists and belongs to the row's submitter. */
  predicate ValidSucceeded(r: Item, owned: bool) {
    && r.state == Succeeded && r.generation >= 1
    && (r.pin.None? || owned)
    && r.errorCode.None? && r.retryable.None? && r.lease.None? && r.expires.None?
  }

  predicate ValidFailed(r: Item) {
    && r.state == Failed && r.generation >= 1
    && r.pin.None?
    && r.errorCode.Some? && SafeCode(r.errorCode.value)
    && r.retryable.Some? && r.lease.None? && r.expires.None?
  }

  /** Each shape fixes the whole row but for what belongs to it. */
  lemma ShapesMean(r: Item, owned: bool)
    ensures ValidPending(r) <==>
              && r == Item(r.fingerprint, Pending, None, None, None, r.lease, r.generation, r.expires)
              && r.lease.Some? && r.expires.Some? && r.generation >= 1
    ensures ValidSucceeded(r, owned) <==>
              && r == Item(r.fingerprint, Succeeded, r.pin, None, None, None, r.generation, None)
              && (r.pin.Some? ==> owned) && r.generation >= 1
    ensures ValidFailed(r) <==>
              && r == Item(r.fingerprint, Failed, None, r.errorCode, r.retryable, None, r.generation, None)
              && r.errorCode.Some? && SafeCode(r.errorCode.value) && r.retryable.Some? && r.generation >= 1
  {
  }

  /** A code has at most 64 characters, begins with a small letter, and goes on with small letters, digits and underscores. */
  lemma SafeCodes(code: string)
    ensures SafeCode(code) <==>
              && code != "" && |code| <= 64 && code[0] in "abcdefghijklmnopqrstuvwxyz"
              && forall ch :: ch in code ==> ch in "abcdefghijklmnopqrstuvwxyz0123456789_"
  {
    forall ch ensures SafeCodeChar(ch, true) <==> ch in "abcdefghijklmnopqrstuvwxyz" {}
    forall ch ensures SafeCodeChar(ch, false) <==> ch in "abcdefghijklmnopqrstuvwxyz0123456789_" {}
    if SafeCode(code) {
      forall ch | ch in code ensures ch in "abcdefghijklmnopqrstuvwxyz0123456789_" {
        var i :| 0 <= i < |code| && code[i] == ch;
        assert SafeCodeChar(code[i], i == 0);
      }
    }
    if code != "" && forall ch :: ch in code ==> ch in "abcdefghijklmnopqrstuvwxyz0123456789_" {
      forall i | 1 <= i < |code| ensures SafeCodeChar(code[i], false) {
        assert code[i] in code;
      }
    }
  }

  /** A new claim may take the row over now. */
  predicate Reclaimable(r: Item, now: Micros) {
    || (ValidPending(r) && r.expires.value <= now)
    || (ValidFailed(r) && r.retryable.value)
  }

  /** The row is pending under exactly this unexpired grant. */
  predicate OwnedPending(r: Item, g: Grant, now: Micros) {
    && r.state == Pending && r.pin.None? && r.errorCode.None? && r.retryable.None?
    && r.lease == Some(g.lease) && r.generation == g.generation
    && r.expires.Some? && r.expires.value > now
  }

  /** The row condition of the reclaiming update, against what was read before. */
  predicate CasMatches(current: Item, seen: Item, now: Micros) {
    && current.fingerprint == seen.fingerprint && current.state == seen.state
    && current.lease == seen.lease && current.generation == seen.generation
    && (if seen.state == Pending
        then current.expires.Some? && current.expires.value <= now
        else current.retryable == Some(true))
  }

  function Granted(fingerprint: string, g: Grant, expires: Micros): Item {
    Item(fingerprint, Pending, None, None, None, Some(g.lease), g.generation, Some(expires))
  }

  function FailedItem(r: Item, e: StoredError): Item {
    r.(state := Failed, pin := None, errorCode := Some(e.code), retryable := Some(e.retryable),
       lease := None, expires := None)
  }

  function SucceededItem(r: Item, pin: PinId): Item {
    r.(state := Succeeded, pin := Some(pin), errorCode := None, retryable := None,
       lease := None, expires := None)
  }

  // ---------------------------------------------------------------- evaluating an existing row

  datatype Evaluation = Answer(result: ClaimResult) | TakeOver

  const INTERNAL_ERROR := StoredError("internal_error", false)
  const PIN_DELETED := StoredError("pin_permanently_deleted", false)

  function CeilSeconds(d: Micros): int
  {
    (d + SECOND - 1) / SECOND
  }

  function Evaluate(r: Item, owned: bool, fingerprint: string, now: Micros): Evaluation {
    if r.fingerprint != fingerprint then Answer(Conflict)
    else match r.state
      case Succeeded =>
        if !ValidSucceeded(r, owned) then Answer(Refused(INTERNAL_ERROR))
        else if r.pin.None? then Answer(Refused(PIN_DELETED))
        else Answer(Replayed(r.pin.value))
      case Pending =>
        if !ValidPending(r) then Answer(Refused(INTERNAL_ERROR))
        else if r.expires.value > now then
          var wait := CeilSeconds(r.expires.value - now);
          Answer(InProgress(if wait > 1 then wait else 1))
        else TakeOver
      case Failed =>
        if !ValidFailed(r) then Answer(Refused(INTERNAL_ERROR))
        else if !r.retryable.value then Answer(Refused(StoredError(r.errorCode.value, false)))
        else TakeOver
  }

  /** What an answer given without touching the table says about the row it was read from. */
  ghost predicate Explains(result: ClaimResult, r: Item, owned: bool, fingerprint: string, now: Micros) {
    match result
    case Conflict => r.fingerprint != fingerprint
    case Replayed(pin) =>
      r.fingerprint == fingerprint && ValidSucceeded(r, owned) && r.pin == Some(pin)
    case InProgress(s) =>
      && r.fingerprint == fingerprint && ValidPending(r) && r.expires.value > now
      && (s - 1) * SECOND < r.expires.value - now <= s * SECOND && s >= 1
    case Refused(e) =>
      && r.fingerprint == fingerprint
      && !e.retryable
      && (ValidSucceeded(r, owned) ==> r.pin.None? && e == PIN_DELETED)
      && (ValidFailed(r) ==> r.retryable == Some(false) && e.code == r.errorCode.value)
      && !ValidPending(r)
      && (!ValidSucceeded(r, owned) && !ValidFailed(r) ==> e == INTERNAL_ERROR)
    case _ => false
  }

  /** The evaluation takes over exactly the reclaimable rows of this request, and explains every other answer. */
  lemma EvaluationIsRight(r: Item, owned: bool, fingerprint: string, now: Micros)
    ensures Evaluate(r, owned, fingerprint, now).TakeOver? <==> r.fingerprint == fingerprint && Reclaimable(r, now)
    ensures Evaluate(r, owned, fingerprint, now).Answer? ==>
              var result := Evaluate(r, owned, fingerprint, now).result;
              Explains(result, r, owned, fingerprint, now) && !result.Claimed? && !result.GaveUp? && !result.InsertFailed?
  {
    if r.expires.Some? && r.expires.value > now {
      var d := r.expires.value - now;
      assert (d + SECOND - 1) / SECOND * SECOND <= d + SECOND - 1 < ((d + SECOND - 1) / SECOND + 1) * SECOND;
    }
  }

  /** A valid row is in exactly one of the three valid shapes. */
  lemma ValidShapesExclude(r: Item, owned: bool)
    ensures !(ValidPending(r) && ValidSucceeded(r, owned))
    ensures !(ValidPending(r) && ValidFailed(r))
    ensures !(ValidSucceeded(r, owned) && ValidFailed(r))
  {
  }

  /** The update against an unchanged reclaimable row always matches. */
  lemma UnchangedRowMatches(r: Item, now: Micros)
    requires Reclaimable(r, now)
    ensures CasMatches(r, r, now)
  {
  }

  /** A row that the reclaiming update matches may be taken over, and is the one that was read as far as it matters. */
  lemma MatchingRow(current: Item, seen: Item, now: Micros)
    requires Reclaimable(seen, now) && CasMatches(current, seen, now)
    ensures current.fingerprint == seen.fingerprint && current.generation == seen.generation && current.state != Succeeded
    ensures current.state == Pending ==> current.expires.Some? && current.expires.value <= now
    ensures current.state == Failed ==> current.retryable == Some(true)
  {
  }

  /** The grant owns the row it was written into until the lease runs out. */
  lemma GrantedOwns(fingerprint: string, g: Grant, expires: Micros)
    ensures forall t :: OwnedPending(Granted(fingerprint, g, expires), g, t) <==> t < expires
  {
  }

  lemma ReclaimableMeans(r: Item, now: Micros)
    ensures Reclaimable(r, now) <==>
              || (ValidPending(r) && r.expires.value <= now)
              || (ValidFailed(r) && r.retryable == Some(true))
  {
  }

  // ---------------------------------------------------------------- the store

  /** Every other row is there in both, and the same. */
  ghost predicate SameButFor(before: Table, after: Table, key: Key) {
    forall k :: k != key ==> (k in after <==> k in before) && (k in before ==> after[k] == before[k])
  }

  /** No other worker touches the table. */
  ghost predicate Undisturbed(others: (nat, Table) -> Table) {
    forall n, t :: others(n, t) == t
  }

  /** The table after the other workers' first `n` turns, as long as this one writes nothing. */
  ghost function Left(others: (nat, Table) -> Table, t: Table, n: nat): Table {
    if n == 0 then t else others(n - 1, Left(others, t, n - 1))
  }

  lemma LeftNext(others: (nat, Table) -> Table, t: Table, n: nat)
    ensures Left(others, t, n + 1) == others(n, Left(others, t, n)) && Left(others, t, 0) == t
  {
  }

  /** The errors of refused claims. */
  lemma Refusals(r: Item, owned: bool, fingerprint: string, now: Micros)
    requires r.fingerprint == fingerprint && Evaluate(r, owned, fingerprint, now).Answer?
    requires Evaluate(r, owned, fingerprint, now).result.Refused?
    ensures var e := Evaluate(r, owned, fingerprint, now).result.error;
            e == if ValidFailed(r) then StoredError(r.errorCode.value, false)
                 else if ValidSucceeded(r, owned) then StoredError("pin_permanently_deleted", false)
                 else StoredError("internal_error", false)
  {
  }

  class IdempotencyStore {
    var rows: Table
    var pins: map<PinId, User>
    const leaseMicros: Micros

    constructor (leaseMicros: Micros)
      requires leaseMicros > 0
      ensures rows == map[] && pins == map[] && this.leaseMicros == leaseMicros
    {
      rows, pins := map[], map[];
      this.leaseMicros := leaseMicros;
    }

    predicate PinOwned(key: Key, r: Item)
      reads this
    {
      r.pin.Some? && r.pin.value in pins && pins[r.pin.value] == key.submitter
    }

    /**
     Insert the row, or evaluate the existing one and take it over by
     compare-and-swap, at most four times. `others(n, t)` is what the other
     workers make of the table `t` at the n-th point where they may run: before
     the insert and before every read and every update. `at` is the table just
     before this call's last own access, and `lost` lists the failed updates as
     (row read, row found by the update).
     */
    method Claim(key: Key, fingerprint: string, now: Micros, uuid4: nat -> Lease, others: (nat, Table) -> Table)
      returns (result: ClaimResult, ghost at: Table, ghost lost: seq<(Item, Option<Item>)>)
      modifies this`rows
      ensures forall l :: l in lost ==> Reclaimable(l.0, now) && l.0.fingerprint == fingerprint && l.1 != Some(l.0)
      ensures |lost| <= CAS_REEVALUATION_LIMIT
      ensures result.GaveUp? <==> |lost| == CAS_REEVALUATION_LIMIT
      ensures at == Left(others, old(rows), if key !in Left(others, old(rows), 1) then 1
                                            else if result.Claimed? then 2 * |lost| + 3
                                            else if result.GaveUp? then 2 * |lost| + 1 else 2 * |lost| + 2)
      ensures !result.Claimed? ==> rows == at
      ensures result.Claimed? ==>
                && key in rows && rows[key] == Item(fingerprint, Pending, None, None, None, Some(result.grant.lease),
                                                    result.grant.generation, Some(now + leaseMicros))
                && SameButFor(at, rows, key)
                && (if key in at
                    then at[key].fingerprint == fingerprint && result.grant.generation == at[key].generation + 1
                         && (at[key].state == Pending ==> at[key].expires.Some? && at[key].expires.value <= now)
                         && (at[key].state == Failed ==> at[key].retryable == Some(true))
                         && at[key].state != Succeeded
                    else result.grant.generation == 1)
      ensures result.Claimed? ==> forall t :: OwnedPending(rows[key], result.grant, t) <==> t < now + leaseMicros
      ensures result.InsertFailed? ==> key !in at
      ensures !result.Claimed? && !result.GaveUp? && !result.InsertFailed? ==>
                key in at && Explains(result, at[key], PinOwned(key, at[key]), fingerprint, now)
      ensures Undisturbed(others) ==> at == old(rows) && lost == []
      ensures Undisturbed(others) ==>
                (result.Claimed? <==>
                   || key !in old(rows)
                   || (old(rows)[key].fingerprint == fingerprint
                       && ((ValidPending(old(rows)[key]) && old(rows)[key].expires.value <= now)
                           || (ValidFailed(old(rows)[key]) && old(rows)[key].retryable == Some(true)))))
    {
      hide Left, Explains, Evaluate, Reclaimable, CasMatches, OwnedPending, ValidPending, ValidFailed, ValidSucceeded;
      lost := [];
      LeftNext(others, rows, 0);
      rows := others(0, rows);
      at := rows;
      if key !in rows {
        var g := Grant(uuid4(0), 1);
        rows := rows[key := Granted(fingerprint, g, now + leaseMicros)];
        GrantedOwns(fingerprint, g, now + leaseMicros);
        return Claimed(g), at, lost;
      }
      for attempt := 0 to CAS_REEVALUATION_LIMIT
        invariant |lost| == attempt
        invariant forall l :: l in lost ==>
                    Reclaimable(l.0, now) && l.0.fingerprint == fingerprint && l.1 != Some(l.0)
        invariant rows == at == Left(others, old(rows), 2 * attempt + 1) && key in Left(others, old(rows), 1)
        invariant rows == at && (Undisturbed(others) ==> attempt == 0 && at == old(rows) && key in at)
      {
        LeftNext(others, old(rows), 2 * attempt + 1);
        LeftNext(others, old(rows), 2 * attempt + 2);
        rows := others(2 * attempt + 1, rows);
        at := rows;
        if key !in rows {
          return InsertFailed, at, lost;
        }
        var seen := rows[key];
        EvaluationIsRight(seen, PinOwned(key, seen), fingerprint, now);
        ReclaimableMeans(seen, now);
        match Evaluate(seen, PinOwned(key, seen), fingerprint, now) {
          case Answer(r) => return r, at, lost;
          case TakeOver =>
            rows := others(2 * attempt + 2, rows);
            at := rows;
            if key in rows && CasMatches(rows[key], seen, now) {
              var g := Grant(uuid4(attempt + 1), seen.generation + 1);
              rows := rows[key := Granted(fingerprint, g, now + leaseMicros)];
              GrantedOwns(fingerprint, g, now + leaseMicros);
              MatchingRow(at[key], seen, now);
              return Claimed(g), at, lost;
            }
            UnchangedRowMatches(seen, now);
            lost := lost + [(seen, if key in rows then Some(rows[key]) else None)];
        }
      }
      return GaveUp, at, lost;
    }

    /** True exactly when the grant still owns the row: then no other grant does and no claim can take it over. */
    method Fence(key: Key, g: Grant, now: Micros) returns (ok: bool)
      ensures ok <==> key in rows && OwnedPending(rows[key], g, now)
      ensures ok <==>
                && key in rows && rows[key].expires.Some? && rows[key].expires.value > now
                && rows[key] == Item(rows[key].fingerprint, Pending, None, None, None, Some(g.lease), g.generation, rows[key].expires)
      ensures ok ==> forall g', t :: OwnedPending(rows[key], g', t) ==> g' == g
      ensures ok ==> !Reclaimable(rows[key], now)
    {
      ok := key in rows && OwnedPending(rows[key], g, now);
    }

    /** A recorded failure ends every grant, and the row can be claimed again exactly if the error is retryable. */
    method RecordFailure(key: Key, g: Grant, e: StoredError, now: Micros) returns (ok: bool)
      modifies this`rows
      ensures ok <==> key in old(rows) && OwnedPending(old(rows)[key], g, now)
      ensures ok ==>
                && key in rows && SameButFor(old(rows), rows, key)
                && rows[key] == Item(old(rows)[key].fingerprint, Failed, None, Some(e.code), Some(e.retryable),
                                     None, old(rows)[key].generation, None)
      ensures !ok ==> rows == old(rows)
      ensures ok ==> forall g', t :: !OwnedPending(rows[key], g', t)
      ensures ok && SafeCode(e.code) && old(rows)[key].generation >= 1 ==>
                ValidFailed(rows[key]) && forall t :: Reclaimable(rows[key], t) <==> e.retryable
    {
      ok := key in rows && OwnedPending(rows[key], g, now);
      if ok {
        rows := rows[key := FailedItem(rows[key], e)];
      }
    }

    /** A recorded success is a valid row for good: no grant passes the fence any more and no claim takes it over. */
    method RecordSuccess(key: Key, g: Grant, pin: Option<PinId>, now: Micros) returns (ok: bool)
      modifies this`rows
      ensures ok <==>
              && pin.Some? && key in old(rows) && OwnedPending(old(rows)[key], g, now)
              && pin.value in pins && pins[pin.value] == key.submitter
      ensures ok ==>
                && key in rows && SameButFor(old(rows), rows, key)
                && rows[key] == Item(old(rows)[key].fingerprint, Succeeded, pin, None, None,
                                     None, old(rows)[key].generation, None)
      ensures !ok ==> rows == old(rows)
      ensures ok && old(rows)[key].generation >= 1 ==> ValidSucceeded(rows[key], PinOwned(key, rows[key]))
      ensures ok ==> forall g', t :: !OwnedPending(rows[key], g', t)
      ensures ok ==> forall t :: !Reclaimable(rows[key], t)
    {
      if pin.None? {
        return false;
      }
      ok := key in rows && OwnedPending(rows[key], g, now) && pin.value in pins && pins[pin.value] == key.submitter;
      if ok {
        rows := rows[key := SucceededItem(rows[key], pin.value)];
      }
    }
  }

  // ---------------------------------------------------------------- a failure, and the next claim

  /**
   An import that fails and is claimed again: a final error is given back as it
   was recorded; a retryable one is followed by the next generation.
   */
  method FailAndClaimAgain(store: IdempotencyStore, key: Key, g: Grant, e: StoredError, now: Micros, later: Micros,
                           uuid4: nat -> Lease, others: (nat, Table) -> Table)
    returns (result: ClaimResult)
    requires key in store.rows && OwnedPending(store.rows[key], g, now) && store.rows[key].generation >= 1
    requires SafeCode(e.code) && Undisturbed(others)
    modifies store
    ensures !e.retryable ==> result == Refused(StoredError(e.code, false))
    ensures e.retryable ==> result.Claimed? && result.grant.generation == old(store.rows)[key].generation + 1
  {
    var fingerprint := store.rows[key].fingerprint;
    var ok := store.RecordFailure(key, g, e, now);
    ghost var at, lost;
    result, at, lost := store.Claim(key, fingerprint, later, uuid4, others);
  }
}
