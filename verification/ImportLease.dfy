/**
 Workers sharing one lease table: claims, fenced import transactions, failures,
 pin deletions and crashes, interleaved in any order and under any clock readings.
 The fence's row update holds the row until the transaction ends, so other
 workers' updates of that row wait.
 */
module ImportLease {
  import opened Wrappers
  import opened Idempotency

  type Wid = nat

  datatype Worker =
    | Reading(key: Key, seen: Item, now: Micros)
    | Holding(key: Key, grant: Grant)
    | Fenced(key: Key, grant: Grant)
    | Recorded(key: Key, grant: Grant, pin: PinId)

  /** A grant that was handed out, kept for ever. */
  datatype Granting = Granting(key: Key, grant: Grant, worker: Wid)

  datatype State = State(
    rows: Table,
    pins: map<PinId, User>,
    workers: map<Wid, Worker>,
    rowLocks: map<Key, Wid>,
    // History, read by no step:
    origin: map<PinId, Key>,
    grants: seq<Granting>)

  datatype Step =
    | Insert(w: Wid, key: Key, fingerprint: string, now: Micros, lease: Lease)
    | Read(w: Wid, key: Key, fingerprint: string, now: Micros)
    | Cas(w: Wid, lease: Lease)
    | Fence(w: Wid, now: Micros)
    | Record(w: Wid, now: Micros, pin: PinId)
    | Commit(w: Wid)
    | Rollback(w: Wid)
    | Fail(w: Wid, now: Micros, error: StoredError)
    | Crash(w: Wid)
    | DeletePin(pin: PinId)
    | PlainImport(pin: PinId, user: User)

  predicate Owned(s: State, key: Key, r: Item) {
    r.pin.Some? && r.pin.value in s.pins && s.pins[r.pin.value] == key.submitter
  }

  /** No other worker's transaction holds the row. */
  predicate RowFree(s: State, key: Key) {
    key !in s.rowLocks
  }

  /** A primary key never used before. */
  predicate FreshPin(s: State, pin: PinId) {
    && pin !in s.pins && pin !in s.origin
    && (forall v :: v in s.workers && s.workers[v].Recorded? ==> s.workers[v].pin != pin)
  }

  predicate Enabled(s: State, st: Step) {
    match st
    case Insert(w, key, _, _, _) => w !in s.workers && key !in s.rows
    case Read(w, key, fingerprint, now) =>
      && w !in s.workers && key in s.rows
      && Evaluate(s.rows[key], Owned(s, key, s.rows[key]), fingerprint, now).TakeOver?
    case Cas(w, _) =>
      && w in s.workers && s.workers[w].Reading? && RowFree(s, s.workers[w].key)
    case Fence(w, now) =>
      && w in s.workers && s.workers[w].Holding?
      && var x := s.workers[w];
         RowFree(s, x.key) && x.key in s.rows && OwnedPending(s.rows[x.key], x.grant, now)
    case Record(w, now, pin) =>
      && w in s.workers && s.workers[w].Fenced? && FreshPin(s, pin)
      && var x := s.workers[w];
         x.key in s.rows && OwnedPending(s.rows[x.key], x.grant, now)
    case Commit(w) => w in s.workers && s.workers[w].Recorded?
    case Rollback(w) => w in s.workers && (s.workers[w].Fenced? || s.workers[w].Recorded?)
    case Fail(w, now, error) =>
      && w in s.workers && s.workers[w].Holding? && SafeCode(error.code)
      && RowFree(s, s.workers[w].key)
    case Crash(w) => w in s.workers
    case DeletePin(pin) => pin in s.pins
    case PlainImport(pin, _) => FreshPin(s, pin)
  }

  function Unlock(locks: map<Key, Wid>, w: Wid): map<Key, Wid> {
    map k | k in locks && locks[k] != w :: locks[k]
  }

  function Gone(ws: map<Wid, Worker>, w: Wid): map<Wid, Worker> {
    map v | v in ws && v != w :: ws[v]
  }

  function ForgetPin(rows: Table, pin: PinId): Table {
    map k | k in rows :: if rows[k].pin == Some(pin) then rows[k].(pin := None) else rows[k]
  }

  /** Hand out `g` on the row, with the given lease period. */
  function Grants(s: State, w: Wid, key: Key, fingerprint: string, g: Grant, expires: Micros): State {
    s.(rows := s.rows[key := Granted(fingerprint, g, expires)],
       workers := s.workers[w := Holding(key, g)],
       grants := s.grants + [Granting(key, g, w)])
  }

  function Apply(s: State, st: Step, leaseMicros: Micros): State
    requires Enabled(s, st)
  {
    match st
    case Insert(w, key, fingerprint, now, lease) =>
      Grants(s, w, key, fingerprint, Grant(lease, 1), now + leaseMicros)
    case Read(w, key, _, now) =>
      s.(workers := s.workers[w := Reading(key, s.rows[key], now)])
    case Cas(w, lease) =>
      var x := s.workers[w];
      if x.key in s.rows && CasMatches(s.rows[x.key], x.seen, x.now) then
        Grants(s, w, x.key, x.seen.fingerprint, Grant(lease, x.seen.generation + 1), x.now + leaseMicros)
      else
        s.(workers := Gone(s.workers, w))
    case Fence(w, _) =>
      var x := s.workers[w];
      s.(rowLocks := s.rowLocks[x.key := w], workers := s.workers[w := Fenced(x.key, x.grant)])
    case Record(w, _, pin) =>
      var x := s.workers[w];
      s.(workers := s.workers[w := Recorded(x.key, x.grant, pin)])
    case Commit(w) =>
      var x := s.workers[w];
      s.(rows := if x.key in s.rows then s.rows[x.key := SucceededItem(s.rows[x.key], x.pin)] else s.rows,
         pins := s.pins[x.pin := x.key.submitter],
         origin := s.origin[x.pin := x.key],
         rowLocks := Unlock(s.rowLocks, w),
         workers := Gone(s.workers, w))
    case Rollback(w) =>
      var x := s.workers[w];
      s.(rowLocks := Unlock(s.rowLocks, w), workers := s.workers[w := Holding(x.key, x.grant)])
    case Fail(w, now, error) =>
      var x := s.workers[w];
      var s1 := s.(workers := Gone(s.workers, w));
      if x.key in s.rows && OwnedPending(s.rows[x.key], x.grant, now)
      then s1.(rows := s.rows[x.key := FailedItem(s.rows[x.key], error)])
      else s1
    case Crash(w) =>
      s.(rowLocks := Unlock(s.rowLocks, w), workers := Gone(s.workers, w))
    case DeletePin(pin) =>
      s.(pins := map p | p in s.pins && p != pin :: s.pins[p], rows := ForgetPin(s.rows, pin))
    case PlainImport(pin, user) =>
      s.(pins := s.pins[pin := user])
  }

  predicate Run(s: State, run: seq<Step>, leaseMicros: Micros, t: State)
    decreases |run|
  {
    if run == [] then s == t
    else Enabled(s, run[0]) && Run(Apply(s, run[0], leaseMicros), run[1..], leaseMicros, t)
  }

  const EMPTY := State(map[], map[], map[], map[], map[], [])

  // ---------------------------------------------------------------- invariant

  predicate ValidShape(r: Item, owned: bool) {
    ValidPending(r) || ValidSucceeded(r, owned) || ValidFailed(r)
  }

  ghost predicate RowOk(s: State, key: Key)
    requires key in s.rows
  {
    var r := s.rows[key];
    && ValidShape(r, Owned(s, key, r))
    && (r.state == Succeeded <==> exists p :: p in s.origin && s.origin[p] == key)
    && (r.pin.Some? ==> r.pin.value in s.origin && s.origin[r.pin.value] == key)
  }

  /** Inside its transaction a worker holds the row, pending under its own grant. */
  ghost predicate WorkerOk(s: State, w: Wid)
    requires w in s.workers
  {
    var x := s.workers[w];
    && (x.Fenced? || x.Recorded? ==>
          && x.key in s.rowLocks && s.rowLocks[x.key] == w
          && x.key in s.rows && ValidPending(s.rows[x.key])
          && s.rows[x.key].lease == Some(x.grant.lease) && s.rows[x.key].generation == x.grant.generation)
    && (x.Reading? ==> x.seen.generation >= 1 && x.seen.state != Succeeded)
  }

  ghost predicate LocksOk(s: State) {
    forall key :: key in s.rowLocks ==> s.rowLocks[key] in s.workers && InTransactionOn(s.workers[s.rowLocks[key]], key)
  }

  predicate InTransactionOn(x: Worker, key: Key) {
    (x.Fenced? || x.Recorded?) && x.key == key
  }

  /** At most one Pin was ever committed for a row, and it belongs to the row's submitter. */
  ghost predicate OriginsOk(s: State) {
    && (forall p :: p in s.origin ==> s.origin[p] in s.rows)
    && (forall p, q :: p in s.origin && q in s.origin && s.origin[p] == s.origin[q] ==> p == q)
    && (forall p :: p in s.pins && p in s.origin ==> s.pins[p] == s.origin[p].submitter)
  }

  /** The keys of Pins about to be committed are fresh and distinct. */
  ghost predicate NewPinsOk(s: State) {
    && (forall w :: w in s.workers && s.workers[w].Recorded? ==>
          s.workers[w].pin !in s.pins && s.workers[w].pin !in s.origin)
    && (forall v, w :: v in s.workers && w in s.workers && SameNewPin(s.workers[v], s.workers[w]) ==> v == w)
  }

  predicate SameNewPin(x: Worker, y: Worker) {
    x.Recorded? && y.Recorded? && x.pin == y.pin
  }

  ghost predicate Inv(s: State) {
    && (forall key :: key in s.rows ==> RowOk(s, key))
    && (forall w :: w in s.workers ==> WorkerOk(s, w))
    && LocksOk(s)
    && OriginsOk(s)
    && NewPinsOk(s)
  }

  /** Grants on one row have rising generations, none above the row's own. */
  ghost predicate GrantsRise(s: State) {
    && (forall i :: 0 <= i < |s.grants| ==>
          s.grants[i].key in s.rows && s.grants[i].grant.generation <= s.rows[s.grants[i].key].generation)
    && (forall i, j :: 0 <= i < j < |s.grants| && s.grants[i].key == s.grants[j].key ==>
          s.grants[i].grant.generation < s.grants[j].grant.generation)
  }

  /** Nothing keeps a worker from crashing, a transaction from rolling back, or a Pin from being deleted. */
  lemma FailuresArePossible(s: State)
    ensures forall w :: w in s.workers ==> Enabled(s, Step.Crash(w))
    ensures forall w :: w in s.workers && s.workers[w].Fenced? ==> Enabled(s, Step.Rollback(w))
    ensures forall w :: w in s.workers && s.workers[w].Recorded? ==> Enabled(s, Step.Rollback(w)) && Enabled(s, Step.Commit(w))
    ensures forall p :: p in s.pins ==> Enabled(s, Step.DeletePin(p))
  {
  }

  // ---------------------------------------------------------------- what each step writes

  /** The rows and Pins after a step, field by field. */
  lemma StepWrites(s: State, st: Step, leaseMicros: Micros)
    requires Enabled(s, st)
    ensures var t := Apply(s, st, leaseMicros);
            match st
            case Insert(_, key, fingerprint, now, lease) =>
              t.pins == s.pins
              && t.rows == s.rows[key := Item(fingerprint, Pending, None, None, None, Some(lease), 1, Some(now + leaseMicros))]
            case Cas(w, lease) =>
              var x := s.workers[w];
              t.pins == s.pins
              && t.rows == if x.key in s.rows && CasMatches(s.rows[x.key], x.seen, x.now)
                           then s.rows[x.key := Item(x.seen.fingerprint, Pending, None, None, None, Some(lease),
                                                     x.seen.generation + 1, Some(x.now + leaseMicros))]
                           else s.rows
            case Commit(w) =>
              var x := s.workers[w];
              t.pins == s.pins[x.pin := x.key.submitter]
              && (x.key in s.rows ==>
                    t.rows == s.rows[x.key := Item(s.rows[x.key].fingerprint, Succeeded, Some(x.pin), None, None,
                                                   None, s.rows[x.key].generation, None)])
            case Fail(w, now, e) =>
              var x := s.workers[w];
              t.pins == s.pins
              && t.rows == if x.key in s.rows && OwnedPending(s.rows[x.key], x.grant, now)
                           then s.rows[x.key := Item(s.rows[x.key].fingerprint, Failed, None, Some(e.code), Some(e.retryable),
                                                     None, s.rows[x.key].generation, None)]
                           else s.rows
            case DeletePin(pin) =>
              && (forall p :: p in t.pins <==> p in s.pins && p != pin)
              && (forall k :: k in t.rows <==> k in s.rows)
              && (forall k :: k in s.rows ==>
                    t.rows[k] == if s.rows[k].pin == Some(pin) then s.rows[k].(pin := None) else s.rows[k])
            case PlainImport(pin, user) => t.rows == s.rows && t.pins == s.pins[pin := user]
            case _ => t.rows == s.rows && t.pins == s.pins
  {
  }
}
