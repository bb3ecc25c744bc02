/** Exactly-once imports and monotone rows, over every run of the workers. */
module ImportLeaseProofs {
  import opened Wrappers
  import opened Idempotency
  import opened ImportLease

  // ---------------------------------------------------------------- one row through one step

  /** How a single step may change an existing row. */
  ghost predicate RowMoves(s: State, st: Step, key: Key, r: Item, r': Item) {
    || r' == r
    || (st.Cas? && st.w in s.workers && s.workers[st.w].Reading? && RowFree(s, key)
        && r.state != Succeeded && ValidPending(r') && r'.generation == r.generation + 1)
    || (st.Commit? && st.w in s.workers && s.workers[st.w].Recorded? && s.workers[st.w].key == key
        && r' == SucceededItem(r, s.workers[st.w].pin))
    || (st.Fail? && RowFree(s, key) && r.state == Pending && SafeCode(st.error.code) && r' == FailedItem(r, st.error))
    || (st.DeletePin? && r.pin == Some(st.pin) && r' == r.(pin := None))
  }

  /** Rows are never removed, and each keeps its fingerprint. */
  lemma RowsFrame(s: State, st: Step, period: Micros, key: Key)
    requires Inv(s) && Enabled(s, st) && key in s.rows
    ensures key in Apply(s, st, period).rows
    ensures RowMoves(s, st, key, s.rows[key], Apply(s, st, period).rows[key])
    ensures Apply(s, st, period).rows[key].fingerprint == s.rows[key].fingerprint
  {
    if st.Cas? { assert WorkerOk(s, st.w); }
    match st
    case _ =>
  }

  lemma NewRow(s: State, st: Step, period: Micros, key: Key)
    requires Enabled(s, st) && key !in s.rows && key in Apply(s, st, period).rows
    ensures st.Insert? && st.key == key && ValidPending(Apply(s, st, period).rows[key])
  {
    match st
    case _ =>
  }

  lemma PinsFrame(s: State, st: Step, period: Micros)
    requires Enabled(s, st)
    ensures Apply(s, st, period).origin ==
            if st.Commit? then s.origin[s.workers[st.w].pin := s.workers[st.w].key] else s.origin
    ensures forall p :: p in s.pins && !(st.DeletePin? && p == st.pin) && !(st.Commit? && p == s.workers[st.w].pin) ==>
              p in Apply(s, st, period).pins && Apply(s, st, period).pins[p] == s.pins[p]
    ensures forall p :: p in Apply(s, st, period).pins ==>
              || (p in s.pins && Apply(s, st, period).pins[p] == s.pins[p] && !(st.DeletePin? && p == st.pin))
              || (st.Commit? && p == s.workers[st.w].pin && Apply(s, st, period).pins[p] == s.workers[st.w].key.submitter)
              || (st.PlainImport? && p == st.pin)
    ensures st.Commit? ==> s.workers[st.w].pin in Apply(s, st, period).pins
    ensures st.Commit? ==> Apply(s, st, period).pins[s.workers[st.w].pin] == s.workers[st.w].key.submitter
  {
    match st
    case _ =>
  }

  lemma WorkersFrame(s: State, st: Step, period: Micros)
    requires Enabled(s, st)
    ensures forall v :: v in Apply(s, st, period).workers && (st.DeletePin? || st.PlainImport? || v != st.w) ==>
              v in s.workers && Apply(s, st, period).workers[v] == s.workers[v]
    ensures forall key :: key in s.rowLocks && (st.DeletePin? || st.PlainImport? || s.rowLocks[key] != st.w) ==>
              key in Apply(s, st, period).rowLocks && Apply(s, st, period).rowLocks[key] == s.rowLocks[key]
  {
    match st
    case _ =>
  }

  // ---------------------------------------------------------------- keeping the invariant

  ghost predicate Imported(s: State, key: Key) {
    exists p :: p in s.origin && s.origin[p] == key
  }

  lemma ImportedFrame(s: State, st: Step, period: Micros, key: Key)
    requires Inv(s) && Enabled(s, st)
    ensures Imported(Apply(s, st, period), key) <==>
              Imported(s, key) || (st.Commit? && s.workers[st.w].key == key)
  {
    var t := Apply(s, st, period);
    PinsFrame(s, st, period);
    if p :| p in s.origin && s.origin[p] == key { assert t.origin[p] == key; }
    if st.Commit? && s.workers[st.w].key == key { assert t.origin[s.workers[st.w].pin] == key; }
  }

  /** A Pin that a row names stays the submitter's until it is deleted. */
  lemma OwnedFrame(s: State, st: Step, period: Micros, key: Key, r: Item)
    requires Inv(s) && Enabled(s, st) && Owned(s, key, r) && !(st.DeletePin? && r.pin == Some(st.pin))
    ensures Owned(Apply(s, st, period), key, r)
  {
    PinsFrame(s, st, period);
  }

  lemma KeepsOldRow(s: State, st: Step, period: Micros, key: Key)
    requires Inv(s) && Enabled(s, st) && key in s.rows
    ensures key in Apply(s, st, period).rows && RowOk(Apply(s, st, period), key)
  {
    var r := s.rows[key];
    assert RowOk(s, key);
    RowsFrame(s, st, period, key);
    ImportedFrame(s, st, period, key);
    PinsFrame(s, st, period);
    assert Imported(s, key) <==> r.state == Succeeded;
    if Owned(s, key, r) && !(st.DeletePin? && r.pin == Some(st.pin)) { OwnedFrame(s, st, period, key, r); }
    if st.Commit? && s.workers[st.w].key == key { CommittedRow(s, st, period); }
    assert Imported(Apply(s, st, period), key) <==> Apply(s, st, period).rows[key].state == Succeeded;
  }

  lemma CommittedRow(s: State, st: Step, period: Micros)
    requires Inv(s) && st.Commit? && Enabled(s, st)
    ensures var x, t := s.workers[st.w], Apply(s, st, period);
            && x.key in s.rows && ValidPending(s.rows[x.key])
            && x.key in t.rows && t.rows[x.key] == SucceededItem(s.rows[x.key], x.pin)
            && Owned(t, x.key, t.rows[x.key])
  {
    assert WorkerOk(s, st.w);
  }

  lemma KeepsRow(s: State, st: Step, period: Micros, key: Key)
    requires Inv(s) && Enabled(s, st) && key in Apply(s, st, period).rows
    ensures RowOk(Apply(s, st, period), key)
  {
    if key in s.rows {
      KeepsOldRow(s, st, period, key);
    } else {
      NewRow(s, st, period, key);
      ImportedFrame(s, st, period, key);
      assert !Imported(s, key);
    }
  }

  lemma OtherWorkerStays(s: State, st: Step, period: Micros, v: Wid)
    requires Inv(s) && Enabled(s, st) && v in s.workers && v in Apply(s, st, period).workers
    requires Apply(s, st, period).workers[v] == s.workers[v]
    ensures WorkerOk(Apply(s, st, period), v)
  {
    assert WorkerOk(s, v);
    var x := s.workers[v];
    if x.Fenced? || x.Recorded? {
      WorkersFrame(s, st, period);
      RowsFrame(s, st, period, x.key);
      LockStays(s, st, period, v);
    }
  }

  /** A transaction keeps its row lock while its worker stays where it is. */
  lemma LockStays(s: State, st: Step, period: Micros, v: Wid)
    requires Inv(s) && Enabled(s, st) && v in s.workers && v in Apply(s, st, period).workers
    requires Apply(s, st, period).workers[v] == s.workers[v]
    requires s.workers[v].Fenced? || s.workers[v].Recorded?
    ensures var key := s.workers[v].key;
            && key in s.rowLocks && s.rowLocks[key] == v
            && key in Apply(s, st, period).rowLocks && Apply(s, st, period).rowLocks[key] == v
  {
    assert WorkerOk(s, v);
    match st
    case _ =>
  }

  lemma MovedWorker(s: State, st: Step, period: Micros)
    requires Enabled(s, st) && !st.DeletePin? && !st.PlainImport?
    requires st.w in Apply(s, st, period).workers
    requires st.w in s.workers ==> WorkerOk(s, st.w)
    requires forall key :: key in s.rows ==> RowOk(s, key)
    ensures WorkerOk(Apply(s, st, period), st.w)
  {
    match st
    case Read(_, key, f, now) =>
      assert RowOk(s, key);
      EvaluationIsRight(s.rows[key], Owned(s, key, s.rows[key]), f, now);
    case Fence(w, _) =>
      assert RowOk(s, s.workers[w].key);
    case _ =>
  }

  lemma KeepsWorker(s: State, st: Step, period: Micros, v: Wid)
    requires Inv(s) && Enabled(s, st) && v in Apply(s, st, period).workers
    ensures WorkerOk(Apply(s, st, period), v)
  {
    WorkersFrame(s, st, period);
    if st.DeletePin? || st.PlainImport? || v != st.w {
      OtherWorkerStays(s, st, period, v);
    } else {
      MovedWorker(s, st, period);
    }
  }

  lemma KeepsRowLocks(s: State, st: Step, period: Micros)
    requires Inv(s) && Enabled(s, st)
    ensures LocksOk(Apply(s, st, period))
  {
    match st
    case _ =>
  }

  lemma KeepsOrigins(s: State, st: Step, period: Micros)
    requires Inv(s) && Enabled(s, st)
    ensures OriginsOk(Apply(s, st, period))
  {
    var t := Apply(s, st, period);
    PinsFrame(s, st, period);
    if st.Commit? {
      var key := s.workers[st.w].key;
      assert WorkerOk(s, st.w) && RowOk(s, key);
      assert forall p :: p in s.origin ==> s.origin[p] != key;
    }
    forall p | p in t.origin ensures t.origin[p] in t.rows {
      if p in s.origin { RowsFrame(s, st, period, s.origin[p]); } else { RowsFrame(s, st, period, t.origin[p]); }
    }
  }

  /** Only `Record` puts a Pin into a transaction, and a fresh one. */
  lemma RecordedFrame(s: State, st: Step, period: Micros, v: Wid)
    requires Enabled(s, st) && v in Apply(s, st, period).workers && Apply(s, st, period).workers[v].Recorded?
    ensures || (v in s.workers && s.workers[v] == Apply(s, st, period).workers[v] && !(st.Commit? && st.w == v))
            || (st.Record? && st.w == v && Apply(s, st, period).workers[v].pin == st.pin)
  {
    match st
    case _ =>
  }

  lemma KeepsNewPins(s: State, st: Step, period: Micros)
    requires Inv(s) && Enabled(s, st)
    ensures NewPinsOk(Apply(s, st, period))
  {
    var t := Apply(s, st, period);
    PinsFrame(s, st, period);
    forall v | v in t.workers && t.workers[v].Recorded?
      ensures t.workers[v].pin !in t.pins && t.workers[v].pin !in t.origin
    {
      RecordedFrame(s, st, period, v);
      if st.Commit? { assert !SameNewPin(s.workers[v], s.workers[st.w]); }
    }
    forall v, w | v in t.workers && w in t.workers && SameNewPin(t.workers[v], t.workers[w]) ensures v == w {
      RecordedFrame(s, st, period, v);
      RecordedFrame(s, st, period, w);
      if v in s.workers && w in s.workers { assert SameNewPin(s.workers[v], s.workers[w]) ==> v == w; }
    }
  }

  lemma StepKeepsInv(s: State, st: Step, period: Micros)
    requires Inv(s) && Enabled(s, st)
    ensures Inv(Apply(s, st, period))
  {
    forall key | key in Apply(s, st, period).rows ensures RowOk(Apply(s, st, period), key) { KeepsRow(s, st, period, key); }
    forall v | v in Apply(s, st, period).workers ensures WorkerOk(Apply(s, st, period), v) { KeepsWorker(s, st, period, v); }
    KeepsRowLocks(s, st, period);
    KeepsOrigins(s, st, period);
    KeepsNewPins(s, st, period);
  }

  // ---------------------------------------------------------------- grants

  lemma GrantsFrame(s: State, st: Step, period: Micros)
    requires Inv(s) && Enabled(s, st)
    ensures var g, g' := s.grants, Apply(s, st, period).grants;
            || g' == g
            || (st.Insert? && g' == g + [Granting(st.key, Grant(st.lease, 1), st.w)])
            || (st.Cas? && s.workers[st.w].key in s.rows
                && var key := s.workers[st.w].key;
                   && g' == g + [Granting(key, Grant(st.lease, s.rows[key].generation + 1), st.w)]
                   && Apply(s, st, period).rows[key].generation == s.rows[key].generation + 1)
  {
    match st
    case _ =>
  }

  lemma KeepsGrants(s: State, st: Step, period: Micros)
    requires Inv(s) && GrantsRise(s) && Enabled(s, st)
    ensures GrantsRise(Apply(s, st, period))
  {
    var t := Apply(s, st, period);
    GrantsFrame(s, st, period);
    forall i | 0 <= i < |t.grants|
      ensures t.grants[i].key in t.rows && t.grants[i].grant.generation <= t.rows[t.grants[i].key].generation
    {
      if i < |s.grants| { RowsFrame(s, st, period, s.grants[i].key); }
    }
    if st.Insert? { assert forall i :: 0 <= i < |s.grants| ==> s.grants[i].key != st.key; }
  }

  // ---------------------------------------------------------------- over whole runs

  lemma {:induction false} RunKeepsInv(s: State, run: seq<Step>, period: Micros, t: State)
    requires Inv(s) && GrantsRise(s) && Run(s, run, period, t)
    ensures Inv(t) && GrantsRise(t)
    decreases |run|
  {
    if run != [] {
      StepKeepsInv(s, run[0], period);
      KeepsGrants(s, run[0], period);
      RunKeepsInv(Apply(s, run[0], period), run[1..], period, t);
    }
  }

  /** However the workers interleave, at most one Pin is ever committed for a row. */
  lemma ImportsHappenAtMostOnce(run: seq<Step>, period: Micros, t: State, p: PinId, q: PinId)
    requires Run(EMPTY, run, period, t)
    requires p in t.origin && q in t.origin && t.origin[p] == t.origin[q]
    ensures p == q
  {
    RunKeepsInv(EMPTY, run, period, t);
  }

  /** A row is SUCCEEDED exactly when its Pin was committed, and names no other Pin. */
  lemma SucceededMeansImported(run: seq<Step>, period: Micros, t: State, key: Key)
    requires Run(EMPTY, run, period, t) && key in t.rows
    ensures t.rows[key].state == Succeeded <==> exists p :: p in t.origin && t.origin[p] == key
    ensures t.rows[key].pin.Some? ==> t.rows[key].pin.value in t.origin && t.origin[t.rows[key].pin.value] == key
  {
    RunKeepsInv(EMPTY, run, period, t);
    assert RowOk(t, key);
  }

  /** A succeeded row shows its Pin until that Pin is deleted, and nothing afterwards. */
  lemma SucceededRowShowsItsPin(run: seq<Step>, period: Micros, t: State, key: Key)
    requires Run(EMPTY, run, period, t) && key in t.rows && t.rows[key].state == Succeeded
    ensures t.rows[key].pin.Some? ==> Owned(t, key, t.rows[key])
  {
    RunKeepsInv(EMPTY, run, period, t);
    assert RowOk(t, key);
  }

  /** Every reachable row has exactly one of the three valid shapes. */
  lemma RowsStayValid(run: seq<Step>, period: Micros, t: State, key: Key)
    requires Run(EMPTY, run, period, t) && key in t.rows
    ensures var r, o := t.rows[key], Owned(t, key, t.rows[key]);
            && (ValidPending(r) || ValidSucceeded(r, o) || ValidFailed(r))
            && !(ValidPending(r) && ValidSucceeded(r, o)) && !(ValidPending(r) && ValidFailed(r))
            && !(ValidSucceeded(r, o) && ValidFailed(r))
  {
    RunKeepsInv(EMPTY, run, period, t);
    assert RowOk(t, key);
  }

  /** Over any run a row keeps its fingerprint, its generation never falls, and SUCCEEDED is final. */
  lemma {:induction false} RowsOnlyMoveForward(s: State, run: seq<Step>, period: Micros, t: State, key: Key)
    requires Inv(s) && Run(s, run, period, t) && key in s.rows
    ensures key in t.rows
    ensures t.rows[key].fingerprint == s.rows[key].fingerprint
    ensures t.rows[key].generation >= s.rows[key].generation
    ensures s.rows[key].state == Succeeded ==> t.rows[key].state == Succeeded
    ensures s.rows[key].state == Succeeded ==> t.rows[key].pin.None? || t.rows[key].pin == s.rows[key].pin
    decreases |run|
  {
    if run != [] {
      StepKeepsInv(s, run[0], period);
      RowsFrame(s, run[0], period, key);
      if run[0].Commit? { CommittedRow(s, run[0], period); }
      RowsOnlyMoveForward(Apply(s, run[0], period), run[1..], period, t, key);
    }
  }

  /** No two grants on one row ever share a generation, and later grants have later generations. */
  lemma GrantsNeverShareAGeneration(run: seq<Step>, period: Micros, t: State, i: nat, j: nat)
    requires Run(EMPTY, run, period, t) && i < j < |t.grants|
    requires t.grants[i].key == t.grants[j].key
    ensures t.grants[i].grant.generation < t.grants[j].grant.generation
  {
    RunKeepsInv(EMPTY, run, period, t);
  }

  /** A worker inside its transaction holds the newest grant of its row: stale workers are fenced off. */
  lemma StaleWorkersAreFenced(run: seq<Step>, period: Micros, t: State, w: Wid, i: nat)
    requires Run(EMPTY, run, period, t) && w in t.workers && (t.workers[w].Fenced? || t.workers[w].Recorded?)
    requires i < |t.grants| && t.grants[i].key == t.workers[w].key
    ensures t.grants[i].grant.generation <= t.workers[w].grant.generation
    ensures forall v :: v in t.workers && v != w && t.workers[v].key == t.workers[w].key ==>
              !t.workers[v].Fenced? && !t.workers[v].Recorded?
  {
    RunKeepsInv(EMPTY, run, period, t);
    assert WorkerOk(t, w);
    forall v | v in t.workers ensures WorkerOk(t, v) { }
  }

  /** An expired or retryable row that nobody holds can always be taken over, with the next generation. */
  lemma AbandonedRowsCanBeReclaimed(s: State, w: Wid, key: Key, now: Micros, lease: Lease, period: Micros)
    requires key in s.rows && Reclaimable(s.rows[key], now) && RowFree(s, key) && w !in s.workers
    ensures var read := Read(w, key, s.rows[key].fingerprint, now);
            && Enabled(s, read)
            && Enabled(Apply(s, read, period), Cas(w, lease))
            && (var t := Apply(Apply(s, read, period), Cas(w, lease), period);
                && w in t.workers && t.workers[w] == Holding(key, Grant(lease, s.rows[key].generation + 1))
                && OwnedPending(t.rows[key], t.workers[w].grant, now + period - 1))
  {
    EvaluationIsRight(s.rows[key], Owned(s, key, s.rows[key]), s.rows[key].fingerprint, now);
    UnchangedRowMatches(s.rows[key], now);
  }
}
