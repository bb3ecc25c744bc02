/**
 File locks and row locks of everything that touches media, boards and Pins:
 who may ask for which lock while holding which, and why no waiting cycle
 arises although imports lock boards before the asset row and registered
 deletes lock the asset row before boards. One cycle does arise: an import's
 commit checks the foreign keys to its user, while a board service that has
 locked this user waits for a board that the import has locked.
 */
module LockOrder {
  import opened Wrappers

  type Pid = nat
  type AssetId = nat
  type UserId = nat

  datatype Lock =
    | Stripe(stripe: nat)
    | Lifecycle
    | ItemRow(id: nat)
    | UserRow(id: UserId)
    | BoardRow(id: nat)
    | PinRow(id: nat)
    | ImageRow(id: nat)
    | ThumbnailRow(id: nat)
    | SettledItemRow(id: nat)
    | AssetRow(asset: AssetId)

  datatype Role =
    | Import(asset: AssetId, user: UserId)
    | RegisteredDelete(asset: AssetId)
    | LegacyDelete(asset: AssetId)
    | BoardService
    | WriterGate
    | Worker

  datatype Proc = Proc(role: Role, held: set<Lock>, want: Option<Lock>)

  type Procs = map<Pid, Proc>

  const STRIPES: nat := 256

  predicate IsRow(l: Lock) {
    !l.Stripe? && !l.Lifecycle?
  }

  /**
   Imports and legacy deletes share the lifecycle lock, and the key checks of
   imports share the user row; every other lock is exclusive.
   */
  predicate Shares(role: Role, l: Lock) {
    (l.Lifecycle? && (role.Import? || role.LegacyDelete?)) || (l.UserRow? && role.Import?)
  }

  /**
   Position in the common order; the asset row has none. The idempotency rows
   that imports lock are pending; those that a Pin's deletion clears have a Pin,
   so they are settled and no import locks them.
   */
  function Class(l: Lock): nat {
    match l
    case Stripe(_) => 0
    case Lifecycle => 1
    case ItemRow(_) => 2
    case UserRow(_) => 3
    case BoardRow(_) => 4
    case PinRow(_) => 5
    case ImageRow(_) => 6
    case ThumbnailRow(_) => 7
    case SettledItemRow(_) => 8
    case AssetRow(_) => 9
  }

  function Number(l: Lock): nat {
    match l
    case Stripe(k) => k
    case Lifecycle => 0
    case ItemRow(n) => n
    case UserRow(n) => n
    case BoardRow(n) => n
    case PinRow(n) => n
    case ImageRow(n) => n
    case ThumbnailRow(n) => n
    case SettledItemRow(n) => n
    case AssetRow(n) => n
  }

  predicate Less(a: Lock, b: Lock) {
    Class(a) < Class(b) || (Class(a) == Class(b) && Number(a) < Number(b))
  }

  predicate AboveAll(held: set<Lock>, l: Lock) {
    forall h :: h in held && !h.AssetRow? ==> Less(h, l)
  }

  function FirstStripes(n: nat): set<Lock> {
    set k | 0 <= k < n :: Stripe(k)
  }

  /** The requests that each kind of process makes, by what it holds at that time. */
  predicate MayWant(stripeOf: AssetId -> nat, x: Proc, l: Lock) {
    l !in x.held &&
    match x.role
    case Import(a, u) =>
      if l.Stripe? then l == Stripe(stripeOf(a)) && x.held == {}
      else if l.Lifecycle? then x.held == {Stripe(stripeOf(a))}
      else
        && Stripe(stripeOf(a)) in x.held && Lifecycle in x.held && !l.PinRow? && !l.SettledItemRow?
        && (if l.AssetRow? then l.asset == a else if l.UserRow? then l.id == u else AboveAll(x.held, l))
    case RegisteredDelete(a) =>
      if l.Stripe? then l == Stripe(stripeOf(a)) && x.held == {}
      else
        && !l.Lifecycle? && !l.UserRow? && Stripe(stripeOf(a)) in x.held
        && (if l.AssetRow? then l.asset == a else AboveAll(x.held, l))
    case LegacyDelete(a) =>
      if l.Lifecycle? then x.held == {}
      else if l.AssetRow? then l.asset == a && x.held == {Lifecycle}
      else IsRow(l) && !l.UserRow? && Lifecycle in x.held && AssetRow(a) !in x.held && AboveAll(x.held, l)
    case BoardService =>
      if l.UserRow? then x.held == {} else (l.BoardRow? || l.PinRow?) && AboveAll(x.held, l)
    case WriterGate =>
      if l.Stripe? then l.stripe < STRIPES && x.held == FirstStripes(l.stripe)
      else l.Lifecycle? && x.held == FirstStripes(STRIPES)
    case Worker => false
  }

  /** Another process holds the lock in a way that keeps this one out. */
  predicate Conflict(s: Procs, p: Pid, q: Pid, l: Lock)
    requires p in s && q in s
  {
    p != q && l in s[q].held && !(Shares(s[p].role, l) && Shares(s[q].role, l))
  }

  predicate Free(s: Procs, p: Pid, l: Lock)
    requires p in s
  {
    forall q :: q in s ==> !Conflict(s, p, q, l)
  }

  datatype Action =
    | Spawn(p: Pid, role: Role)
    | Request(p: Pid, l: Lock)
    | Grant(p: Pid)
    | TryLifecycle(p: Pid)
    | EndTransaction(p: Pid)
    | ReleaseLifecycle(p: Pid)
    | Quit(p: Pid)

  ghost predicate Enabled(stripeOf: AssetId -> nat, s: Procs, a: Action) {
    match a
    case Spawn(p, _) => p !in s
    case Request(p, l) => p in s && s[p].want.None? && MayWant(stripeOf, s[p], l)
    case Grant(p) => p in s && s[p].want.Some? && Free(s, p, s[p].want.value)
    case TryLifecycle(p) => p in s && s[p].role.Worker? && Free(s, p, Lifecycle)
    case EndTransaction(p) => p in s && s[p].want.None?
    case ReleaseLifecycle(p) =>
      p in s && s[p].want.None? && (s[p].role.LegacyDelete? || forall l :: l in s[p].held ==> !IsRow(l))
    case Quit(p) => p in s
  }

  /** Rows go at the end of the transaction; `Quit` drops everything, as a timeout or a crash does. */
  function Apply(s: Procs, a: Action): Procs {
    match a
    case Spawn(p, role) => s[p := Proc(role, {}, None)]
    case Request(p, l) => if p in s then s[p := s[p].(want := Some(l))] else s
    case Grant(p) =>
      if p in s && s[p].want.Some? then s[p := Proc(s[p].role, s[p].held + {s[p].want.value}, None)] else s
    case TryLifecycle(p) => if p in s then s[p := s[p].(held := s[p].held + {Lifecycle})] else s
    case EndTransaction(p) =>
      if p in s then s[p := s[p].(held := set l | l in s[p].held && !IsRow(l))] else s
    case ReleaseLifecycle(p) => if p in s then s[p := s[p].(held := s[p].held - {Lifecycle})] else s
    case Quit(p) => map q | q in s && q != p :: s[q]
  }

  ghost predicate Run(stripeOf: AssetId -> nat, s: Procs, run: seq<Action>, t: Procs)
    decreases |run|
  {
    if run == [] then s == t
    else Enabled(stripeOf, s, run[0]) && Run(stripeOf, Apply(s, run[0]), run[1..], t)
  }

  // ---------------------------------------------------------------- the invariant

  /** What a process of each kind can be holding. */
  ghost predicate HeldOk(stripeOf: AssetId -> nat, x: Proc) {
    match x.role
    case Import(a, u) =>
      && (forall l :: l in x.held ==> !l.PinRow? && !l.SettledItemRow? && (l.UserRow? ==> l.id == u))
      && (forall l :: l in x.held && l.Stripe? ==> l == Stripe(stripeOf(a)))
      && (forall l :: l in x.held && l.AssetRow? ==> l.asset == a)
      && (x.held != {} ==> Stripe(stripeOf(a)) in x.held)
    case RegisteredDelete(a) =>
      && (forall l :: l in x.held ==> !l.UserRow?)
      && (forall l :: l in x.held && l.Stripe? ==> l == Stripe(stripeOf(a)))
      && (forall l :: l in x.held && l.AssetRow? ==> l.asset == a)
      && (x.held != {} ==> Stripe(stripeOf(a)) in x.held)
    case LegacyDelete(a) =>
      && (forall l :: l in x.held ==> !l.Stripe? && !l.UserRow? && (l.AssetRow? ==> l.asset == a))
    case BoardService =>
      forall l :: l in x.held ==> IsRow(l) && !l.AssetRow?
    case WriterGate =>
      (exists n :: 0 <= n <= STRIPES && x.held == FirstStripes(n)) || x.held == FirstStripes(STRIPES) + {Lifecycle}
    case Worker =>
      x.held <= {Lifecycle} && x.want.None?
  }

  ghost predicate ProcOk(stripeOf: AssetId -> nat, x: Proc) {
    HeldOk(stripeOf, x) && (x.want.Some? ==> MayWant(stripeOf, x, x.want.value))
  }

  ghost predicate Exclusive(s: Procs) {
    forall p, q, l :: p in s && q in s && p != q && l in s[p].held && l in s[q].held ==>
      Shares(s[p].role, l) && Shares(s[q].role, l)
  }

  ghost predicate Inv(stripeOf: AssetId -> nat, s: Procs) {
    Exclusive(s) && forall p :: p in s ==> ProcOk(stripeOf, s[p])
  }

  lemma StepKeepsExclusive(stripeOf: AssetId -> nat, s: Procs, a: Action)
    requires Exclusive(s) && Enabled(stripeOf, s, a)
    ensures Exclusive(Apply(s, a))
  {
    var t := Apply(s, a);
    forall p, q, l | p in t && q in t && p != q && l in t[p].held && l in t[q].held
      ensures Shares(t[p].role, l) && Shares(t[q].role, l)
    {
      match a
      case Grant(r) =>
        if p == r && l !in s[p].held { assert !Conflict(s, p, q, l); }
        if q == r && l !in s[q].held { assert !Conflict(s, q, p, l); }
      case TryLifecycle(r) =>
        if p == r && l !in s[p].held { assert !Conflict(s, p, q, l); }
        if q == r && l !in s[q].held { assert !Conflict(s, q, p, l); }
      case _ =>
    }
  }

  lemma NextStripe(n: nat)
    ensures FirstStripes(n) + {Stripe(n)} == FirstStripes(n + 1)
  {
  }

  lemma StepKeepsProc(stripeOf: AssetId -> nat, s: Procs, a: Action, p: Pid)
    requires Enabled(stripeOf, s, a) && p in Apply(s, a) && (p in s ==> ProcOk(stripeOf, s[p]))
    ensures ProcOk(stripeOf, Apply(s, a)[p])
  {
    var t := Apply(s, a);
    match a
    case Spawn(_, role) =>
      if p == a.p && role.WriterGate? { assert FirstStripes(0) == {}; }
    case Grant(_) =>
      if p == a.p && s[p].role.WriterGate? && s[p].want.value.Stripe? { NextStripe(s[p].want.value.stripe); }
    case EndTransaction(_) =>
      if p == a.p && s[p].role.WriterGate? { assert t[p].held == s[p].held; }
    case ReleaseLifecycle(_) =>
      if p == a.p && s[p].role.WriterGate? { assert t[p].held == s[p].held || t[p].held == FirstStripes(STRIPES); }
    case _ =>
  }

  lemma StepKeepsInv(stripeOf: AssetId -> nat, s: Procs, a: Action)
    requires Inv(stripeOf, s) && Enabled(stripeOf, s, a)
    ensures Inv(stripeOf, Apply(s, a))
  {
    StepKeepsExclusive(stripeOf, s, a);
    forall p | p in Apply(s, a) ensures ProcOk(stripeOf, Apply(s, a)[p]) { StepKeepsProc(stripeOf, s, a, p); }
  }

  lemma {:induction false} ReachableInv(stripeOf: AssetId -> nat, s: Procs, run: seq<Action>, t: Procs)
    requires Inv(stripeOf, s) && Run(stripeOf, s, run, t)
    ensures Inv(stripeOf, t)
    decreases |run|
  {
    if run != [] {
      StepKeepsInv(stripeOf, s, run[0]);
      ReachableInv(stripeOf, Apply(s, run[0]), run[1..], t);
    }
  }

  // ---------------------------------------------------------------- waiting

  ghost predicate WaitsFor(s: Procs, p: Pid, q: Pid) {
    p in s && q in s && s[p].want.Some? && Conflict(s, p, q, s[p].want.value)
  }

  ghost predicate StripesExist(stripeOf: AssetId -> nat) {
    forall a :: stripeOf(a) < STRIPES
  }

  /** An import that waits, at its commit, for its user's row. */
  predicate Committing(x: Proc) {
    x.role.Import? && x.want.Some? && x.want.value.UserRow?
  }

  /** A process in the way of a committing import is a board service that has locked the user. */
  lemma CommitWait(stripeOf: AssetId -> nat, s: Procs, p: Pid, q: Pid)
    requires Inv(stripeOf, s) && WaitsFor(s, p, q) && Committing(s[p])
    ensures s[q].role.BoardService? && s[p].want == Some(UserRow(s[p].role.user)) && UserRow(s[p].role.user) in s[q].held
    ensures s[q].want.Some? ==> s[q].want.value.BoardRow? || s[q].want.value.PinRow?
  {
    assert ProcOk(stripeOf, s[p]) && ProcOk(stripeOf, s[q]);
  }

  /** The gate holds no row. */
  lemma GateHolds(stripeOf: AssetId -> nat, x: Proc, l: Lock)
    requires ProcOk(stripeOf, x) && l in x.held && IsRow(l)
    ensures !x.role.WriterGate?
  {
  }

  /** A waiting process that holds an asset row is an import or a registered delete, holds the stripe, and wants a ranked lock. */
  lemma AssetHolder(stripeOf: AssetId -> nat, x: Proc, a: AssetId)
    requires ProcOk(stripeOf, x) && AssetRow(a) in x.held && x.want.Some?
    ensures (x.role.Import? && x.role.asset == a) || x.role == RegisteredDelete(a)
    ensures Stripe(stripeOf(a)) in x.held && !x.want.value.AssetRow?
  {
    GateHolds(stripeOf, x, AssetRow(a));
  }

  /** Only a legacy delete, holding nothing but the lifecycle lock, waits for the asset row of a waiting process. */
  lemma AssetWait(stripeOf: AssetId -> nat, s: Procs, p: Pid, q: Pid)
    requires Inv(stripeOf, s) && WaitsFor(s, p, q) && s[p].want.value.AssetRow? && s[q].want.Some?
    ensures s[p].role.LegacyDelete? && s[p].held == {Lifecycle}
    ensures !s[q].role.WriterGate? && Stripe(stripeOf(s[p].want.value.asset)) in s[q].held
    ensures !s[q].want.value.AssetRow?
  {
    var a := s[p].want.value.asset;
    assert ProcOk(stripeOf, s[p]) && ProcOk(stripeOf, s[q]);
    AssetHolder(stripeOf, s[q], a);
    assert Stripe(stripeOf(a)) !in s[p].held;
  }

  /** A process somebody waits for, itself waiting for a waiting process, does not wait for an asset row. */
  lemma WaitedForIsRanked(stripeOf: AssetId -> nat, s: Procs, r: Pid, p: Pid, q: Pid)
    requires Inv(stripeOf, s) && StripesExist(stripeOf)
    requires WaitsFor(s, r, p) && WaitsFor(s, p, q) && s[q].want.Some?
    ensures !s[p].want.value.AssetRow?
  {
    if s[p].want.value.AssetRow? {
      AssetWait(stripeOf, s, p, q);
      assert ProcOk(stripeOf, s[r]) && s[r].want.value == Lifecycle;
      GateHasAll(stripeOf, s[r], s[p].want.value.asset);
      assert false;
    }
  }

  lemma GateHasAll(stripeOf: AssetId -> nat, x: Proc, a: AssetId)
    requires ProcOk(stripeOf, x) && StripesExist(stripeOf) && x.want == Some(Lifecycle) && !Shares(x.role, Lifecycle)
    ensures x.role.WriterGate? && Stripe(stripeOf(a)) in x.held
  {
  }

  /** Waiting for a process that waits for a ranked lock is waiting for a lower lock. */
  lemma RanksIncrease(stripeOf: AssetId -> nat, s: Procs, p: Pid, q: Pid)
    requires Inv(stripeOf, s) && WaitsFor(s, p, q) && s[q].want.Some?
    requires !s[p].want.value.AssetRow? && !s[q].want.value.AssetRow? && !Committing(s[q])
    ensures Less(s[p].want.value, s[q].want.value)
  {
    assert ProcOk(stripeOf, s[q]);
  }

  function Next(cyc: seq<Pid>, i: nat): nat {
    if i + 1 < |cyc| then i + 1 else 0
  }

  ghost predicate Cycle(s: Procs, cyc: seq<Pid>) {
    cyc != [] && forall i :: 0 <= i < |cyc| ==> WaitsFor(s, cyc[i], cyc[Next(cyc, i)])
  }

  ghost predicate NobodyCommits(s: Procs, cyc: seq<Pid>) {
    forall i :: 0 <= i < |cyc| ==> cyc[i] in s && !Committing(s[cyc[i]])
  }

  lemma CycleIsRanked(stripeOf: AssetId -> nat, s: Procs, cyc: seq<Pid>, i: nat)
    requires Inv(stripeOf, s) && StripesExist(stripeOf) && Cycle(s, cyc) && i < |cyc|
    ensures cyc[i] in s && s[cyc[i]].want.Some? && !s[cyc[i]].want.value.AssetRow?
  {
    var before := if i == 0 then |cyc| - 1 else i - 1;
    var after := Next(cyc, i);
    assert Next(cyc, before) == i;
    assert WaitsFor(s, cyc[before], cyc[i]) && WaitsFor(s, cyc[i], cyc[after]);
    assert WaitsFor(s, cyc[after], cyc[Next(cyc, after)]);
    WaitedForIsRanked(stripeOf, s, cyc[before], cyc[i], cyc[after]);
  }

  lemma {:induction false} RanksAscend(stripeOf: AssetId -> nat, s: Procs, cyc: seq<Pid>, i: nat)
    requires Inv(stripeOf, s) && StripesExist(stripeOf) && Cycle(s, cyc) && NobodyCommits(s, cyc) && 0 < i < |cyc|
    ensures cyc[0] in s && cyc[i] in s && s[cyc[0]].want.Some? && s[cyc[i]].want.Some?
    ensures Less(s[cyc[0]].want.value, s[cyc[i]].want.value)
  {
    CycleIsRanked(stripeOf, s, cyc, i - 1);
    CycleIsRanked(stripeOf, s, cyc, i);
    assert Next(cyc, i - 1) == i;
    assert WaitsFor(s, cyc[i - 1], cyc[i]);
    RanksIncrease(stripeOf, s, cyc[i - 1], cyc[i]);
    if i > 1 { RanksAscend(stripeOf, s, cyc, i - 1); }
  }

  lemma NoCycleWithoutCommit(stripeOf: AssetId -> nat, s: Procs, cyc: seq<Pid>)
    requires Inv(stripeOf, s) && StripesExist(stripeOf) && NobodyCommits(s, cyc)
    ensures !Cycle(s, cyc)
  {
    if Cycle(s, cyc) {
      var n := |cyc| - 1;
      CycleIsRanked(stripeOf, s, cyc, 0);
      CycleIsRanked(stripeOf, s, cyc, n);
      assert Next(cyc, n) == 0 && WaitsFor(s, cyc[n], cyc[0]);
      RanksIncrease(stripeOf, s, cyc[n], cyc[0]);
      if n > 0 { RanksAscend(stripeOf, s, cyc, n); }
      assert false;
    }
  }

  /** Import `p` is at its commit, and `q`, which it waits for, is a board service that has locked its user and waits itself. */
  ghost predicate CommitBlocked(s: Procs, p: Pid, q: Pid) {
    && WaitsFor(s, p, q) && Committing(s[p]) && s[q].role.BoardService? && UserRow(s[p].role.user) in s[q].held
    && s[q].want.Some? && (s[q].want.value.BoardRow? || s[q].want.value.PinRow?)
  }

  /** In a reachable state processes wait for each other in a circle only through an import's commit. */
  lemma NoWaitingCycle(stripeOf: AssetId -> nat, run: seq<Action>, s: Procs, cyc: seq<Pid>)
    requires StripesExist(stripeOf) && Run(stripeOf, map[], run, s) && Cycle(s, cyc)
    ensures exists i :: 0 <= i < |cyc| && CommitBlocked(s, cyc[i], cyc[Next(cyc, i)])
  {
    ReachableInv(stripeOf, map[], run, s);
    forall i | 0 <= i < |cyc| ensures cyc[i] in s {
      assert WaitsFor(s, cyc[i], cyc[Next(cyc, i)]);
    }
    if NobodyCommits(s, cyc) {
      NoCycleWithoutCommit(stripeOf, s, cyc);
    }
    var i :| 0 <= i < |cyc| && Committing(s[cyc[i]]);
    var j := Next(cyc, i);
    assert WaitsFor(s, cyc[i], cyc[j]) && WaitsFor(s, cyc[j], cyc[Next(cyc, j)]);
    CommitWait(stripeOf, s, cyc[i], cyc[j]);
  }

  /** An import and another process wait for each other exactly if that one has locked the user and asks for a board of the import. */
  lemma DeadlockWithAnImport(stripeOf: AssetId -> nat, run: seq<Action>, s: Procs, p: Pid, q: Pid)
    requires StripesExist(stripeOf) && Run(stripeOf, map[], run, s) && p in s && q in s && s[p].role.Import?
    ensures WaitsFor(s, p, q) && WaitsFor(s, q, p) <==>
              && p != q && s[q].role.BoardService?
              && s[p].want == Some(UserRow(s[p].role.user)) && UserRow(s[p].role.user) in s[q].held
              && s[q].want.Some? && s[q].want.value.BoardRow? && s[q].want.value in s[p].held
  {
    ReachableInv(stripeOf, map[], run, s);
    if WaitsFor(s, p, q) && WaitsFor(s, q, p) {
      var cyc := [p, q];
      assert forall i :: 0 <= i < |cyc| ==> WaitsFor(s, cyc[i], cyc[Next(cyc, i)]);
      NoWaitingCycle(stripeOf, run, s, cyc);
      BoardShared(stripeOf, s, p, q);
    }
  }

  lemma BoardShared(stripeOf: AssetId -> nat, s: Procs, p: Pid, q: Pid)
    requires Inv(stripeOf, s) && WaitsFor(s, q, p) && (CommitBlocked(s, p, q) || CommitBlocked(s, q, p)) && s[p].role.Import?
    ensures CommitBlocked(s, p, q) && s[q].want.value.BoardRow? && s[q].want.value in s[p].held
    ensures s[p].want == Some(UserRow(s[p].role.user))
  {
    assert ProcOk(stripeOf, s[p]) && ProcOk(stripeOf, s[q]);
    CommitWait(stripeOf, s, p, q);
  }

  /** Some process with a ranked want, none of the others wanting more. */
  lemma {:induction false} HighestWant(s: Procs, ps: set<Pid>) returns (p: Pid)
    requires ps <= s.Keys && ps != {}
    requires forall q :: q in ps ==> s[q].want.Some?
    ensures p in ps && forall q :: q in ps ==> !Less(s[p].want.value, s[q].want.value)
    decreases ps
  {
    p :| p in ps;
    if ps - {p} != {} {
      var q := HighestWant(s, ps - {p});
      if !Less(s[q].want.value, s[p].want.value) { p := q; }
    }
  }

  /** Every process waits, each for the one that `blocker` names. */
  ghost predicate AllWait(s: Procs, blocker: map<Pid, Pid>) {
    s.Keys <= blocker.Keys && forall p {:trigger blocker[p]} :: p in s ==> WaitsFor(s, p, blocker[p])
  }

  lemma SomeWantIsRanked(stripeOf: AssetId -> nat, s: Procs, blocker: map<Pid, Pid>) returns (p: Pid)
    requires Inv(stripeOf, s) && s != map[] && AllWait(s, blocker)
    ensures p in s && s[p].want.Some? && !s[p].want.value.AssetRow?
  {
    p :| p in s;
    var q := blocker[p];
    assert WaitsFor(s, p, q) && WaitsFor(s, q, blocker[q]);
    if s[p].want.value.AssetRow? {
      AssetWait(stripeOf, s, p, q);
      p := q;
    }
  }

  lemma NotAllWait(stripeOf: AssetId -> nat, s: Procs, blocker: map<Pid, Pid>)
    requires Inv(stripeOf, s) && StripesExist(stripeOf) && s != map[]
    requires forall p :: p in s ==> !Committing(s[p])
    ensures !AllWait(s, blocker)
  {
    if AllWait(s, blocker) {
      var p := SomeWantIsRanked(stripeOf, s, blocker);
      var ranked := set q | q in s && s[q].want.Some? && !s[q].want.value.AssetRow?;
      assert p in ranked;
      p := HighestWant(s, ranked);
      var q := blocker[p];
      var r := blocker[q];
      assert WaitsFor(s, p, q) && WaitsFor(s, q, r) && WaitsFor(s, r, blocker[r]);
      WaitedForIsRanked(stripeOf, s, p, q, r);
      assert q in ranked;
      RanksIncrease(stripeOf, s, p, q);
      assert false;
    }
  }

  lemma WaitingHolder(stripeOf: AssetId -> nat, s: Procs, p: Pid, q: Pid)
    requires Inv(stripeOf, s) && WaitsFor(s, p, q) && Committing(s[p]) && exists r :: WaitsFor(s, q, r)
    ensures CommitBlocked(s, p, q)
  {
    CommitWait(stripeOf, s, p, q);
  }

  /** In every reachable state with processes, one of them is not kept waiting, unless a commit is blocked. */
  lemma SomeoneCanMove(stripeOf: AssetId -> nat, run: seq<Action>, s: Procs)
    requires StripesExist(stripeOf) && Run(stripeOf, map[], run, s) && s != map[]
    ensures (exists p :: p in s && forall q :: !WaitsFor(s, p, q)) || (exists p, q :: CommitBlocked(s, p, q))
  {
    ReachableInv(stripeOf, map[], run, s);
    if forall p :: p in s ==> exists q :: WaitsFor(s, p, q) {
      if p :| p in s && Committing(s[p]) {
        var q :| WaitsFor(s, p, q);
        WaitingHolder(stripeOf, s, p, q);
      } else {
        NotAllWait(stripeOf, s, Blockers(s));
      }
    }
  }

  ghost function Blockers(s: Procs): (blocker: map<Pid, Pid>)
    requires forall p :: p in s ==> exists q :: WaitsFor(s, p, q)
    ensures AllWait(s, blocker)
  {
    map p | p in s :: var q :| WaitsFor(s, p, q); q
  }

  /** While the writer gate is complete, nobody else holds any stripe or the lifecycle lock. */
  lemma GateExcludesEveryone(stripeOf: AssetId -> nat, run: seq<Action>, s: Procs, g: Pid, p: Pid, l: Lock)
    requires StripesExist(stripeOf) && Run(stripeOf, map[], run, s)
    requires g in s && s[g].role.WriterGate? && Lifecycle in s[g].held
    requires p in s && p != g && l in s[p].held
    ensures IsRow(l)
  {
    ReachableInv(stripeOf, map[], run, s);
    assert ProcOk(stripeOf, s[g]) && ProcOk(stripeOf, s[p]);
    assert Lifecycle !in FirstStripes(STRIPES);
    StripeRange(stripeOf, s[p], l);
    assert l.Stripe? ==> l in FirstStripes(STRIPES);
  }

  lemma StripeRange(stripeOf: AssetId -> nat, x: Proc, l: Lock)
    requires StripesExist(stripeOf) && ProcOk(stripeOf, x) && l in x.held
    ensures l.Stripe? ==> l.stripe < STRIPES
  {
  }

  // ---------------------------------------------------------------- the cycle happens

  lemma {:induction false} RunThen(stripeOf: AssetId -> nat, s: Procs, run: seq<Action>, t: Procs, a: Action)
    requires Run(stripeOf, s, run, t) && Enabled(stripeOf, t, a)
    ensures Run(stripeOf, s, run + [a], Apply(t, a))
    decreases |run|
  {
    if run == [] {
      assert run + [a] == [a] && [a][1..] == [];
    } else {
      assert (run + [a])[1..] == run[1..] + [a];
      RunThen(stripeOf, Apply(s, run[0]), run[1..], t, a);
    }
  }

  /** A process asks for a lock that nobody keeps from it, and gets it. */
  lemma Takes(stripeOf: AssetId -> nat, run: seq<Action>, s: Procs, p: Pid, l: Lock) returns (run': seq<Action>)
    requires Run(stripeOf, map[], run, s) && p in s && s[p].want.None? && MayWant(stripeOf, s[p], l)
    requires forall q :: q in s && q != p ==> l !in s[q].held
    ensures Run(stripeOf, map[], run', s[p := Proc(s[p].role, s[p].held + {l}, None)])
  {
    RunThen(stripeOf, map[], run, s, Request(p, l));
    var t := Apply(s, Request(p, l));
    RunThen(stripeOf, map[], run + [Request(p, l)], t, Grant(p));
    run' := run + [Request(p, l)] + [Grant(p)];
    assert Apply(t, Grant(p)) == s[p := Proc(s[p].role, s[p].held + {l}, None)];
  }

  lemma ImportTakesBoard(stripeOf: AssetId -> nat, asset: AssetId, user: UserId, board: nat)
    returns (run: seq<Action>)
    ensures Run(stripeOf, map[], run,
                map[0 := Proc(Import(asset, user), {Stripe(stripeOf(asset)), Lifecycle, BoardRow(board)}, None)])
  {
    var role, stripe := Import(asset, user), Stripe(stripeOf(asset));
    var s0 := Apply(map[], Spawn(0, role));
    RunThen(stripeOf, map[], [], map[], Spawn(0, role));
    run := Takes(stripeOf, [] + [Spawn(0, role)], s0, 0, stripe);
    var s1 := s0[0 := Proc(role, {} + {stripe}, None)];
    run := Takes(stripeOf, run, s1, 0, Lifecycle);
    var s2 := s1[0 := Proc(role, {} + {stripe} + {Lifecycle}, None)];
    run := Takes(stripeOf, run, s2, 0, BoardRow(board));
    assert {} + {stripe} + {Lifecycle} + {BoardRow(board)} == {stripe, Lifecycle, BoardRow(board)};
    assert s2[0 := Proc(role, {} + {stripe} + {Lifecycle} + {BoardRow(board)}, None)]
        == map[0 := Proc(role, {stripe, Lifecycle, BoardRow(board)}, None)];
  }

  /** For any user and any board an import at its commit and a board service come to wait for each other. */
  lemma ACommitDeadlocks(stripeOf: AssetId -> nat, asset: AssetId, user: UserId, board: nat)
    returns (run: seq<Action>, s: Procs)
    ensures Run(stripeOf, map[], run, s) && 0 in s && s[0].role == Import(asset, user)
    ensures Cycle(s, [0, 1]) && 1 in s && s[1].want == Some(BoardRow(board))
  {
    run := ImportTakesBoard(stripeOf, asset, user, board);
    var first := Proc(Import(asset, user), {Stripe(stripeOf(asset)), Lifecycle, BoardRow(board)}, None);
    var s0 := map[0 := first];
    RunThen(stripeOf, map[], run, s0, Spawn(1, BoardService));
    var s1 := s0[1 := Proc(BoardService, {}, None)];
    run := Takes(stripeOf, run + [Spawn(1, BoardService)], s1, 1, UserRow(user));
    var s2 := s1[1 := Proc(BoardService, {} + {UserRow(user)}, None)];
    RunThen(stripeOf, map[], run, s2, Request(1, BoardRow(board)));
    var s3 := Apply(s2, Request(1, BoardRow(board)));
    RunThen(stripeOf, map[], run + [Request(1, BoardRow(board))], s3, Request(0, UserRow(user)));
    run := run + [Request(1, BoardRow(board))] + [Request(0, UserRow(user))];
    s := Apply(s3, Request(0, UserRow(user)));
    assert WaitsFor(s, 0, 1) && WaitsFor(s, 1, 0);
  }
}
