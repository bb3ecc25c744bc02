/** Reordering a user's boards: a canonical order, a version that names it, and saves guarded by the version. */
module BoardOrder {
  import opened Decimals
  import opened Wrappers

  type BoardId = nat

  /** `display_order` by board id, for the boards of one user. */
  type Orders = map<BoardId, nat>

  // ---------------------------------------------------------------- the canonical order

  /** Smaller display order first; among equals the newer board. */
  predicate Before(o: Orders, a: BoardId, b: BoardId)
    requires a in o && b in o
  {
    o[a] < o[b] || (o[a] == o[b] && a > b)
  }

  ghost predicate IsCanonical(o: Orders, ids: seq<BoardId>) {
    && (forall b :: b in o <==> b in ids)
    && (forall i, j :: 0 <= i < j < |ids| ==> Before(o, ids[i], ids[j]))
  }

  /** Every board once, by display order, and the newer board first where two orders are equal. */
  lemma CanonicalMeans(o: Orders, ids: seq<BoardId>)
    requires IsCanonical(o, ids)
    ensures forall b :: b in ids <==> b in o
    ensures forall i, j :: 0 <= i < j < |ids| ==> ids[i] != ids[j]
    ensures forall i, j :: 0 <= i < |ids| && 0 <= j < |ids| && ids[i] in o && ids[j] in o ==>
              (i < j <==> o[ids[i]] < o[ids[j]] || (o[ids[i]] == o[ids[j]] && ids[i] > ids[j]))
  {
    forall i, j | 0 <= i < |ids| && 0 <= j < |ids| && ids[i] in o && ids[j] in o
      ensures i < j <==> o[ids[i]] < o[ids[j]] || (o[ids[i]] == o[ids[j]] && ids[i] > ids[j])
    {
      if i < j {
        assert Before(o, ids[i], ids[j]);
      } else if j < i {
        assert Before(o, ids[j], ids[i]);
      }
    }
  }

  /** There is only one canonical order. */
  lemma {:induction false} CanonicalIsUnique(o: Orders, xs: seq<BoardId>, ys: seq<BoardId>)
    requires IsCanonical(o, xs) && IsCanonical(o, ys)
    ensures xs == ys
    decreases |xs|
  {
    CanonicalLength(o, xs);
    CanonicalLength(o, ys);
    if xs != [] {
      assert xs[0] in ys;
      var i :| 0 <= i < |ys| && ys[i] == xs[0];
      assert ys[0] in xs;
      var j :| 0 <= j < |xs| && xs[j] == ys[0];
      assert i == 0;
      CanonicalRest(o, xs);
      CanonicalRest(o, ys);
      CanonicalIsUnique(o - {xs[0]}, xs[1..], ys[1..]);
      assert xs == [xs[0]] + xs[1..] && ys == [ys[0]] + ys[1..];
    }
  }

  lemma CanonicalRest(o: Orders, xs: seq<BoardId>)
    requires IsCanonical(o, xs) && xs != []
    ensures IsCanonical(o - {xs[0]}, xs[1..])
  {
    var rest := o - {xs[0]};
    forall b ensures b in rest <==> b in xs[1..] {
      if b in rest {
        var i :| 0 <= i < |xs| && xs[i] == b;
        assert xs[1..][i - 1] == b;
      }
    }
  }

  /** Sort the boards, one insertion after the other. */
  method CanonicalIds(o: Orders) returns (ids: seq<BoardId>)
    ensures IsCanonical(o, ids)
  {
    ids := [];
    var rest := o.Keys;
    ghost var done: Orders := map[];
    while rest != {}
      invariant rest <= o.Keys && done == (map b | b in o && b !in rest :: o[b])
      invariant IsCanonical(done, ids)
      decreases rest
    {
      var b :| b in rest;
      rest := rest - {b};
      assert forall x :: x in ids ==> x in done && x in o;
      var n := 0;
      while n < |ids| && Before(o, ids[n], b)
        invariant 0 <= n <= |ids| && forall i :: 0 <= i < n ==> Before(o, ids[i], b)
      {
        n := n + 1;
      }
      Inserted(done, ids, b, o[b], n);
      ids := ids[..n] + [b] + ids[n..];
      done := done[b := o[b]];
    }
    assert done == o;
  }

  lemma Inserted(o: Orders, ids: seq<BoardId>, b: BoardId, order: nat, n: nat)
    requires IsCanonical(o, ids) && b !in o && n <= |ids|
    requires forall i :: 0 <= i < n ==> Before(o[b := order], ids[i], b)
    requires n < |ids| ==> !Before(o[b := order], ids[n], b)
    ensures IsCanonical(o[b := order], ids[..n] + [b] + ids[n..])
  {
    var o', ids' := o[b := order], ids[..n] + [b] + ids[n..];
    SameMembers(o, ids, b, order, n);
    forall i, j | 0 <= i < j < |ids'| ensures Before(o', ids'[i], ids'[j]) {
      InsertedPair(o, ids, b, order, n, i, j);
    }
  }

  lemma SameMembers(o: Orders, ids: seq<BoardId>, b: BoardId, order: nat, n: nat)
    requires n <= |ids| && forall x :: x in o <==> x in ids
    ensures forall x :: x in o[b := order] <==> x in ids[..n] + [b] + ids[n..]
  {
    assert ids == ids[..n] + ids[n..];
  }

  lemma InsertedPair(o: Orders, ids: seq<BoardId>, b: BoardId, order: nat, n: nat, i: nat, j: nat)
    requires IsCanonical(o, ids) && b !in o && n <= |ids|
    requires forall k :: 0 <= k < n ==> Before(o[b := order], ids[k], b)
    requires n < |ids| ==> !Before(o[b := order], ids[n], b)
    requires i < j < |ids| + 1
    ensures var ids' := ids[..n] + [b] + ids[n..];
            ids'[i] in o[b := order] && ids'[j] in o[b := order] && Before(o[b := order], ids'[i], ids'[j])
  {
    var ids' := ids[..n] + [b] + ids[n..];
    assert ids'[i] == if i < n then ids[i] else if i == n then b else ids[i - 1];
    assert ids'[j] == if j < n then ids[j] else if j == n then b else ids[j - 1];
    assert forall x :: x in ids ==> x != b && x in o;
    if i == n {
      assert ids[j - 1] in ids && ids[n] in ids;
      assert j - 1 > n ==> Before(o, ids[n], ids[j - 1]);
    }
  }

  // ---------------------------------------------------------------- the version

  /** Decimals separated by commas. */
  function Joined(ids: seq<BoardId>): string {
    if ids == [] then ""
    else if |ids| == 1 then Decimal(ids[0])
    else Decimal(ids[0]) + [','] + Joined(ids[1..])
  }

  const NUL := '\0'

  /** What is hashed: a prefix, the user and the board ids, separated by NUL. */
  function Preimage(user: nat, ids: seq<BoardId>): string {
    "svrx-board-order-v1" + [NUL] + Decimal(user) + [NUL] + Joined(ids)
  }

  /** A separator that occurs in neither head determines where both heads end. */
  lemma {:induction false} SameHead(a: string, b: string, sep: char, x: string, y: string)
    requires sep !in a && sep !in b && a + [sep] + x == b + [sep] + y
    ensures a == b && x == y
  {
    var s := a + [sep] + x;
    assert s[|a|] == sep && s[|b|] == sep;
    assert forall k :: 0 <= k < |a| ==> s[k] == a[k] && s[k] != sep;
    assert forall k :: 0 <= k < |b| ==> s[k] == b[k] && s[k] != sep;
    assert a == s[..|a|] && b == s[..|b|] && x == s[|a| + 1..] && y == s[|b| + 1..];
  }

  lemma {:induction false} SameJoined(xs: seq<BoardId>, ys: seq<BoardId>)
    requires Joined(xs) == Joined(ys)
    ensures xs == ys
    decreases |xs|
  {
    if xs != [] && ys != [] {
      HasComma(xs);
      HasComma(ys);
      if |xs| == 1 {
        SameDecimal(xs[0], ys[0]);
      } else {
        SameHead(Decimal(xs[0]), Decimal(ys[0]), ',', Joined(xs[1..]), Joined(ys[1..]));
        SameDecimal(xs[0], ys[0]);
        SameJoined(xs[1..], ys[1..]);
        assert xs == [xs[0]] + xs[1..] && ys == [ys[0]] + ys[1..];
      }
    } else if xs != [] {
      HasComma(xs);
    } else if ys != [] {
      HasComma(ys);
    }
  }

  /** A comma appears exactly when there are several ids; nothing is empty but the empty list. */
  lemma HasComma(xs: seq<BoardId>)
    requires xs != []
    ensures Joined(xs) != [] && (',' in Joined(xs) <==> |xs| > 1)
  {
    if |xs| > 1 { assert Joined(xs)[|Decimal(xs[0])|] == ','; }
  }

  /** The preimage determines the user and the order. */
  lemma PreimageIsInjective(user: nat, xs: seq<BoardId>, user': nat, ys: seq<BoardId>)
    requires Preimage(user, xs) == Preimage(user', ys)
    ensures user == user' && xs == ys
  {
    var prefix := "svrx-board-order-v1" + [NUL];
    assert Preimage(user, xs)[|prefix|..] == Decimal(user) + [NUL] + Joined(xs);
    assert Preimage(user', ys)[|prefix|..] == Decimal(user') + [NUL] + Joined(ys);
    SameHead(Decimal(user), Decimal(user'), NUL, Joined(xs), Joined(ys));
    SameDecimal(user, user');
    SameJoined(xs, ys);
  }

  type Digest = string

  ghost predicate CollisionFree(hash: string -> Digest) {
    forall a, b :: hash(a) == hash(b) ==> a == b
  }

  // ---------------------------------------------------------------- saving

  datatype Snapshot = Snapshot(version: Digest, ids: seq<BoardId>)

  const CHANGED := "board_order_changed"

  function Elements(ids: seq<BoardId>): set<BoardId> {
    set b | b in ids
  }

  predicate SameBoards(o: Orders, ids: seq<BoardId>) {
    |ids| == |o| && Elements(ids) == o.Keys
  }

  ghost predicate EachOnce(boards: set<BoardId>, ids: seq<BoardId>) {
    (forall b :: b in ids <==> b in boards) && forall i, j :: 0 <= i < j < |ids| ==> ids[i] != ids[j]
  }

  /** As many positions as boards, and the same elements: every board is there once. */
  lemma PermutesMeans(boards: set<BoardId>, ids: seq<BoardId>)
    ensures |ids| == |boards| && Elements(ids) == boards <==> EachOnce(boards, ids)
    ensures Permutes(boards, ids) <==> EachOnce(boards, ids)
  {
    assert forall b :: b in ids <==> b in Elements(ids);
    if |ids| == |boards| && Elements(ids) == boards { SizeBound(ids); }
    if EachOnce(boards, ids) {
      SizeOfDistinct(ids);
      assert Elements(ids) == boards;
    }
  }

  /** Every board gets its position, counted from one. */
  ghost predicate Numbered(o: Orders, ids: seq<BoardId>) {
    (forall b :: b in o <==> b in ids) && forall k :: 0 <= k < |ids| ==> ids[k] in o && o[ids[k]] == k + 1
  }

  lemma NumberedIsCanonical(o: Orders, ids: seq<BoardId>)
    requires Numbered(o, ids)
    ensures IsCanonical(o, ids)
  {
  }

  class BoardOrderService {
    const user: nat
    const hash: string -> Digest
    var orders: Orders

    constructor (user: nat, hash: string -> Digest, orders: Orders)
      ensures this.user == user && this.hash == hash && this.orders == orders
    {
      this.user, this.hash, this.orders := user, hash, orders;
    }

    function Version(ids: seq<BoardId>): Digest {
      VersionOf(user, hash, ids)
    }

    method TakeSnapshot() returns (s: Snapshot)
      ensures IsCanonical(orders, s.ids) && s.version == Version(s.ids)
    {
      var ids := CanonicalIds(orders);
      return Snapshot(Version(ids), ids);
    }

    /**
     A save either installs exactly the requested order of the same boards or
     changes nothing. It is accepted when nothing would change, or when the
     version names the present order and the boards are the same.
     */
    method Save(version: Digest, ids: seq<BoardId>) returns (r: Result<Snapshot, string>, ghost current: seq<BoardId>)
      modifies this
      ensures IsCanonical(old(orders), current)
      ensures r.Ok? <==> ids == current || (version == Version(current) && SameBoards(old(orders), ids))
      ensures version == Version(current) && EachOnce(old(orders).Keys, ids) ==> r.Ok?
      ensures r.Ok? ==> IsCanonical(orders, ids) && orders.Keys == old(orders).Keys && r.value == Snapshot(Version(ids), ids)
      ensures r.Err? ==> orders == old(orders) && r.error == CHANGED
      ensures ids == current ==> orders == old(orders)
      ensures r.Ok? && ids != current ==> forall k :: 0 <= k < |ids| ==> ids[k] in orders && orders[ids[k]] == k + 1
    {
      var now := CanonicalIds(orders);
      current := now;
      var currentVersion := Version(now);
      if ids == now {
        return Ok(Snapshot(currentVersion, now)), now;
      }
      CanonicalLength(orders, now);
      PermutesMeans(orders.Keys, ids);
      if version != currentVersion || |ids| != |now| || Elements(ids) != Elements(now) {
        return Err(CHANGED), now;
      }
      SizeBound(ids);
      Renumber(ids);
      NumberedIsCanonical(orders, ids);
      return Ok(Snapshot(Version(ids), ids)), now;
    }

    method Renumber(ids: seq<BoardId>)
      requires Elements(ids) == orders.Keys && forall i, j :: 0 <= i < j < |ids| ==> ids[i] != ids[j]
      modifies this
      ensures Numbered(orders, ids) && orders.Keys == old(orders).Keys
    {
      for i := 0 to |ids|
        invariant orders.Keys == old(orders).Keys
        invariant forall k :: 0 <= k < i ==> ids[k] in orders && orders[ids[k]] == k + 1
      {
        assert ids[i] in Elements(ids);
        orders := orders[ids[i] := i + 1];
      }
      assert forall b :: b in ids <==> b in Elements(ids);
    }

    /** Any number of saves, each on a version of its own, one after the other. */
    method SaveAll(h: seq<Save>) returns (accepted: seq<bool>, ghost initial: seq<BoardId>)
      modifies this
      ensures IsCanonical(old(orders), initial) && orders.Keys == old(orders).Keys
      ensures IsCanonical(orders, OrderAt(user, hash, old(orders).Keys, initial, h, |h|))
      ensures accepted == seq(|h|, n requires 0 <= n < |h| => AcceptedAt(user, hash, old(orders).Keys, initial, h, n))
    {
      var now := CanonicalIds(orders);
      initial := now;
      accepted := [];
      ghost var boards, current := orders.Keys, now;
      for n := 0 to |h|
        invariant |accepted| == n && orders.Keys == boards
        invariant IsCanonical(orders, current) && current == OrderAt(user, hash, boards, initial, h, n)
        invariant accepted == seq(n, k requires 0 <= k < n => AcceptedAt(user, hash, boards, initial, h, k))
      {
        var ok := SaveOne(h[n], current);
        accepted := accepted + [ok];
        current := if ok then h[n].ids else current;
      }
    }

    method SaveOne(s: Save, ghost current: seq<BoardId>) returns (ok: bool)
      requires IsCanonical(orders, current)
      modifies this
      ensures ok <==> Accepts(user, hash, old(orders).Keys, current, s)
      ensures IsCanonical(orders, if ok then s.ids else current) && orders.Keys == old(orders).Keys
    {
      ghost var before := orders;
      var r;
      ghost var seen;
      r, seen := Save(s.version, s.ids);
      CanonicalIsUnique(before, seen, current);
      ok := r.Ok?;
    }
  }

  // ---------------------------------------------------------------- histories of saves

  datatype Save = Save(version: Digest, ids: seq<BoardId>)

  function VersionOf(user: nat, hash: string -> Digest, ids: seq<BoardId>): Digest {
    hash(Preimage(user, ids))
  }

  predicate Permutes(boards: set<BoardId>, ids: seq<BoardId>) {
    |ids| == |boards| && Elements(ids) == boards
  }

  predicate Accepts(user: nat, hash: string -> Digest, boards: set<BoardId>, current: seq<BoardId>, r: Save) {
    r.ids == current || (r.version == VersionOf(user, hash, current) && Permutes(boards, r.ids))
  }

  /** The order of the boards after the first `n` saves. */
  function OrderAt(user: nat, hash: string -> Digest, boards: set<BoardId>, initial: seq<BoardId>, h: seq<Save>, n: nat): seq<BoardId>
    requires n <= |h|
  {
    if n == 0 then initial
    else
      var current := OrderAt(user, hash, boards, initial, h, n - 1);
      if Accepts(user, hash, boards, current, h[n - 1]) then h[n - 1].ids else current
  }

  predicate AcceptedAt(user: nat, hash: string -> Digest, boards: set<BoardId>, initial: seq<BoardId>, h: seq<Save>, n: nat)
    requires n < |h|
  {
    Accepts(user, hash, boards, OrderAt(user, hash, boards, initial, h, n), h[n])
  }

  /** Save `n` was made on the version of `a` and installed another order. */
  predicate Installs(user: nat, hash: string -> Digest, boards: set<BoardId>, initial: seq<BoardId>, h: seq<Save>,
                     a: seq<BoardId>, n: nat)
    requires n < |h|
  {
    && h[n].version == VersionOf(user, hash, a) && AcceptedAt(user, hash, boards, initial, h, n)
    && h[n].ids != OrderAt(user, hash, boards, initial, h, n)
  }

  /** Between saves `i` and `j` an accepted save asked for `a`, and no accepted one after it for anything else. */
  ghost predicate Returns(user: nat, hash: string -> Digest, boards: set<BoardId>, initial: seq<BoardId>, h: seq<Save>,
                          a: seq<BoardId>, i: nat, j: nat)
    requires i < j <= |h|
  {
    exists k :: i < k < j && LastAskedFor(user, hash, boards, initial, h, a, k, j)
  }

  ghost predicate LastAskedFor(user: nat, hash: string -> Digest, boards: set<BoardId>, initial: seq<BoardId>, h: seq<Save>,
                               a: seq<BoardId>, k: nat, j: nat)
    requires k < j <= |h|
  {
    && AcceptedAt(user, hash, boards, initial, h, k) && h[k].ids == a
    && (forall m :: k < m < j && AcceptedAt(user, hash, boards, initial, h, m) ==> h[m].ids == a)
  }

  /** An installing save found the very order whose version it names. */
  lemma InstalledFrom(user: nat, hash: string -> Digest, boards: set<BoardId>, initial: seq<BoardId>, h: seq<Save>,
                      a: seq<BoardId>, n: nat)
    requires CollisionFree(hash) && n < |h| && Installs(user, hash, boards, initial, h, a, n)
    ensures OrderAt(user, hash, boards, initial, h, n) == a && h[n].ids != a
    ensures OrderAt(user, hash, boards, initial, h, n + 1) == h[n].ids
  {
    PreimageIsInjective(user, a, user, OrderAt(user, hash, boards, initial, h, n));
  }

  lemma AskedLonger(user: nat, hash: string -> Digest, boards: set<BoardId>, initial: seq<BoardId>, h: seq<Save>,
                    a: seq<BoardId>, k: nat, j: nat)
    requires k < j < |h|
    ensures LastAskedFor(user, hash, boards, initial, h, a, k, j + 1) <==>
              && LastAskedFor(user, hash, boards, initial, h, a, k, j)
              && (AcceptedAt(user, hash, boards, initial, h, j) ==> h[j].ids == a)
  {
  }

  lemma ReturnsByNext(user: nat, hash: string -> Digest, boards: set<BoardId>, initial: seq<BoardId>, h: seq<Save>,
                      a: seq<BoardId>, i: nat, j: nat)
    requires i < j < |h|
    ensures Returns(user, hash, boards, initial, h, a, i, j + 1) <==>
            if AcceptedAt(user, hash, boards, initial, h, j) then h[j].ids == a
            else Returns(user, hash, boards, initial, h, a, i, j)
  {
    if AcceptedAt(user, hash, boards, initial, h, j) && h[j].ids == a {
      assert LastAskedFor(user, hash, boards, initial, h, a, j, j + 1);
    }
    if Returns(user, hash, boards, initial, h, a, i, j + 1) {
      var k :| i < k < j + 1 && LastAskedFor(user, hash, boards, initial, h, a, k, j + 1);
      if k < j {
        AskedLonger(user, hash, boards, initial, h, a, k, j);
      }
    }
    if Returns(user, hash, boards, initial, h, a, i, j) {
      var k :| i < k < j && LastAskedFor(user, hash, boards, initial, h, a, k, j);
      AskedLonger(user, hash, boards, initial, h, a, k, j);
    }
  }

  /** Once away from `a`, the order is `a` again exactly if it was brought back and left there. */
  lemma {:induction false} BackExactlyIfReturned(user: nat, hash: string -> Digest, boards: set<BoardId>, initial: seq<BoardId>,
                                                 h: seq<Save>, a: seq<BoardId>, i: nat, j: nat)
    requires i < j <= |h| && OrderAt(user, hash, boards, initial, h, i + 1) != a
    ensures OrderAt(user, hash, boards, initial, h, j) == a <==> Returns(user, hash, boards, initial, h, a, i, j)
    decreases j
  {
    if j > i + 1 {
      BackExactlyIfReturned(user, hash, boards, initial, h, a, i, j - 1);
      ReturnsByNext(user, hash, boards, initial, h, a, i, j - 1);
    }
  }

  /**
   After one save on the version of `a` has installed another order, a later save
   on the same version, for any order but `a`, installs its own as well if and
   only if in between the order was brought back to `a` and left there.
   */
  lemma SecondSaveOnAVersion(user: nat, hash: string -> Digest, boards: set<BoardId>, initial: seq<BoardId>, h: seq<Save>,
                             a: seq<BoardId>, i: nat, j: nat)
    requires CollisionFree(hash) && i < j < |h| && Installs(user, hash, boards, initial, h, a, i)
    requires h[j].version == VersionOf(user, hash, a) && Permutes(boards, h[j].ids) && h[j].ids != a
    ensures Installs(user, hash, boards, initial, h, a, j) <==> Returns(user, hash, boards, initial, h, a, i, j)
  {
    InstalledFrom(user, hash, boards, initial, h, a, i);
    BackExactlyIfReturned(user, hash, boards, initial, h, a, i, j);
    if Installs(user, hash, boards, initial, h, a, j) {
      InstalledFrom(user, hash, boards, initial, h, a, j);
    }
  }

  /** If no accepted save asks for `a`, at most one save on its version installs anything. */
  lemma WithoutReturnOneWins(user: nat, hash: string -> Digest, boards: set<BoardId>, initial: seq<BoardId>, h: seq<Save>,
                             a: seq<BoardId>, i: nat, j: nat)
    requires CollisionFree(hash) && i < |h| && j < |h|
    requires Installs(user, hash, boards, initial, h, a, i) && Installs(user, hash, boards, initial, h, a, j)
    requires forall k :: 0 <= k < |h| && AcceptedAt(user, hash, boards, initial, h, k) ==> h[k].ids != a
    ensures i == j
  {
    var lo, hi := if i <= j then i else j, if i <= j then j else i;
    if lo < hi {
      InstalledFrom(user, hash, boards, initial, h, a, lo);
      InstalledFrom(user, hash, boards, initial, h, a, hi);
      BackExactlyIfReturned(user, hash, boards, initial, h, a, lo, hi);
    }
  }

  /** Away, back, and away again: the version of `a` serves twice, for any three orders of any boards and any digest. */
  lemma AVersionServesTwice(user: nat, hash: string -> Digest, boards: set<BoardId>,
                            a: seq<BoardId>, b: seq<BoardId>, c: seq<BoardId>)
    requires Permutes(boards, a) && Permutes(boards, b) && Permutes(boards, c) && a != b && a != c
    ensures var h := [Save(VersionOf(user, hash, a), b), Save(VersionOf(user, hash, b), a), Save(VersionOf(user, hash, a), c)];
            && Installs(user, hash, boards, a, h, a, 0) && Installs(user, hash, boards, a, h, a, 2)
            && OrderAt(user, hash, boards, a, h, 1) == b && OrderAt(user, hash, boards, a, h, 3) == c
  {
    var h := [Save(VersionOf(user, hash, a), b), Save(VersionOf(user, hash, b), a), Save(VersionOf(user, hash, a), c)];
    assert OrderAt(user, hash, boards, a, h, 0) == a;
    assert OrderAt(user, hash, boards, a, h, 1) == b;
    assert OrderAt(user, hash, boards, a, h, 2) == a;
  }

  lemma CanonicalLength(o: Orders, ids: seq<BoardId>)
    requires IsCanonical(o, ids)
    ensures |ids| == |o| && Elements(ids) == o.Keys
  {
    assert forall i, j :: 0 <= i < j < |ids| ==> Before(o, ids[i], ids[j]);
    SizeOfDistinct(ids);
    assert Elements(ids) == o.Keys;
    assert |o| == |o.Keys|;
  }

  lemma {:induction false} SizeOfDistinct(ids: seq<BoardId>)
    requires forall i, j :: 0 <= i < j < |ids| ==> ids[i] != ids[j]
    ensures |Elements(ids)| == |ids|
  {
    if ids != [] {
      var init, x := ids[..|ids| - 1], ids[|ids| - 1];
      SizeOfDistinct(init);
      assert Elements(ids) == Elements(init) + {x};
    }
  }

  /** As many elements as positions: no element repeats. */
  lemma {:induction false} SizeBound(ids: seq<BoardId>)
    ensures |Elements(ids)| <= |ids|
    ensures |Elements(ids)| == |ids| ==> forall i, j :: 0 <= i < j < |ids| ==> ids[i] != ids[j]
  {
    if ids != [] {
      var init, x := ids[..|ids| - 1], ids[|ids| - 1];
      SizeBound(init);
      assert Elements(ids) == Elements(init) + {x};
      assert x !in init ==> x !in Elements(init);
      if |Elements(ids)| == |ids| {
        assert x in init ==> Elements(ids) <= Elements(init);
        forall i, j | 0 <= i < j < |ids| ensures ids[i] != ids[j] {
          assert ids[i] == init[i] && (j < |init| ==> ids[j] == init[j]);
        }
      }
    }
  }
}
