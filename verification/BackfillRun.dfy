/**
 The linear backfill run: per batch an intent in the journal, one database
 transaction, and a commit in the journal. A run may be cut before any of these
 writes and resumed later from the journal and the database alone.
 */
module BackfillRun {
  import opened Wrappers
  import opened BackfillPlan
  import opened BackfillBatches

  /** What the registry signature hashes: (image, submitter, digest). */
  datatype Row = Row(image: ImageId, submitter: User, sha: Digest)

  datatype BatchId = BatchId(first: ImageId, last: ImageId)

  datatype Intent = Intent(number: nat, id: BatchId, pre: Digest, post: Digest, images: nat)

  /** `order` lists the committed batches in commit order. */
  datatype Journal = Journal(intents: map<BatchId, Intent>, order: seq<BatchId>, complete: bool)

  datatype Outcome = Done | Crashed | Failed(code: string)

  const DATABASE_CONFLICT := "linear_journal_database_conflict"
  const BATCH_CONFLICT := "linear_journal_batch_conflict"
  const IDENTITY_CHANGED := "registry_plan_identity_changed"

  // ---------------------------------------------------------------- the journal

  /** An intent may follow when every earlier one is committed and lies entirely before it. */
  predicate IntentFollows(j: Journal, i: Intent) {
    && i.id !in j.intents && !j.complete
    && (forall b :: b in j.intents ==> b in j.order)
    && (forall b :: b in j.intents ==> i.number > j.intents[b].number && i.id.first > b.last)
  }

  /** The journal is open, all its intents are committed, and this batch lies above all of theirs. */
  predicate MayOpen(j: Journal, id: BatchId) {
    && !j.complete && id !in j.intents
    && forall b :: b in j.intents ==> b in j.order && b.last < id.first
  }

  lemma {:induction false} LastNumberBounds(intents: map<BatchId, Intent>, order: seq<BatchId>)
    ensures forall b :: b in order && b in intents ==> intents[b].number <= LastNumber(intents, order)
  {
    if order != [] {
      LastNumberBounds(intents, order[..|order| - 1]);
      assert order == order[..|order| - 1] + [order[|order| - 1]];
    }
  }

  lemma NumbersStayBelow(j: Journal)
    ensures forall b :: b in j.order && b in j.intents ==> j.intents[b].number < LastNumber(j.intents, j.order) + 1
  {
    LastNumberBounds(j.intents, j.order);
  }

  /** What to do with a batch; `Fresh` when the journal has no intent for it. */
  datatype Recovery = Committed | AppendCommit | Reexecute | Fresh | Conflict

  function RecoverBatch(j: Journal, id: BatchId, current: Digest): Recovery
    requires id in j.intents
  {
    var i := j.intents[id];
    if id in j.order then (if current == i.post then Committed else Conflict)
    else if current == i.post then AppendCommit
    else if current == i.pre then Reexecute
    else Conflict
  }

  /** The greatest number of a committed batch; 0 when there is none. */
  function LastNumber(intents: map<BatchId, Intent>, order: seq<BatchId>): nat {
    if order == [] then 0
    else
      var n := LastNumber(intents, order[..|order| - 1]);
      var id := order[|order| - 1];
      if id in intents && intents[id].number > n then intents[id].number else n
  }

  // ---------------------------------------------------------------- the plan of a run

  /** Everything that is fixed once the plan is frozen. `r0` is the registry at planning time. */
  datatype Setup = Setup(
    plans: seq<Plan>,
    batches: seq<seq<Plan>>,
    decisions: map<ImageId, Decision>,
    hash: set<Row> -> Digest,
    r0: Registry)

  /** Plans frozen against `r0` for every image it knows, with their decisions. */
  ghost predicate PlansOk(u: Setup) {
    && Frozen(u.plans, u.r0)
    && OnlyPlannedImages(u, u.r0)
    && (forall i :: 0 <= i < |u.plans| ==> Decided(u.plans, u.decisions, i))
  }

  ghost predicate PlansAscend(u: Setup) {
    forall i, j :: 0 <= i < j < |u.plans| ==> u.plans[i].image < u.plans[j].image
  }

  /** Some cut of the plans into non-empty batches. */
  ghost predicate CutOk(u: Setup) {
    Flatten(u.batches) == u.plans && forall b :: b in u.batches ==> b != []
  }

  ghost predicate SetupOk(u: Setup) {
    PlansOk(u) && PlansAscend(u) && CutOk(u)
  }

  ghost predicate InjectiveHash(hash: set<Row> -> Digest) {
    forall a, b :: hash(a) == hash(b) ==> a == b
  }

  /** Each plan has a decision, and only unregistered images are to be registered. */
  ghost predicate HasDecisions(u: Setup, plans: seq<Plan>) {
    forall i :: 0 <= i < |plans| ==>
      plans[i].image in u.decisions && (Registers(u, plans[i]) ==> plans[i].registry.None?)
  }

  predicate Registers(u: Setup, p: Plan) {
    p.image in u.decisions && u.decisions[p.image] == Register
  }

  // ---------------------------------------------------------------- registry slices

  /** What the registry holds for these images. */
  function RowsOf(r: Registry, plans: seq<Plan>): set<Row> {
    set i | 0 <= i < |plans| && plans[i].image in r ::
      Row(plans[i].image, r[plans[i].image].submitter, r[plans[i].image].sha)
  }

  /** What the registry must hold for them before the batch, or after. */
  function ExpectedRows(u: Setup, plans: seq<Plan>, after: bool): set<Row> {
    (set i | 0 <= i < |plans| && plans[i].registry.Some? ::
       Row(plans[i].image, plans[i].registry.value.submitter, plans[i].registry.value.sha))
    +
    (set i | 0 <= i < |plans| && plans[i].registry.None? && after && Registers(u, plans[i]) ::
       Row(plans[i].image, plans[i].submitter, plans[i].sha))
  }

  function Pre(u: Setup, plans: seq<Plan>): Digest {
    u.hash(ExpectedRows(u, plans, false))
  }

  function Post(u: Setup, plans: seq<Plan>): Digest {
    u.hash(ExpectedRows(u, plans, true))
  }

  function IdOf(plans: seq<Plan>): BatchId
    requires plans != []
  {
    BatchId(plans[0].image, plans[|plans| - 1].image)
  }

  /** The registry shows this plan as it was frozen, or registered if that was decided and done. */
  predicate PlanShown(u: Setup, r: Registry, p: Plan, applied: bool) {
    if p.registry.Some? then p.image in r && SignatureOf(p.image, r[p.image]) == p.registry.value
    else if applied && Registers(u, p) then
      p.image in r && r[p.image].submitter == p.submitter && r[p.image].sha == p.sha
    else p.image !in r
  }

  ghost predicate OnlyPlannedImages(u: Setup, r: Registry) {
    forall m :: m in r ==> exists i :: 0 <= i < |u.plans| && u.plans[i].image == m
  }

  /** The registry once the first `n` plans have been carried out. */
  ghost predicate After(u: Setup, r: Registry, n: nat) {
    && OnlyPlannedImages(u, r)
    && forall i :: 0 <= i < |u.plans| ==> PlanShown(u, r, u.plans[i], i < n)
  }

  /** No two assets share a primary key, and the next one is free. */
  ghost predicate PksUnique(r: Registry, nextPk: nat) {
    && (forall m :: m in r ==> r[m].pk < nextPk)
    && (forall m, n :: m in r && n in r && r[m].pk == r[n].pk ==> m == n)
  }

  lemma TakePk(r: Registry, pk: nat, m: ImageId, submitter: User, sha: Digest)
    ensures PksUnique(r, pk) ==> PksUnique(r[m := Asset(pk, submitter, sha)], pk + 1)
  {
  }

  /** The planning-time registry plus exactly the "register" decisions, whatever the new primary keys. */
  ghost predicate Converged(u: Setup, r: Registry) {
    && r.Keys == u.r0.Keys + NewImages(u.plans)
    && (forall m :: m in u.r0 ==> r[m] == u.r0[m])
    && (forall m :: m in NewImages(u.plans) ==>
          r[m].submitter == PlanFor(u.plans, m).submitter && r[m].sha == PlanFor(u.plans, m).sha)
  }

  /** One plan, carried out. */
  lemma CarriedOutAt(u: Setup, r: Registry, i: nat)
    requires PlansOk(u) && i < |u.plans| && PlanShown(u, r, u.plans[i], true)
    ensures var m := u.plans[i].image;
            && (m in r <==> m in u.r0 || m in NewImages(u.plans))
            && (m in u.r0 ==> m !in NewImages(u.plans) && r[m] == u.r0[m])
            && (m in NewImages(u.plans) ==>
                  r[m].submitter == PlanFor(u.plans, m).submitter && r[m].sha == PlanFor(u.plans, m).sha)
  {
    var p := u.plans[i];
    assert FrozenAgainst(p, u.r0) && Decided(u.plans, u.decisions, i);
    if p.image in NewImages(u.plans) {
      var k :| 0 <= k < |u.plans| && Decide(u.plans, k) == Register && u.plans[k].image == p.image;
      assert k == i;
    }
    if Registers(u, p) { PlanForIs(u.plans, i); }
  }

  lemma AllCarriedOut(u: Setup, r: Registry)
    requires PlansOk(u) && After(u, r, |u.plans|)
    ensures Converged(u, r)
  {
    forall m | m in r || m in u.r0 || m in NewImages(u.plans)
      ensures (m in r <==> m in u.r0 || m in NewImages(u.plans))
      ensures m in u.r0 ==> r[m] == u.r0[m]
      ensures m in NewImages(u.plans) ==>
                r[m].submitter == PlanFor(u.plans, m).submitter && r[m].sha == PlanFor(u.plans, m).sha
    {
      var i :| 0 <= i < |u.plans| && u.plans[i].image == m;
      assert PlanShown(u, r, u.plans[i], i < |u.plans|);
      CarriedOutAt(u, r, i);
    }
  }

  /** Plans that were carried out show their rows after, the others their rows before. */
  lemma SliceShown(u: Setup, r: Registry, n: nat, lo: nat, hi: nat)
    requires After(u, r, n) && lo <= hi <= |u.plans|
    ensures hi <= n ==> RowsOf(r, u.plans[lo..hi]) == ExpectedRows(u, u.plans[lo..hi], true)
    ensures lo >= n ==> RowsOf(r, u.plans[lo..hi]) == ExpectedRows(u, u.plans[lo..hi], false)
  {
    var b := u.plans[lo..hi];
    forall i | 0 <= i < |b| ensures PlanShown(u, r, b[i], lo + i < n) { assert b[i] == u.plans[lo + i]; }
  }

  // ---------------------------------------------------------------- where the batches lie

  function Offset(u: Setup, k: nat): nat
    requires k <= |u.batches|
  {
    |Flatten(u.batches[..k])|
  }

  lemma {:induction false} PrefixOfPlans<T>(batches: seq<seq<T>>, k: nat)
    requires k <= |batches|
    ensures Flatten(batches[..k]) <= Flatten(batches)
    decreases |batches|
  {
    if k < |batches| {
      var init := batches[..|batches| - 1];
      PrefixOfPlans(init, k);
      assert init[..k] == batches[..k];
    } else {
      assert batches[..k] == batches;
    }
  }

  lemma BatchIsSlice(u: Setup, k: nat)
    requires CutOk(u) && k < |u.batches|
    ensures Offset(u, k) < Offset(u, k + 1) <= |u.plans|
    ensures u.batches[k] == u.plans[Offset(u, k)..Offset(u, k + 1)]
  {
    PrefixOfPlans(u.batches, k + 1);
    assert u.batches[..k + 1][..k] == u.batches[..k];
    var f := Flatten(u.batches[..k + 1]);
    assert f == Flatten(u.batches[..k]) + u.batches[k];
    assert f == u.plans[..|f|];
    assert u.batches[k] in u.batches;
  }

  lemma {:induction false} OffsetsAscend(u: Setup, i: nat, k: nat)
    requires CutOk(u) && i <= k <= |u.batches|
    ensures Offset(u, i) <= Offset(u, k) <= |u.plans|
    ensures i < k ==> Offset(u, i) < Offset(u, k)
    decreases k - i
  {
    if i == k {
      PrefixOfPlans(u.batches, k);
    } else {
      BatchIsSlice(u, k - 1);
      OffsetsAscend(u, i, k - 1);
    }
  }

  lemma WholeOffset(u: Setup)
    requires CutOk(u)
    ensures Offset(u, |u.batches|) == |u.plans|
  {
    assert u.batches[..|u.batches|] == u.batches;
  }

  /** Batches lie one after the other, so their ids are distinct. */
  lemma BatchesAscend(u: Setup, i: nat, k: nat)
    requires CutOk(u) && PlansAscend(u) && i < k < |u.batches|
    ensures u.batches[i] != [] && u.batches[k] != []
    ensures IdOf(u.batches[i]).last < IdOf(u.batches[k]).first && IdOf(u.batches[i]) != IdOf(u.batches[k])
  {
    BatchIsSlice(u, i);
    BatchIsSlice(u, k);
    OffsetsAscend(u, i + 1, k);
    var a, b := u.batches[i], u.batches[k];
    assert a[|a| - 1] == u.plans[Offset(u, i + 1) - 1] && b[0] == u.plans[Offset(u, k)];
    assert a[0] == u.plans[Offset(u, i)];
    assert a[0].image <= a[|a| - 1].image;
  }

  // ---------------------------------------------------------------- consistent states

  function IntentFor(u: Setup, i: nat): Intent
    requires i < |u.batches| && u.batches[i] != []
  {
    Intent(i + 1, IdOf(u.batches[i]), Pre(u, u.batches[i]), Post(u, u.batches[i]), |u.batches[i]|)
  }

  ghost predicate HasIntent(u: Setup, j: Journal, i: nat)
    requires i < |u.batches|
  {
    u.batches[i] != [] && IdOf(u.batches[i]) in j.intents && j.intents[IdOf(u.batches[i])] == IntentFor(u, i)
  }

  /** Whether the batch after the committed ones has its intent. */
  ghost predicate Opened(u: Setup, j: Journal) {
    |j.order| < |u.batches| && HasIntent(u, j, |j.order|)
  }

  /** The journal holds the first batches, committed in order, and at most one open intent. */
  ghost predicate JournalOk(u: Setup, j: Journal) {
    && |j.order| <= |u.batches|
    && (forall i :: 0 <= i < |j.order| ==> HasIntent(u, j, i) && j.order[i] == IdOf(u.batches[i]))
    && (forall b :: b in j.intents ==>
          b in j.order || (Opened(u, j) && b == IdOf(u.batches[|j.order|])))
    && (j.complete ==> |j.order| == |u.batches|)
  }

  /** Committed batches are in the registry, later ones are not; an open one is entirely in or entirely out. */
  ghost predicate RegistryOk(u: Setup, r: Registry, j: Journal) {
    |j.order| <= |u.batches| &&
    (After(u, r, Offset(u, |j.order|)) || (Opened(u, j) && After(u, r, Offset(u, |j.order| + 1))))
  }

  predicate ContextsOk(u: Setup, contexts: map<ImageId, Context>) {
    && contexts.Keys == (set i | 0 <= i < |u.plans| :: u.plans[i].image)
    && forall i :: 0 <= i < |u.plans| ==> contexts[u.plans[i].image] == u.plans[i].context
  }

  ghost predicate Consistent(u: Setup, r: Registry, contexts: map<ImageId, Context>, j: Journal) {
    JournalOk(u, j) && RegistryOk(u, r, j) && ContextsOk(u, contexts)
  }

  lemma {:induction false} LastNumberIs(u: Setup, j: Journal, n: nat)
    requires JournalOk(u, j) && n <= |j.order|
    ensures LastNumber(j.intents, j.order[..n]) == n
  {
    if n > 0 {
      LastNumberIs(u, j, n - 1);
      assert j.order[..n][..n - 1] == j.order[..n - 1];
      assert HasIntent(u, j, n - 1);
    }
  }

  /** A batch that the journal already knows, in a consistent state. */
  lemma KnownBatch(u: Setup, r: Registry, j: Journal, i: nat)
    requires CutOk(u) && PlansAscend(u) && InjectiveHash(u.hash) && JournalOk(u, j) && RegistryOk(u, r, j)
    requires i < |u.batches| && i <= |j.order| && u.batches[i] != [] && IdOf(u.batches[i]) in j.intents
    ensures HasIntent(u, j, i)
    ensures var now := u.hash(RowsOf(r, u.batches[i]));
            && (i < |j.order| ==> RecoverBatch(j, IdOf(u.batches[i]), now) == Committed)
            && (i == |j.order| ==> RecoverBatch(j, IdOf(u.batches[i]), now) in {AppendCommit, Reexecute})
    ensures u.hash(RowsOf(r, u.batches[i])) == Post(u, u.batches[i]) && i == |j.order| ==> After(u, r, Offset(u, i + 1))
    ensures u.hash(RowsOf(r, u.batches[i])) != Post(u, u.batches[i]) && i == |j.order| ==>
              After(u, r, Offset(u, i)) && u.hash(RowsOf(r, u.batches[i])) == Pre(u, u.batches[i])
  {
    BatchIsSlice(u, i);
    var id := IdOf(u.batches[i]);
    if i < |j.order| {
      OffsetsAscend(u, i + 1, |j.order|);
      if |j.order| < |u.batches| { OffsetsAscend(u, i + 1, |j.order| + 1); }
      SliceRowsAt(u, r, j, i);
      assert j.order[i] == id;
    } else {
      forall n | 0 <= n < |j.order| ensures j.order[n] != id { BatchesAscend(u, n, i); }
      assert Opened(u, j);
      if After(u, r, Offset(u, i)) {
        SliceShown(u, r, Offset(u, i), Offset(u, i), Offset(u, i + 1));
        if u.hash(RowsOf(r, u.batches[i])) == Post(u, u.batches[i]) { NothingToDo(u, r, i); }
      } else {
        SliceShown(u, r, Offset(u, i + 1), Offset(u, i), Offset(u, i + 1));
      }
    }
  }

  /** The rows of a committed batch are its rows after. */
  lemma SliceRowsAt(u: Setup, r: Registry, j: Journal, i: nat)
    requires CutOk(u) && RegistryOk(u, r, j) && i < |j.order|
    ensures RowsOf(r, u.batches[i]) == ExpectedRows(u, u.batches[i], true)
  {
    BatchIsSlice(u, i);
    OffsetsAscend(u, i + 1, |j.order|);
    if After(u, r, Offset(u, |j.order|)) {
      SliceShown(u, r, Offset(u, |j.order|), Offset(u, i), Offset(u, i + 1));
    } else {
      OffsetsAscend(u, i + 1, |j.order| + 1);
      SliceShown(u, r, Offset(u, |j.order| + 1), Offset(u, i), Offset(u, i + 1));
    }
  }

  /** When a batch shows its rows both before and after, it registers nothing. */
  lemma NothingToDo(u: Setup, r: Registry, i: nat)
    requires CutOk(u) && i < |u.batches| && After(u, r, Offset(u, i))
    requires RowsOf(r, u.batches[i]) == ExpectedRows(u, u.batches[i], true)
    ensures After(u, r, Offset(u, i + 1))
  {
    BatchIsSlice(u, i);
    var b, lo := u.batches[i], Offset(u, i);
    forall n | 0 <= n < |u.plans| ensures PlanShown(u, r, u.plans[n], n < Offset(u, i + 1)) {
      var p := u.plans[n];
      assert PlanShown(u, r, p, n < lo);
      if lo <= n < Offset(u, i + 1) {
        assert b[n - lo] == p;
        assert p.registry.None? && Registers(u, p) ==> Row(p.image, p.submitter, p.sha) in ExpectedRows(u, b, true);
      }
    }
  }

  /** The next batch may get its intent, under the next number. */
  lemma NextIntentFollows(u: Setup, j: Journal)
    requires CutOk(u) && PlansAscend(u) && JournalOk(u, j) && |j.order| < |u.batches|
    requires u.batches[|j.order|] != [] && IdOf(u.batches[|j.order|]) !in j.intents
    ensures IntentFollows(j, IntentFor(u, |j.order|)) && LastNumber(j.intents, j.order) == |j.order|
  {
    LastNumberIs(u, j, |j.order|);
    assert j.order[..|j.order|] == j.order;
    var next := IntentFor(u, |j.order|);
    assert !Opened(u, j);
    forall b | b in j.intents ensures next.number > j.intents[b].number && next.id.first > b.last {
      var n :| 0 <= n < |j.order| && j.order[n] == b;
      assert HasIntent(u, j, n);
      BatchesAscend(u, n, |j.order|);
    }
  }

  /** A batch the journal does not know yet, in a consistent state, is the next one and untouched. */
  lemma UnknownBatch(u: Setup, r: Registry, j: Journal, i: nat)
    requires CutOk(u) && JournalOk(u, j) && RegistryOk(u, r, j)
    requires i < |u.batches| && i <= |j.order| && u.batches[i] != [] && IdOf(u.batches[i]) !in j.intents
    ensures i == |j.order| && After(u, r, Offset(u, i))
    ensures u.hash(RowsOf(r, u.batches[i])) == Pre(u, u.batches[i])
  {
    assert i < |j.order| ==> HasIntent(u, j, i);
    assert !Opened(u, j);
    BatchIsSlice(u, i);
    SliceShown(u, r, Offset(u, i), Offset(u, i), Offset(u, i + 1));
  }

  // ---------------------------------------------------------------- the three durable writes of a batch

  function WithIntent(j: Journal, i: Intent): Journal {
    j.(intents := j.intents[i.id := i])
  }

  function WithCommit(j: Journal, id: BatchId): Journal {
    j.(order := j.order + [id])
  }

  lemma IntentKeepsConsistent(u: Setup, r: Registry, j: Journal)
    requires CutOk(u) && PlansAscend(u) && JournalOk(u, j) && RegistryOk(u, r, j) && |j.order| < |u.batches|
    requires u.batches[|j.order|] != [] && IdOf(u.batches[|j.order|]) !in j.intents
    ensures var j' := WithIntent(j, IntentFor(u, |j.order|));
            JournalOk(u, j') && RegistryOk(u, r, j') && Opened(u, j')
  {
    UnknownBatch(u, r, j, |j.order|);
    assert Offset(u, |j.order|) <= |u.plans| by { OffsetsAscend(u, |j.order|, |j.order|); }
    var j' := WithIntent(j, IntentFor(u, |j.order|));
    forall i | 0 <= i < |j.order| ensures HasIntent(u, j', i) {
      assert HasIntent(u, j, i);
      BatchesAscend(u, i, |j.order|);
    }
  }

  lemma CommitKeepsConsistent(u: Setup, r: Registry, j: Journal)
    requires JournalOk(u, j) && Opened(u, j) && After(u, r, Offset(u, |j.order| + 1))
    ensures var j' := WithCommit(j, IdOf(u.batches[|j.order|])); JournalOk(u, j') && RegistryOk(u, r, j')
  {
    var j' := WithCommit(j, IdOf(u.batches[|j.order|]));
    forall i | 0 <= i < |j'.order| ensures HasIntent(u, j', i) && j'.order[i] == IdOf(u.batches[i]) {
      if i < |j.order| { assert HasIntent(u, j, i); }
    }
    forall b | b in j'.intents ensures b in j'.order {
      if b in j.order {
        var n :| 0 <= n < |j.order| && j.order[n] == b;
        assert j'.order[n] == b;
      } else {
        assert j'.order[|j.order|] == b;
      }
    }
  }

  /** The assets of a batch have been added and nothing else was touched. */
  ghost predicate Grown(u: Setup, r: Registry, r': Registry, b: seq<Plan>) {
    && (forall m :: m in r ==> m in r' && r'[m] == r[m])
    && (forall m :: m in r' && m !in r ==> exists i :: 0 <= i < |b| && b[i].image == m && Registers(u, b[i]))
    && (forall i :: 0 <= i < |b| && Registers(u, b[i]) ==>
          b[i].image !in r && b[i].image in r'
          && r'[b[i].image].submitter == b[i].submitter && r'[b[i].image].sha == b[i].sha)
  }

  lemma PlanCarriedOut(u: Setup, r: Registry, r': Registry, lo: nat, hi: nat, n: nat)
    requires ImagesDistinct(u.plans) && lo <= hi <= |u.plans| && n < |u.plans|
    requires Grown(u, r, r', u.plans[lo..hi]) && PlanShown(u, r, u.plans[n], n < lo)
    ensures PlanShown(u, r', u.plans[n], n < hi)
  {
    var b, p := u.plans[lo..hi], u.plans[n];
    if lo <= n < hi { assert b[n - lo] == p; }
    if p.image !in r && p.image in r' {
      var k :| 0 <= k < |b| && b[k].image == p.image && Registers(u, b[k]);
      assert b[k] == u.plans[lo + k];
    }
  }

  lemma GrownIsPlanned(u: Setup, r: Registry, r': Registry, lo: nat, hi: nat)
    requires lo <= hi <= |u.plans| && OnlyPlannedImages(u, r) && Grown(u, r, r', u.plans[lo..hi])
    ensures OnlyPlannedImages(u, r')
  {
    forall m | m in r' ensures exists n :: 0 <= n < |u.plans| && u.plans[n].image == m {
      if m !in r {
        var k :| 0 <= k < hi - lo && u.plans[lo..hi][k].image == m;
        assert u.plans[lo..hi][k] == u.plans[lo + k];
      }
    }
  }

  lemma BatchCarriesOut(u: Setup, r: Registry, r': Registry, i: nat)
    requires CutOk(u) && ImagesDistinct(u.plans) && i < |u.batches|
    requires After(u, r, Offset(u, i)) && Grown(u, r, r', u.batches[i])
    ensures After(u, r', Offset(u, i + 1))
  {
    BatchIsSlice(u, i);
    GrownIsPlanned(u, r, r', Offset(u, i), Offset(u, i + 1));
    forall n | 0 <= n < |u.plans| ensures PlanShown(u, r', u.plans[n], n < Offset(u, i + 1)) {
      PlanCarriedOut(u, r, r', Offset(u, i), Offset(u, i + 1), n);
    }
  }

  /** The unique constraints accept every asset of the batch. */
  ghost predicate Insertable(u: Setup, r: Registry, b: seq<Plan>) {
    forall i :: 0 <= i < |b| && Registers(u, b[i]) ==>
      && b[i].image !in r && !KeyTaken(r, b[i].submitter, b[i].sha)
      && (forall j :: 0 <= j < |b| && j != i && Registers(u, b[j]) ==>
            b[j].image != b[i].image && !SameKey(b[i], b[j]))
  }

  lemma RegisteredKeyIsFree(u: Setup, r: Registry, n: nat, i: nat)
    requires PlansOk(u) && After(u, r, n) && n <= i < |u.plans| && Registers(u, u.plans[i])
    ensures u.plans[i].image !in r && !KeyTaken(r, u.plans[i].submitter, u.plans[i].sha)
  {
    var p := u.plans[i];
    assert PlanShown(u, r, p, false) by { assert PlanShown(u, r, p, i < n); }
    assert Decided(u.plans, u.decisions, i) && FrozenAgainst(p, u.r0);
    assert !KeyTaken(u.r0, p.submitter, p.sha) && !HasRival(u.plans, i);
    forall m | m in r ensures r[m].submitter != p.submitter || r[m].sha != p.sha {
      var k :| 0 <= k < |u.plans| && u.plans[k].image == m;
      assert PlanShown(u, r, u.plans[k], k < n) && FrozenAgainst(u.plans[k], u.r0) && Decided(u.plans, u.decisions, k);
    }
  }

  lemma RegisteredKeysDiffer(u: Setup, i: nat, k: nat)
    requires PlansOk(u) && i < |u.plans| && k < |u.plans| && i != k
    requires Registers(u, u.plans[i]) && Registers(u, u.plans[k])
    ensures u.plans[k].image != u.plans[i].image && !SameKey(u.plans[i], u.plans[k])
  {
    assert Decided(u.plans, u.decisions, i) && Decided(u.plans, u.decisions, k);
    assert !HasRival(u.plans, i) && Candidate(u.plans[k]);
    if i < k {} else {}
  }

  lemma NextBatchIsInsertable(u: Setup, r: Registry, i: nat)
    requires PlansOk(u) && CutOk(u) && i < |u.batches| && After(u, r, Offset(u, i))
    ensures Insertable(u, r, u.batches[i])
  {
    BatchIsSlice(u, i);
    var b, lo := u.batches[i], Offset(u, i);
    forall n | 0 <= n < |b| && Registers(u, b[n])
      ensures b[n].image !in r && !KeyTaken(r, b[n].submitter, b[n].sha)
    {
      RegisteredKeyIsFree(u, r, lo, lo + n);
    }
    forall n, k | 0 <= n < |b| && 0 <= k < |b| && k != n && Registers(u, b[n]) && Registers(u, b[k])
      ensures b[k].image != b[n].image && !SameKey(b[n], b[k])
    {
      RegisteredKeysDiffer(u, lo + n, lo + k);
    }
  }

  /** Adding its assets turns the rows of a batch from before to after. */
  lemma GrownRows(u: Setup, r: Registry, r': Registry, b: seq<Plan>)
    requires HasDecisions(u, b) && RowsOf(r, b) == ExpectedRows(u, b, false) && Grown(u, r, r', b)
    ensures RowsOf(r', b) == ExpectedRows(u, b, true)
  {
    forall row | row in RowsOf(r', b) ensures row in ExpectedRows(u, b, true) {
      var n :| 0 <= n < |b| && b[n].image in r' && row == Row(b[n].image, r'[b[n].image].submitter, r'[b[n].image].sha);
      if b[n].image in r {
        assert row in RowsOf(r, b);
      } else {
        var k :| 0 <= k < |b| && b[k].image == b[n].image && Registers(u, b[k]);
      }
    }
    forall row | row in ExpectedRows(u, b, true) ensures row in RowsOf(r', b) {
      if row in ExpectedRows(u, b, false) {
        assert row in RowsOf(r, b);
      }
    }
  }

  // ---------------------------------------------------------------- one run

  /** Every asset that was not there at planning time was created once, and by this migration. */
  ghost predicate CreatedOnce(u: Setup, r: Registry, created: seq<ImageId>) {
    && (forall i, j :: 0 <= i < j < |created| ==> created[i] != created[j])
    && (forall m :: m in r && m !in u.r0 <==> m in created)
    && (forall m :: m in u.r0 ==> m in r)
  }

  /** What the database rejects: a second asset for the image or for the key. */
  predicate Rejected(r: Registry, p: Plan) {
    p.image in r || exists m :: m in r && r[m].submitter == p.submitter && r[m].sha == p.sha
  }

  lemma CreateOne(u: Setup, r: Registry, created: seq<ImageId>, p: Plan, a: Asset)
    ensures !Rejected(r, p) && CreatedOnce(u, r, created) ==> CreatedOnce(u, r[p.image := a], created + [p.image])
  {
  }

  lemma InsertOne(u: Setup, r: Registry, next: Registry, b: seq<Plan>, i: nat, pk: nat)
    requires i < |b| && Grown(u, r, next, b[..i]) && KeysUnique(next)
    ensures Registers(u, b[i]) && !Rejected(next, b[i]) ==>
              var more := next[b[i].image := Asset(pk, b[i].submitter, b[i].sha)];
              Grown(u, r, more, b[..i + 1]) && KeysUnique(more)
    ensures !Registers(u, b[i]) ==> Grown(u, r, next, b[..i + 1])
    ensures Insertable(u, r, b) && Registers(u, b[i]) ==> !Rejected(next, b[i])
  {
    assert b[..i + 1] == b[..i] + [b[i]];
    assert b[i] == b[..i + 1][i];
    forall k | 0 <= k < i ensures b[..i][k] == b[..i + 1][k] == b[k] {}
  }

  /** Consistent, with the first `n` batches committed and the phase still open. */
  ghost predicate Underway(u: Setup, r: Registry, contexts: map<ImageId, Context>, j: Journal, n: nat) {
    InjectiveHash(u.hash) && Consistent(u, r, contexts, j) && n <= |j.order| && !j.complete
  }

  /** What each recovery says about a consistent state. */
  ghost predicate FoundAs(u: Setup, r: Registry, contexts: map<ImageId, Context>, j: Journal, i: nat, recovery: Recovery) {
    match recovery
    case Committed => Underway(u, r, contexts, j, i + 1)
    case AppendCommit => Next(u, r, contexts, j, i, true, true)
    case Reexecute => Next(u, r, contexts, j, i, true, false)
    case Fresh => Next(u, r, contexts, j, i, false, false)
    case Conflict => false
  }

  /** What the journal and the registry say about a batch. */
  function Diagnose(u: Setup, r: Registry, j: Journal, b: seq<Plan>): Recovery
    requires b != []
  {
    if IdOf(b) in j.intents then
      var known := j.intents[IdOf(b)];
      if known.pre != Pre(u, b) || known.post != Post(u, b) || known.images != |b| then Conflict
      else RecoverBatch(j, IdOf(b), u.hash(RowsOf(r, b)))
    else if u.hash(RowsOf(r, b)) == Pre(u, b) then Fresh else Conflict
  }

  lemma Diagnosed(u: Setup, r: Registry, contexts: map<ImageId, Context>, j: Journal, i: nat)
    requires CutOk(u) && PlansAscend(u) && i < |u.batches| && u.batches[i] != [] && Underway(u, r, contexts, j, i)
    ensures FoundAs(u, r, contexts, j, i, Diagnose(u, r, j, u.batches[i]))
  {
    if IdOf(u.batches[i]) in j.intents {
      KnownBatch(u, r, j, i);
    } else {
      UnknownBatch(u, r, j, i);
    }
  }

  lemma BatchesAreDecided(u: Setup, i: nat)
    requires PlansOk(u) && CutOk(u) && i < |u.batches|
    ensures u.batches[i] != [] && HasDecisions(u, u.batches[i])
    ensures forall contexts :: ContextsOk(u, contexts) ==>
              forall n :: 0 <= n < |u.batches[i]| ==>
                u.batches[i][n].image in contexts && contexts[u.batches[i][n].image] == u.batches[i][n].context
  {
    BatchIsSlice(u, i);
    var b := u.batches[i];
    forall n | 0 <= n < |b| ensures b[n] == u.plans[Offset(u, i) + n] && b[n].image in u.decisions {
      assert Decided(u.plans, u.decisions, Offset(u, i) + n);
    }
    forall n | 0 <= n < |b| && Registers(u, b[n]) ensures b[n].registry.None? {
      assert Decided(u.plans, u.decisions, Offset(u, i) + n) && b[n] == u.plans[Offset(u, i) + n];
    }
  }

  /** Consistent, with batch `i` next: its intent written or not, itself not applied or applied. */
  ghost predicate Next(u: Setup, r: Registry, contexts: map<ImageId, Context>, j: Journal,
                       i: nat, intended: bool, applied: bool)
  {
    && Underway(u, r, contexts, j, i) && i == |j.order| < |u.batches| && intended == Opened(u, j)
    && After(u, r, Offset(u, if applied then i + 1 else i))
  }

  lemma OpenStep(u: Setup, r: Registry, contexts: map<ImageId, Context>, j: Journal, i: nat)
    requires CutOk(u) && PlansAscend(u) && Next(u, r, contexts, j, i, false, false)
    requires u.batches[i] != [] && IdOf(u.batches[i]) !in j.intents
    ensures IntentFollows(j, IntentFor(u, i)) && LastNumber(j.intents, j.order) == i
    ensures Next(u, r, contexts, WithIntent(j, IntentFor(u, i)), i, true, false)
  {
    NextIntentFollows(u, j);
    IntentKeepsConsistent(u, r, j);
  }

  lemma ApplyStep(u: Setup, r: Registry, r': Registry, contexts: map<ImageId, Context>, j: Journal, i: nat)
    requires CutOk(u) && ImagesDistinct(u.plans) && Next(u, r, contexts, j, i, true, false)
    requires Grown(u, r, r', u.batches[i])
    ensures Next(u, r', contexts, j, i, true, true)
  {
    BatchCarriesOut(u, r, r', i);
  }

  lemma CommitStep(u: Setup, r: Registry, contexts: map<ImageId, Context>, j: Journal, i: nat)
    requires Next(u, r, contexts, j, i, true, true) && u.batches[i] != []
    ensures Underway(u, r, contexts, WithCommit(j, IdOf(u.batches[i])), i + 1)
  {
    CommitKeepsConsistent(u, r, j);
  }

  /** The next batch passes every check of its transaction. */
  lemma NextPasses(u: Setup, r: Registry, contexts: map<ImageId, Context>, j: Journal, i: nat)
    requires PlansOk(u) && CutOk(u) && Next(u, r, contexts, j, i, true, false)
    ensures u.hash(RowsOf(r, u.batches[i])) == Pre(u, u.batches[i]) && Insertable(u, r, u.batches[i])
    ensures ContextsOk(u, contexts) && InjectiveHash(u.hash)
  {
    BatchIsSlice(u, i);
    SliceShown(u, r, Offset(u, i), Offset(u, i), Offset(u, i + 1));
    NextBatchIsInsertable(u, r, i);
  }

  /** The image of this plan is gone or is not what it was at planning time. */
  predicate IsStale(contexts: map<ImageId, Context>, p: Plan) {
    p.image !in contexts || contexts[p.image] != p.context
  }

  /** The plan's files are opened again before its batch goes on. */
  predicate Referenced(u: Setup, p: Plan) {
    p.image in u.decisions && u.decisions[p.image] in {Register, AlreadyRegistered}
  }

  class Backfill {
    const u: Setup
    var registry: Registry
    var contexts: map<ImageId, Context>
    var journal: Journal
    var nextPk: nat
    /** Images in the order in which this migration created their assets. */
    ghost var created: seq<ImageId>

    constructor (u: Setup, contexts: map<ImageId, Context>, nextPk: nat)
      ensures this.u == u && registry == u.r0 && this.contexts == contexts && this.nextPk == nextPk
      ensures journal == Journal(map[], [], false) && created == []
    {
      this.u, this.contexts, this.nextPk := u, contexts, nextPk;
      registry, journal, created := u.r0, Journal(map[], [], false), [];
    }

    function Current(b: seq<Plan>): Digest
      reads this
    {
      u.hash(RowsOf(registry, b))
    }

    predicate ContextCurrent(p: Plan)
      reads this
    {
      p.image in contexts && contexts[p.image] == p.context
    }

    /**
     One transaction: all "register" decisions of the batch or, on any mismatch
     or constraint violation, nothing.
     */
    method ApplyDatabaseBatch(b: seq<Plan>) returns (error: Option<string>)
      requires HasDecisions(u, b) && KeysUnique(registry)
      modifies this
      ensures contexts == old(contexts) && journal == old(journal)
      ensures error.Some? ==> registry == old(registry) && created == old(created)
      ensures error.None? ==>
                && old(Current(b)) == Pre(u, b) && Current(b) == Post(u, b)
                && Grown(u, old(registry), registry, b)
      ensures KeysUnique(registry)
      ensures old(CreatedOnce(u, registry, created)) ==> CreatedOnce(u, registry, created)
      ensures old(PksUnique(registry, nextPk)) ==> PksUnique(registry, nextPk)
      ensures error.None? || error.value in {DATABASE_CONFLICT, IDENTITY_CHANGED}
      ensures error == Some(IDENTITY_CHANGED) <==>
                old(Current(b)) == Pre(u, b)
                && exists i :: 0 <= i < |b| && (b[i].image !in contexts || contexts[b[i].image] != b[i].context)
      ensures InjectiveHash(u.hash) && old(Current(b)) == Pre(u, b)
              && (forall i :: 0 <= i < |b| ==> old(ContextCurrent(b[i]))) && Insertable(u, old(registry), b)
              ==> error.None?
    {
      assert Grown(u, registry, registry, b[..0]);
      hide PksUnique, CreatedOnce, Grown, KeysUnique, Insertable, Rejected;
      if Current(b) != Pre(u, b) {
        return Some(DATABASE_CONFLICT);
      }
      if exists i :: 0 <= i < |b| && !ContextCurrent(b[i]) {
        return Some(IDENTITY_CHANGED);
      }
      var next: Registry, pk := registry, nextPk;
      ghost var news := created;
      for i := 0 to |b|
        invariant registry == old(registry) && contexts == old(contexts)
        invariant journal == old(journal) && created == old(created) && nextPk == old(nextPk)
        invariant Grown(u, registry, next, b[..i]) && KeysUnique(next)
        invariant old(CreatedOnce(u, registry, created)) ==> CreatedOnce(u, next, news)
        invariant old(PksUnique(registry, nextPk)) ==> PksUnique(next, pk)
      {
        InsertOne(u, registry, next, b, i, pk);
        if u.decisions[b[i].image] == Register {
          if Rejected(next, b[i]) {
            return Some(DATABASE_CONFLICT);
          }
          TakePk(next, pk, b[i].image, b[i].submitter, b[i].sha);
          CreateOne(u, next, news, b[i], Asset(pk, b[i].submitter, b[i].sha));
          next := next[b[i].image := Asset(pk, b[i].submitter, b[i].sha)];
          pk := pk + 1;
          news := news + [b[i].image];
        }
      }
      assert b[..|b|] == b;
      if InjectiveHash(u.hash) { GrownRows(u, registry, next, b); }
      if u.hash(RowsOf(next, b)) != Post(u, b) {
        return Some(DATABASE_CONFLICT);
      }
      registry, nextPk, created := next, pk, news;
      return None;
    }

    /**
     One batch. `budget` durable writes (intent, transaction, commit) happen
     before the process dies.
     */
    method ExecuteBatch(i: nat, budget: nat) returns (out: Outcome, left: nat)
      requires SetupOk(u) && i < |u.batches| && KeysUnique(registry)
      modifies this
      ensures contexts == old(contexts) && journal.complete == old(journal.complete) && left <= budget
      ensures KeysUnique(registry)
      ensures old(CreatedOnce(u, registry, created)) ==> CreatedOnce(u, registry, created)
      ensures registry == old(registry)
              || (old(Current(u.batches[i])) == Pre(u, u.batches[i]) && Grown(u, old(registry), registry, u.batches[i]))
      ensures (exists n :: 0 <= n < |u.batches[i]| && IsStale(contexts, u.batches[i][n])) ==> registry == old(registry)
      ensures old(Current(u.batches[i])) !in {Pre(u, u.batches[i]), Post(u, u.batches[i])} ==>
                out.Failed? && registry == old(registry) && journal == old(journal)
      ensures out.Done? && old(Current(u.batches[i])) == Pre(u, u.batches[i]) != Post(u, u.batches[i]) ==>
                forall n :: 0 <= n < |u.batches[i]| ==> !IsStale(contexts, u.batches[i][n])
      ensures out.Done? ==>
                forall n :: 0 <= n < |u.batches[i]| && Referenced(u, u.batches[i][n]) ==>
                  !IsStale(contexts, u.batches[i][n])
      ensures old(Underway(u, registry, contexts, journal, i)) ==>
                && Underway(u, registry, contexts, journal, if out.Done? then i + 1 else i)
                && !out.Failed? && (budget >= 3 ==> out.Done? && left >= budget - 3)
    {
      BatchesAreDecided(u, i);
      var recovery, code := Inspect(i);
      if recovery == Conflict {
        return Failed(code), budget;
      }
      if recovery == Committed {
        return Done, budget;
      }
      if recovery == AppendCommit {
        out, left := Commit(i, budget);
        return;
      }
      left := budget;
      if recovery == Fresh {
        out, left := Open(i, budget);
        if !out.Done? {
          return;
        }
      }
      out, left := ApplyAndCommit(i, left);
    }

    /** The batch's transaction, then its commit in the journal. */
    method ApplyAndCommit(i: nat, budget: nat) returns (out: Outcome, left: nat)
      requires PlansOk(u) && CutOk(u) && i < |u.batches| && u.batches[i] != [] && KeysUnique(registry)
      modifies this
      ensures contexts == old(contexts) && journal.complete == old(journal.complete) && left <= budget
      ensures KeysUnique(registry)
      ensures old(CreatedOnce(u, registry, created)) ==> CreatedOnce(u, registry, created)
      ensures registry == old(registry)
              || (old(Current(u.batches[i])) == Pre(u, u.batches[i]) && Grown(u, old(registry), registry, u.batches[i]))
      ensures (exists n :: 0 <= n < |u.batches[i]| && IsStale(contexts, u.batches[i][n])) ==> registry == old(registry)
      ensures out.Done? ==> forall n :: 0 <= n < |u.batches[i]| ==> !IsStale(contexts, u.batches[i][n])
      ensures old(Next(u, registry, contexts, journal, i, true, false)) ==>
                && Underway(u, registry, contexts, journal, if out.Done? then i + 1 else i)
                && !out.Failed? && (budget >= 2 ==> out.Done? && left == budget - 2)
    {
      if budget == 0 {
        return Crashed, 0;
      }
      BatchesAreDecided(u, i);
      ghost var ready := Next(u, registry, contexts, journal, i, true, false);
      if ready { NextPasses(u, registry, contexts, journal, i); }
      var error := ApplyDatabaseBatch(u.batches[i]);
      if error.Some? {
        return Failed(error.value), budget;
      }
      if ready { ApplyStep(u, old(registry), registry, contexts, journal, i); }
      out, left := Commit(i, budget - 1);
    }

    /** Nothing is written while the batch is compared with the journal, the registry and the images. */
    method Inspect(i: nat) returns (recovery: Recovery, code: string)
      requires SetupOk(u) && i < |u.batches| && u.batches[i] != []
      ensures recovery == Conflict || recovery == Diagnose(u, registry, journal, u.batches[i])
      ensures recovery == Conflict ==> code in {DATABASE_CONFLICT, BATCH_CONFLICT, IDENTITY_CHANGED}
      ensures recovery == Conflict && code == BATCH_CONFLICT <==>
                var b := u.batches[i];
                && IdOf(b) in journal.intents
                && (journal.intents[IdOf(b)].pre != Pre(u, b) || journal.intents[IdOf(b)].post != Post(u, b)
                    || journal.intents[IdOf(b)].images != |b|)
      ensures recovery == Conflict && code == IDENTITY_CHANGED <==>
                && Diagnose(u, registry, journal, u.batches[i]) != Conflict
                && exists n :: 0 <= n < |u.batches[i]| && Referenced(u, u.batches[i][n])
                               && IsStale(contexts, u.batches[i][n])
      ensures recovery != Conflict ==>
                forall n :: 0 <= n < |u.batches[i]| && Referenced(u, u.batches[i][n]) ==>
                  !IsStale(contexts, u.batches[i][n])
      ensures Underway(u, registry, contexts, journal, i) ==> FoundAs(u, registry, contexts, journal, i, recovery)
    {
      var b := u.batches[i];
      BatchesAreDecided(u, i);
      if Underway(u, registry, contexts, journal, i) { Diagnosed(u, registry, contexts, journal, i); }
      code := DATABASE_CONFLICT;
      if IdOf(b) in journal.intents {
        var known := journal.intents[IdOf(b)];
        if known.pre != Pre(u, b) || known.post != Post(u, b) || known.images != |b| {
          return Conflict, BATCH_CONFLICT;
        }
        recovery := RecoverBatch(journal, IdOf(b), Current(b));
      } else {
        recovery := if Current(b) == Pre(u, b) then Fresh else Conflict;
      }
      if recovery != Conflict
         && exists n :: 0 <= n < |b| && u.decisions[b[n].image] in {Register, AlreadyRegistered} && !ContextCurrent(b[n]) {
        return Conflict, IDENTITY_CHANGED;
      }
    }

    /** The journal's intent for a batch it does not know. */
    method Open(i: nat, budget: nat) returns (out: Outcome, left: nat)
      requires CutOk(u) && PlansAscend(u)
      requires i < |u.batches| && u.batches[i] != [] && IdOf(u.batches[i]) !in journal.intents
      modifies this`journal
      ensures left <= budget && journal.complete == old(journal.complete)
      ensures out.Done? ==> left == budget - 1
      ensures !out.Done? ==> journal == old(journal)
      ensures out.Failed? <==> !old(MayOpen(journal, IdOf(u.batches[i])))
      ensures out.Done? ==>
                var id := IdOf(u.batches[i]);
                && id in journal.intents && journal.order == old(journal).order
                && journal.intents == old(journal).intents[id := journal.intents[id]]
                && journal.intents[id].id == id && journal.intents[id].images == |u.batches[i]|
                && (forall b :: b in old(journal).order && b in old(journal).intents ==>
                      journal.intents[id].number > old(journal).intents[b].number)
      ensures old(Next(u, registry, contexts, journal, i, false, false)) ==>
                && (if budget == 0 then out.Crashed? else out.Done?)
                && (out.Done? ==> Next(u, registry, contexts, journal, i, true, false))
    {
      if Next(u, registry, contexts, journal, i, false, false) { OpenStep(u, registry, contexts, journal, i); }
      NumbersStayBelow(journal);
      var b := u.batches[i];
      var intent := Intent(LastNumber(journal.intents, journal.order) + 1, IdOf(b), Pre(u, b), Post(u, b), |b|);
      if !IntentFollows(journal, intent) {
        return Failed(BATCH_CONFLICT), budget;
      }
      if budget == 0 {
        return Crashed, 0;
      }
      journal := WithIntent(journal, intent);
      return Done, budget - 1;
    }

    /** The journal's commit of an open batch. */
    method Commit(i: nat, budget: nat) returns (out: Outcome, left: nat)
      requires i < |u.batches| && u.batches[i] != []
      modifies this`journal
      ensures left == (if budget == 0 then 0 else budget - 1) && out == if budget == 0 then Crashed else Done
      ensures journal == if out.Done? then WithCommit(old(journal), IdOf(u.batches[i])) else old(journal)
      ensures old(Next(u, registry, contexts, journal, i, true, true)) && out.Done? ==>
                Underway(u, registry, contexts, journal, i + 1)
    {
      if budget == 0 {
        return Crashed, 0;
      }
      if Next(u, registry, contexts, journal, i, true, true) { CommitStep(u, registry, contexts, journal, i); }
      journal := WithCommit(journal, IdOf(u.batches[i]));
      return Done, budget - 1;
    }

    predicate PlanCurrent(p: Plan, requireRegistered: bool)
      reads this
    {
      PlanShown(u, registry, p, true) || (!requireRegistered && PlanShown(u, registry, p, false))
    }

    /** The images are the planned ones, unchanged, and the registry is at most behind by "register" decisions. */
    ghost predicate Closure(requireRegistered: bool)
      reads this
    {
      ContextsOk(u, contexts) && forall i :: 0 <= i < |u.plans| ==> PlanCurrent(u.plans[i], requireRegistered)
    }

    method VerifyClosure(requireRegistered: bool) returns (error: Option<string>)
      requires SetupOk(u)
      ensures error.None? <==> Closure(requireRegistered)
      ensures error.None? || error.value in {DATABASE_CONFLICT, IDENTITY_CHANGED}
      ensures error.None? ==>
                && (forall m :: m in contexts ==> exists i :: 0 <= i < |u.plans| && u.plans[i].image == m)
                && (forall i :: 0 <= i < |u.plans| ==> !IsStale(contexts, u.plans[i]))
    {
      if contexts.Keys != (set i | 0 <= i < |u.plans| :: u.plans[i].image) {
        return Some(IDENTITY_CHANGED);
      }
      for i := 0 to |u.plans|
        invariant forall n :: 0 <= n < i ==>
                    contexts[u.plans[n].image] == u.plans[n].context && PlanCurrent(u.plans[n], requireRegistered)
      {
        var p := u.plans[i];
        assert Decided(u.plans, u.decisions, i) && p.image in contexts;
        if contexts[p.image] != p.context {
          return Some(IDENTITY_CHANGED);
        }
        if p.registry.Some? {
          if p.image !in registry || SignatureOf(p.image, registry[p.image]) != p.registry.value {
            return Some(DATABASE_CONFLICT);
          }
        } else if u.decisions[p.image] == Register {
          if p.image !in registry {
            if requireRegistered {
              return Some(DATABASE_CONFLICT);
            }
          } else if registry[p.image].submitter != p.submitter || registry[p.image].sha != p.sha {
            return Some(DATABASE_CONFLICT);
          }
        } else if p.image in registry {
          return Some(DATABASE_CONFLICT);
        }
      }
      return None;
    }

    /**
     One linear run. Whatever happened to the database before, a run that reports
     success leaves the planning-time registry plus exactly the "register"
     decisions. Undisturbed, it never fails, and it succeeds unless it is cut.
     */
    method ExecuteLinear(budget: nat) returns (out: Outcome)
      requires SetupOk(u) && KeysUnique(registry) && registry.Keys <= contexts.Keys
      modifies this
      ensures contexts == old(contexts) && KeysUnique(registry) && registry.Keys <= contexts.Keys
      ensures out.Done? ==> Converged(u, registry) && journal.complete
      ensures old(CreatedOnce(u, registry, created)) ==> CreatedOnce(u, registry, created)
      ensures old(Undisturbed()) ==> Undisturbed() && !out.Failed? && (budget > 3 * |u.batches| ==> out.Done?)
    {
      if journal.complete {
        if old(Undisturbed()) { CompleteIsClosed(); }
        out := Confirm();
        return;
      }
      if old(Undisturbed()) { UndisturbedIsCurrent(); }
      var error := VerifyClosure(false);
      if error.Some? {
        return Failed(error.value);
      }
      var left;
      out, left := ExecuteBatches(budget);
      if out.Done? {
        out := Conclude(left);
      }
    }

    /** The closure check that every success goes through. */
    method Confirm() returns (out: Outcome)
      requires SetupOk(u) && registry.Keys <= contexts.Keys
      ensures out.Done? ==> Converged(u, registry)
      ensures !out.Crashed? && (Closure(true) ==> out.Done?)
    {
      var error := VerifyClosure(true);
      if error.Some? {
        return Failed(error.value);
      }
      ClosedIsConverged();
      return Done;
    }

    method Conclude(budget: nat) returns (out: Outcome)
      requires SetupOk(u) && registry.Keys <= contexts.Keys
      modifies this`journal
      ensures out.Done? ==> Converged(u, registry)
      ensures if out.Done? then journal == old(journal).(complete := true) else journal == old(journal)
      ensures old(Underway(u, registry, contexts, journal, |u.batches|)) ==>
                Undisturbed() && !out.Failed? && (budget > 0 ==> out.Done?)
    {
      if Underway(u, registry, contexts, journal, |u.batches|) { AllCommittedIsClosed(); CompleteStep(); }
      out := Confirm();
      if out.Done? {
        if budget == 0 {
          return Crashed;
        }
        journal := journal.(complete := true);
      }
    }

    lemma CompleteStep()
      requires Underway(u, registry, contexts, journal, |u.batches|)
      ensures Consistent(u, registry, contexts, journal.(complete := true))
    {
      var j := journal.(complete := true);
      forall i | 0 <= i < |j.order| ensures HasIntent(u, j, i) {
        assert HasIntent(u, journal, i);
      }
    }

    /** All batches in order, until one does not succeed. */
    method ExecuteBatches(budget: nat) returns (out: Outcome, left: nat)
      requires SetupOk(u) && KeysUnique(registry) && registry.Keys <= contexts.Keys
      requires ContextsOk(u, contexts) && !journal.complete
      modifies this
      ensures contexts == old(contexts) && !journal.complete && KeysUnique(registry) && registry.Keys <= contexts.Keys
      ensures old(CreatedOnce(u, registry, created)) ==> CreatedOnce(u, registry, created)
      ensures old(Underway(u, registry, contexts, journal, 0)) ==>
                && Underway(u, registry, contexts, journal, if out.Done? then |u.batches| else 0)
                && !out.Failed? && (budget > 3 * |u.batches| ==> out.Done? && left > 0)
    {
      out, left := Done, budget;
      for i := 0 to |u.batches|
        invariant contexts == old(contexts) && !journal.complete && KeysUnique(registry)
        invariant registry.Keys <= contexts.Keys && out.Done?
        invariant old(CreatedOnce(u, registry, created)) ==> CreatedOnce(u, registry, created)
        invariant old(Underway(u, registry, contexts, journal, 0)) ==>
                    Underway(u, registry, contexts, journal, i) && (budget > 3 * |u.batches| ==> left >= budget - 3 * i)
      {
        GrownStaysPlanned(i);
        out, left := ExecuteBatch(i, left);
        if !out.Done? {
          return;
        }
      }
    }

    /** Runs one after the other until one of them gets to the end. */
    method Resume(budgets: seq<nat>) returns (out: Outcome)
      requires SetupOk(u) && KeysUnique(registry) && registry.Keys <= contexts.Keys
      requires Undisturbed() && CreatedOnce(u, registry, created)
      modifies this
      ensures !out.Failed? && CreatedOnce(u, registry, created)
      ensures out.Done? ==> Converged(u, registry) && journal.complete
      ensures (exists n :: 0 <= n < |budgets| && budgets[n] > 3 * |u.batches|) ==> out.Done?
      decreases |budgets|
    {
      if budgets == [] {
        return Crashed;
      }
      out := ExecuteLinear(budgets[0]);
      if !out.Done? {
        out := Resume(budgets[1..]);
      }
    }

    /** Nobody but this migration has touched its images, its assets or its journal. */
    ghost predicate Undisturbed()
      reads this
    {
      InjectiveHash(u.hash) && Consistent(u, registry, contexts, journal)
    }

    /** A batch only ever adds assets of planned images. */
    lemma GrownStaysPlanned(i: nat)
      requires SetupOk(u) && i < |u.batches| && ContextsOk(u, contexts) && registry.Keys <= contexts.Keys
      ensures forall r :: Grown(u, registry, r, u.batches[i]) ==> r.Keys <= contexts.Keys
    {
      BatchesAreDecided(u, i);
    }

    lemma ClosedIsConverged()
      requires SetupOk(u) && Closure(true) && registry.Keys <= contexts.Keys
      ensures Converged(u, registry)
    {
      assert After(u, registry, |u.plans|);
      AllCarriedOut(u, registry);
    }

    lemma UndisturbedIsCurrent()
      requires SetupOk(u) && Undisturbed()
      ensures Closure(false)
    {
      forall n | 0 <= n < |u.plans| ensures PlanCurrent(u.plans[n], false) {
        if After(u, registry, Offset(u, |journal.order|)) {
          assert PlanShown(u, registry, u.plans[n], n < Offset(u, |journal.order|));
        } else {
          assert PlanShown(u, registry, u.plans[n], n < Offset(u, |journal.order| + 1));
        }
      }
    }

    lemma AllCommittedIsClosed()
      requires SetupOk(u) && Undisturbed() && |journal.order| == |u.batches|
      ensures Closure(true)
    {
      WholeOffset(u);
      forall n | 0 <= n < |u.plans| ensures PlanCurrent(u.plans[n], true) {
        assert PlanShown(u, registry, u.plans[n], n < |u.plans|);
      }
    }

    lemma CompleteIsClosed()
      requires SetupOk(u) && Undisturbed() && journal.complete
      ensures Closure(true)
    {
      AllCommittedIsClosed();
    }
  }

  /**
   A migration from scratch, cut as often as you like: run `n` dies after
   `budgets[n]` durable writes. It never fails; it converges as soon as one run
   is long enough; and every new asset was created exactly once.
   */
  method Migrate(u: Setup, contexts: map<ImageId, Context>, nextPk: nat, budgets: seq<nat>)
    returns (b: Backfill, out: Outcome)
    requires SetupOk(u) && KeysUnique(u.r0) && InjectiveHash(u.hash) && ContextsOk(u, contexts)
    ensures b.u == u && !out.Failed? && CreatedOnce(u, b.registry, b.created)
    ensures out.Done? ==> Converged(u, b.registry) && b.journal.complete && multiset(b.created) == multiset(NewImages(u.plans))
    ensures (exists n :: 0 <= n < |budgets| && budgets[n] > 3 * |u.batches|) ==> out.Done?
  {
    b := new Backfill(u, contexts, nextPk);
    StartIsConsistent(u, contexts);
    out := b.Resume(budgets);
    if out.Done? { CreatedAreNew(u, b.registry, b.created); }
  }

  lemma StartIsConsistent(u: Setup, contexts: map<ImageId, Context>)
    requires SetupOk(u) && ContextsOk(u, contexts)
    ensures Consistent(u, u.r0, contexts, Journal(map[], [], false)) && u.r0.Keys <= contexts.Keys
  {
    assert Offset(u, 0) == 0;
    forall i | 0 <= i < |u.plans| ensures PlanShown(u, u.r0, u.plans[i], i < 0) {
      assert FrozenAgainst(u.plans[i], u.r0);
    }
  }

  lemma CreatedAreNew(u: Setup, r: Registry, created: seq<ImageId>)
    requires SetupOk(u) && Converged(u, r) && CreatedOnce(u, r, created)
    ensures multiset(created) == multiset(NewImages(u.plans))
  {
    forall m ensures m in created <==> m in NewImages(u.plans) {
      if m in NewImages(u.plans) { NewKeysAreFree(u.plans, u.r0, m); }
    }
    DistinctIsSet(created, NewImages(u.plans));
  }

  lemma {:induction false} DistinctIsSet(xs: seq<ImageId>, s: set<ImageId>)
    requires (forall i, j :: 0 <= i < j < |xs| ==> xs[i] != xs[j]) && forall m :: m in xs <==> m in s
    ensures multiset(xs) == multiset(s)
  {
    if xs != [] {
      var init, x := xs[..|xs| - 1], xs[|xs| - 1];
      assert xs == init + [x];
      DistinctIsSet(init, s - {x});
      assert s == (s - {x}) + {x};
    }
  }
}
