/**
 Planning the media-asset backfill: the keyset scan over images, the key lookup
 that completes a frozen plan, one decision per plan, greedy batching, and the
 phase summary.
 */
module BackfillPlan {
  import opened Wrappers

  type User = nat
  type ImageId = nat
  type Digest = string

  /** Everything of an image and its Pins that must not change between planning and registering. */
  type Context = string

  datatype Asset = Asset(pk: nat, submitter: User, sha: Digest)

  /** The registry by image; an image has at most one asset. */
  type Registry = map<ImageId, Asset>

  datatype Signature = Signature(pk: nat, image: ImageId, submitter: User, sha: Digest)

  datatype Plan = Plan(
    image: ImageId,
    submitter: User,
    sha: Digest,
    context: Context,
    registry: Option<Signature>,
    keyRegistry: Option<Signature>,
    reason: Option<string>)

  datatype Decision = Register | AlreadyRegistered | Skip(reason: string)

  const EXISTING := Skip("existing_registry_collision")
  const DUPLICATE := Skip("duplicate_registry_collision")

  // ---------------------------------------------------------------- frozen plans

  ghost predicate KeysUnique(r: Registry) {
    forall m, n :: m in r && n in r && r[m].submitter == r[n].submitter && r[m].sha == r[n].sha ==> m == n
  }

  ghost predicate KeyTaken(r: Registry, submitter: User, sha: Digest) {
    exists m :: m in r && r[m].submitter == submitter && r[m].sha == sha
  }

  predicate ImagesDistinct(plans: seq<Plan>) {
    forall i, j :: 0 <= i < j < |plans| ==> plans[i].image != plans[j].image
  }

  function SignatureOf(m: ImageId, a: Asset): Signature {
    Signature(a.pk, m, a.submitter, a.sha)
  }

  /** The table lists exactly the assets of the registry. */
  ghost predicate TableOf(table: seq<Signature>, r: Registry) {
    && (forall i :: 0 <= i < |table| ==> table[i].image in r && table[i] == SignatureOf(table[i].image, r[table[i].image]))
    && (forall m :: m in r ==> SignatureOf(m, r[m]) in table)
  }

  /** The plan records what the registry says about its image and, lacking that, about its key. */
  ghost predicate FrozenAgainst(p: Plan, r: Registry) {
    && (if p.image in r then p.registry == Some(SignatureOf(p.image, r[p.image])) && p.reason.None?
        else p.registry.None?)
    && (p.reason.None? && p.registry.None? ==> (p.keyRegistry.Some? <==> KeyTaken(r, p.submitter, p.sha)))
  }

  ghost predicate Frozen(plans: seq<Plan>, r: Registry) {
    ImagesDistinct(plans) && forall i :: 0 <= i < |plans| ==> FrozenAgainst(plans[i], r)
  }

  predicate NeedsKeyLookup(p: Plan) {
    p.reason.None? && p.registry.None?
  }

  /**
   Complete every plan whose image is unregistered with the asset under its
   (submitter, digest), if there is one; leave the others alone.
   */
  method AttachKeySignatures(plans: seq<Plan>, table: seq<Signature>) returns (indexed: seq<Plan>)
    ensures |indexed| == |plans|
    ensures forall i :: 0 <= i < |plans| ==>
              indexed[i] == plans[i].(keyRegistry := indexed[i].keyRegistry)
    ensures forall i :: 0 <= i < |plans| && (plans[i].reason.Some? || plans[i].registry.Some?) ==> indexed[i] == plans[i]
    ensures forall i :: 0 <= i < |plans| && plans[i].reason.None? && plans[i].registry.None? ==>
              match indexed[i].keyRegistry
              case Some(s) => s in table && s.submitter == plans[i].submitter && s.sha == plans[i].sha
              case None => forall s :: s in table ==> s.submitter != plans[i].submitter || s.sha != plans[i].sha
  {
    var pairs: set<(User, Digest)> := {};
    for i := 0 to |plans|
      invariant forall j :: 0 <= j < i && NeedsKeyLookup(plans[j]) ==> (plans[j].submitter, plans[j].sha) in pairs
    {
      if NeedsKeyLookup(plans[i]) {
        pairs := pairs + {(plans[i].submitter, plans[i].sha)};
      }
    }
    var byKey: map<(User, Digest), Signature> := map[];
    for i := 0 to |table|
      invariant forall k :: k in byKey ==> byKey[k] in table && (byKey[k].submitter, byKey[k].sha) == k
      invariant forall j :: 0 <= j < i && (table[j].submitter, table[j].sha) in pairs ==>
                  (table[j].submitter, table[j].sha) in byKey
    {
      var k := (table[i].submitter, table[i].sha);
      if k in pairs {
        byKey := byKey[k := table[i]];
      }
    }
    indexed := [];
    for i := 0 to |plans|
      invariant |indexed| == i
      invariant forall j :: 0 <= j < i ==> indexed[j] == plans[j].(keyRegistry := indexed[j].keyRegistry)
      invariant forall j :: 0 <= j < i && !NeedsKeyLookup(plans[j]) ==> indexed[j] == plans[j]
      invariant forall j :: 0 <= j < i && NeedsKeyLookup(plans[j]) ==>
                  match indexed[j].keyRegistry
                  case Some(s) => s in table && s.submitter == plans[j].submitter && s.sha == plans[j].sha
                  case None => forall s :: s in table ==> s.submitter != plans[j].submitter || s.sha != plans[j].sha
    {
      var p := plans[i];
      if NeedsKeyLookup(p) {
        var k := (p.submitter, p.sha);
        indexed := indexed + [p.(keyRegistry := if k in byKey then Some(byKey[k]) else None)];
      } else {
        indexed := indexed + [p];
      }
    }
  }

  /** What the lookup finds is what freezing asks for. */
  lemma AttachedPlanIsFrozen(p: Plan, r: Registry, table: seq<Signature>)
    requires TableOf(table, r)
    requires if p.image in r then p.registry == Some(SignatureOf(p.image, r[p.image])) && p.reason.None?
             else p.registry.None?
    requires NeedsKeyLookup(p) ==>
               match p.keyRegistry
               case Some(s) => s in table && s.submitter == p.submitter && s.sha == p.sha
               case None => forall s :: s in table ==> s.submitter != p.submitter || s.sha != p.sha
    ensures FrozenAgainst(p, r)
  {
    if NeedsKeyLookup(p) && p.keyRegistry.None? {
      forall m | m in r ensures r[m].submitter != p.submitter || r[m].sha != p.sha {
        assert SignatureOf(m, r[m]) in table;
      }
    }
  }

  // ---------------------------------------------------------------- decisions

  /** Nothing speaks against registering this plan, taken alone. */
  predicate Candidate(p: Plan) {
    p.reason.None? && p.registry.None? && p.keyRegistry.None?
  }

  predicate SameKey(p: Plan, q: Plan) {
    p.submitter == q.submitter && p.sha == q.sha
  }

  ghost predicate HasRival(plans: seq<Plan>, i: nat)
    requires i < |plans|
  {
    exists j :: 0 <= j < |plans| && j != i && Candidate(plans[j]) && SameKey(plans[i], plans[j])
  }

  /** The decision on one plan, read off the whole plan set. */
  ghost function Decide(plans: seq<Plan>, i: nat): Decision
    requires i < |plans|
  {
    var p := plans[i];
    if p.reason.Some? then Skip(p.reason.value)
    else if p.registry.Some? then AlreadyRegistered
    else if p.keyRegistry.Some? then EXISTING
    else if HasRival(plans, i) then DUPLICATE
    else Register
  }

  /** Nothing speaks against registering this plan, judged by the registry itself. */
  ghost predicate Free(r: Registry, p: Plan) {
    p.reason.None? && p.image !in r && forall m :: m in r ==> r[m].submitter != p.submitter || r[m].sha != p.sha
  }

  /** What a decision means for the registry the plans were frozen against. */
  lemma DecisionsMean(plans: seq<Plan>, r: Registry, i: nat)
    requires Frozen(plans, r) && i < |plans|
    ensures var p, d := plans[i], Decide(plans, i);
            && (d == AlreadyRegistered <==> p.image in r)
            && (d == Register <==>
                  && Free(r, p)
                  && (forall j :: 0 <= j < |plans| && Free(r, plans[j]) && SameKey(plans[j], p) ==> j == i))
            && (p.reason.Some? ==> d == Skip(p.reason.value))
            && (p.reason.None? && p.image !in r && !Free(r, p) ==> d == Skip("existing_registry_collision"))
            && (Free(r, p) && d != Register ==> d == Skip("duplicate_registry_collision"))
    ensures forall j :: 0 <= j < |plans| ==>
              (SameKey(plans[j], plans[i]) <==> (plans[j].submitter, plans[j].sha) == (plans[i].submitter, plans[i].sha))
  {
    forall j | 0 <= j < |plans| ensures Candidate(plans[j]) <==> Free(r, plans[j]) {
      assert FrozenAgainst(plans[j], r);
    }
  }

  /** The candidates under one key, in plan order. */
  function Group(plans: seq<Plan>, k: (User, Digest)): seq<Plan> {
    if plans == [] then []
    else
      var p := plans[|plans| - 1];
      Group(plans[..|plans| - 1], k) + (if Candidate(p) && (p.submitter, p.sha) == k then [p] else [])
  }

  lemma {:induction false} GroupMembers(plans: seq<Plan>, k: (User, Digest))
    ensures forall p :: p in Group(plans, k) <==> p in plans && Candidate(p) && (p.submitter, p.sha) == k
    ensures ImagesDistinct(plans) ==> ImagesDistinct(Group(plans, k))
  {
    if plans != [] {
      var init := plans[..|plans| - 1];
      GroupMembers(init, k);
      assert plans == init + [plans[|plans| - 1]];
    }
  }

  /** A candidate is alone in its group exactly when it has no rival. */
  lemma LoneGroup(plans: seq<Plan>, i: nat)
    requires ImagesDistinct(plans) && i < |plans| && Candidate(plans[i])
    ensures var g := Group(plans, (plans[i].submitter, plans[i].sha));
            |g| >= 1 && (|g| == 1 <==> !HasRival(plans, i))
  {
    var k := (plans[i].submitter, plans[i].sha);
    var g := Group(plans, k);
    GroupMembers(plans, k);
    assert plans[i] in g;
    if HasRival(plans, i) {
      var j :| 0 <= j < |plans| && j != i && Candidate(plans[j]) && SameKey(plans[i], plans[j]);
      assert plans[j] in g && plans[j] != plans[i];
    }
    if |g| != 1 {
      var q := if g[0] == plans[i] then g[1] else g[0];
      assert g[0].image != g[1].image && q in g && q in plans;
      var j :| 0 <= j < |plans| && plans[j] == q;
    }
  }

  ghost predicate Decided(plans: seq<Plan>, decisions: map<ImageId, Decision>, j: nat)
    requires j < |plans|
  {
    plans[j].image in decisions && decisions[plans[j].image] == Decide(plans, j)
  }

  ghost predicate OnlyPlanned(plans: seq<Plan>, decisions: map<ImageId, Decision>) {
    forall m :: m in decisions ==> exists j :: 0 <= j < |plans| && plans[j].image == m
  }

  function KeyOf(p: Plan): (User, Digest) {
    (p.submitter, p.sha)
  }

  /** What the first pass has settled and grouped after some of the plans. */
  ghost predicate Grouped(seen: seq<Plan>, groups: map<(User, Digest), seq<Plan>>, order: seq<(User, Digest)>) {
    && (forall k :: k in groups ==> groups[k] == Group(seen, k))
    && (forall k :: k !in groups ==> Group(seen, k) == [])
    && (forall k :: k in groups <==> k in order)
  }

  lemma GroupMore(seen: seq<Plan>, p: Plan, groups: map<(User, Digest), seq<Plan>>, order: seq<(User, Digest)>)
    requires Grouped(seen, groups, order)
    ensures !Candidate(p) ==> Grouped(seen + [p], groups, order)
    ensures Candidate(p) && KeyOf(p) in groups ==>
              Grouped(seen + [p], groups[KeyOf(p) := groups[KeyOf(p)] + [p]], order)
    ensures Candidate(p) && KeyOf(p) !in groups ==>
              Grouped(seen + [p], groups[KeyOf(p) := [p]], order + [KeyOf(p)])
  {
    assert (seen + [p])[..|seen|] == seen;
  }

  lemma {:induction false} EmptyGroupMeans(plans: seq<Plan>, j: nat)
    requires j < |plans| && Candidate(plans[j])
    ensures Group(plans, KeyOf(plans[j])) != []
  {
    GroupMembers(plans, KeyOf(plans[j]));
    assert plans[j] in Group(plans, KeyOf(plans[j]));
  }

  /** The decision of a plan that is no candidate. */
  function Settled(p: Plan): Decision
    requires !Candidate(p)
  {
    if p.reason.Some? then Skip(p.reason.value) else if p.registry.Some? then AlreadyRegistered else EXISTING
  }

  ghost predicate AllSettled(plans: seq<Plan>, n: nat, decisions: map<ImageId, Decision>)
    requires n <= |plans|
  {
    && OnlyPlanned(plans, decisions)
    && forall j :: 0 <= j < n && !Candidate(plans[j]) ==>
         plans[j].image in decisions && decisions[plans[j].image] == Settled(plans[j])
  }

  lemma SettleOne(plans: seq<Plan>, i: nat, decisions: map<ImageId, Decision>)
    requires ImagesDistinct(plans) && i < |plans| && AllSettled(plans, i, decisions) && !Candidate(plans[i])
    ensures AllSettled(plans, i + 1, decisions[plans[i].image := Settled(plans[i])])
  {
  }

  /** First pass: settle every plan that is no candidate and group the rest by key. */
  method GroupCandidates(plans: seq<Plan>)
    returns (decisions: map<ImageId, Decision>, groups: map<(User, Digest), seq<Plan>>, order: seq<(User, Digest)>)
    requires ImagesDistinct(plans)
    ensures OnlyPlanned(plans, decisions)
    ensures forall j :: 0 <= j < |plans| && !Candidate(plans[j]) ==> Decided(plans, decisions, j)
    ensures Grouped(plans, groups, order)
    ensures forall j :: 0 <= j < |plans| && Candidate(plans[j]) ==> KeyOf(plans[j]) in order
  {
    decisions, groups, order := map[], map[], [];
    for i := 0 to |plans|
      invariant AllSettled(plans, i, decisions)
      invariant Grouped(plans[..i], groups, order)
    {
      var p := plans[i];
      GroupMore(plans[..i], p, groups, order);
      assert plans[..i + 1] == plans[..i] + [p];
      if !Candidate(p) {
        SettleOne(plans, i, decisions);
        decisions := decisions[p.image := Settled(p)];
      } else {
        var k := KeyOf(p);
        if k !in groups {
          order := order + [k];
          groups := groups[k := [p]];
        } else {
          groups := groups[k := groups[k] + [p]];
        }
      }
    }
    assert plans[..|plans|] == plans;
    forall j | 0 <= j < |plans| && Candidate(plans[j]) ensures KeyOf(plans[j]) in order {
      EmptyGroupMeans(plans, j);
    }
  }

  /** Every group of a key gets one decision, written for each of its members. */
  lemma GroupDecision(plans: seq<Plan>, k: (User, Digest), j: nat)
    requires ImagesDistinct(plans) && j < |plans| && Candidate(plans[j]) && KeyOf(plans[j]) == k
    ensures plans[j] in Group(plans, k)
    ensures Decide(plans, j) == if |Group(plans, k)| == 1 then Register else DUPLICATE
  {
    GroupMembers(plans, k);
    LoneGroup(plans, j);
  }

  /** Second pass, one group: write the decision for every member. */
  method WriteGroup(plans: seq<Plan>, group: seq<Plan>, decision: Decision, decisions: map<ImageId, Decision>)
    returns (written: map<ImageId, Decision>)
    ensures forall m :: m in written.Keys <==> m in decisions || exists p :: p in group && p.image == m
    ensures forall m :: m in written ==>
              written[m] == if exists p :: p in group && p.image == m then decision else decisions[m]
  {
    written := decisions;
    for n := 0 to |group|
      invariant forall m :: m in written.Keys <==> m in decisions || exists p :: p in group[..n] && p.image == m
      invariant forall m :: m in written ==>
                  written[m] == if exists p :: p in group[..n] && p.image == m then decision else decisions[m]
    {
      assert group[..n + 1] == group[..n] + [group[n]];
      written := written[group[n].image := decision];
    }
    assert group[..|group|] == group;
  }

  method Decisions(plans: seq<Plan>) returns (decisions: map<ImageId, Decision>)
    requires ImagesDistinct(plans)
    ensures OnlyPlanned(plans, decisions)
    ensures forall i :: 0 <= i < |plans| ==> Decided(plans, decisions, i)
    ensures forall i :: 0 <= i < |plans| ==> plans[i].image in decisions && decisions[plans[i].image] == Decide(plans, i)
    ensures forall m :: m in decisions ==> exists i :: 0 <= i < |plans| && plans[i].image == m
  {
    var groups, order;
    decisions, groups, order := GroupCandidates(plans);
    for g := 0 to |order|
      invariant OnlyPlanned(plans, decisions)
      invariant forall j :: 0 <= j < |plans| && (!Candidate(plans[j]) || KeyOf(plans[j]) in order[..g]) ==>
                  Decided(plans, decisions, j)
    {
      var k := order[g];
      var before := decisions;
      GroupMembers(plans, k);
      decisions := WriteGroup(plans, groups[k], if |groups[k]| == 1 then Register else DUPLICATE, decisions);
      forall j | 0 <= j < |plans| && (!Candidate(plans[j]) || KeyOf(plans[j]) in order[..g + 1])
        ensures Decided(plans, decisions, j)
      {
        GroupWritten(plans, k, j, before, decisions);
      }
    }
  }

  /** Writing the group of `k` settles its members and changes no other plan. */
  lemma GroupWritten(plans: seq<Plan>, k: (User, Digest), j: nat,
                     before: map<ImageId, Decision>, after: map<ImageId, Decision>)
    requires ImagesDistinct(plans) && j < |plans|
    requires (Candidate(plans[j]) && KeyOf(plans[j]) == k) || Decided(plans, before, j)
    requires forall m :: m in after.Keys <==> m in before || exists p :: p in Group(plans, k) && p.image == m
    requires forall m :: m in after ==>
               after[m] == if exists p :: p in Group(plans, k) && p.image == m
                           then (if |Group(plans, k)| == 1 then Register else DUPLICATE) else before[m]
    ensures Decided(plans, after, j)
  {
    GroupMembers(plans, k);
    if Candidate(plans[j]) && KeyOf(plans[j]) == k {
      GroupDecision(plans, k, j);
    } else if p :| p in Group(plans, k) && p.image == plans[j].image {
      assert false;
    }
  }

  // ---------------------------------------------------------------- carrying the decisions out

  /** The images that the decisions register. */
  ghost function NewImages(plans: seq<Plan>): set<ImageId> {
    set i | 0 <= i < |plans| && Decide(plans, i) == Register :: plans[i].image
  }

  ghost function PlanFor(plans: seq<Plan>, m: ImageId): Plan
    requires m in NewImages(plans)
  {
    var i :| 0 <= i < |plans| && Decide(plans, i) == Register && plans[i].image == m;
    plans[i]
  }

  /** The registry after every "register" decision was carried out; `pk` numbers the new rows. */
  ghost function RegisterAll(plans: seq<Plan>, r: Registry, pk: ImageId -> nat): Registry {
    r + map m | m in NewImages(plans) :: Asset(pk(m), PlanFor(plans, m).submitter, PlanFor(plans, m).sha)
  }

  lemma PlanForIs(plans: seq<Plan>, i: nat)
    requires ImagesDistinct(plans) && i < |plans| && Decide(plans, i) == Register
    ensures plans[i].image in NewImages(plans) && PlanFor(plans, plans[i].image) == plans[i]
  {
  }

  /** A new asset's key is free in the registry and shared with no other new asset. */
  lemma NewKeysAreFree(plans: seq<Plan>, r: Registry, m: ImageId)
    requires Frozen(plans, r) && m in NewImages(plans)
    ensures m !in r && !KeyTaken(r, PlanFor(plans, m).submitter, PlanFor(plans, m).sha)
    ensures forall n :: n in NewImages(plans) && SameKey(PlanFor(plans, m), PlanFor(plans, n)) ==> n == m
  {
    var i :| 0 <= i < |plans| && Decide(plans, i) == Register && plans[i].image == m;
    PlanForIs(plans, i);
    assert FrozenAgainst(plans[i], r);
    forall n | n in NewImages(plans) && SameKey(PlanFor(plans, m), PlanFor(plans, n)) ensures n == m {
      var j :| 0 <= j < |plans| && Decide(plans, j) == Register && plans[j].image == n;
      PlanForIs(plans, j);
      assert !HasRival(plans, i) && Candidate(plans[j]);
    }
  }

  /**
   Carrying out all "register" decisions of a frozen plan set adds exactly those
   images, touches no existing asset, and keeps (submitter, digest) unique.
   */
  lemma RegisteringKeepsKeysUnique(plans: seq<Plan>, r: Registry, pk: ImageId -> nat)
    requires Frozen(plans, r) && KeysUnique(r)
    ensures var after := RegisterAll(plans, r, pk);
            && KeysUnique(after)
            && after.Keys == r.Keys + NewImages(plans) && r.Keys !! NewImages(plans)
            && (forall m :: m in r ==> after[m] == r[m])
            && (forall i :: 0 <= i < |plans| && Decide(plans, i) == Register ==>
                  after[plans[i].image] == Asset(pk(plans[i].image), plans[i].submitter, plans[i].sha))
  {
    var after := RegisterAll(plans, r, pk);
    forall m | m in NewImages(plans) ensures m !in r { NewKeysAreFree(plans, r, m); }
    forall i | 0 <= i < |plans| && Decide(plans, i) == Register
      ensures after[plans[i].image] == Asset(pk(plans[i].image), plans[i].submitter, plans[i].sha)
    {
      PlanForIs(plans, i);
    }
    forall m, n | m in after && n in after && after[m].submitter == after[n].submitter && after[m].sha == after[n].sha
      ensures m == n
    {
      if m in NewImages(plans) { NewKeysAreFree(plans, r, m); }
      if n in NewImages(plans) { NewKeysAreFree(plans, r, n); }
    }
  }

  // ---------------------------------------------------------------- the phase summary

  datatype Summary = Summary(
    scanned: nat, registered: nat, alreadyRegistered: nat, skipped: nat, reasonCounts: map<string, nat>)

  function CountOf(decisions: seq<Decision>, d: Decision): nat {
    if decisions == [] then 0
    else CountOf(decisions[..|decisions| - 1], d) + (if decisions[|decisions| - 1] == d then 1 else 0)
  }

  lemma {:induction false} CountIsMultiplicity(decisions: seq<Decision>, d: Decision)
    ensures CountOf(decisions, d) == multiset(decisions)[d]
  {
    if decisions != [] {
      var init := decisions[..|decisions| - 1];
      CountIsMultiplicity(init, d);
      assert decisions == init + [decisions[|decisions| - 1]];
    }
  }

  /** The count of each reason that occurs, added up over a set of reasons. */
  ghost function Total(counts: map<string, nat>, reasons: set<string>): nat
    requires reasons <= counts.Keys
  {
    if reasons == {} then 0
    else var x :| x in reasons; counts[x] + Total(counts, reasons - {x})
  }

  lemma {:induction false} TotalRemove(counts: map<string, nat>, reasons: set<string>, x: string)
    requires reasons <= counts.Keys && x in reasons
    ensures Total(counts, reasons) == counts[x] + Total(counts, reasons - {x})
    decreases reasons
  {
    var y :| y in reasons && Total(counts, reasons) == counts[y] + Total(counts, reasons - {y});
    if y != x {
      TotalRemove(counts, reasons - {y}, x);
      TotalRemove(counts, reasons - {x}, y);
      assert reasons - {x} - {y} == reasons - {y} - {x};
    }
  }

  lemma {:induction false} TotalSame(a: map<string, nat>, b: map<string, nat>, reasons: set<string>)
    requires reasons <= a.Keys && reasons <= b.Keys && forall x :: x in reasons ==> a[x] == b[x]
    ensures Total(a, reasons) == Total(b, reasons)
    decreases reasons
  {
    if reasons != {} {
      var x :| x in reasons;
      TotalRemove(a, reasons, x);
      TotalRemove(b, reasons, x);
      TotalSame(a, b, reasons - {x});
    }
  }

  /** One more occurrence of `x` raises the total by one. */
  lemma TotalIncrement(counts: map<string, nat>, x: string)
    ensures var more := counts[x := (if x in counts then counts[x] else 0) + 1];
            Total(more, more.Keys) == Total(counts, counts.Keys) + 1
  {
    var more := counts[x := (if x in counts then counts[x] else 0) + 1];
    TotalRemove(more, more.Keys, x);
    if x in counts {
      TotalRemove(counts, counts.Keys, x);
      assert more.Keys - {x} == counts.Keys - {x};
    } else {
      assert more.Keys - {x} == counts.Keys;
    }
    TotalSame(counts, more, more.Keys - {x});
  }

  /**
   The counts of the summary are those of the decisions and add up: what was
   scanned is what was registered, already registered or skipped, and the skipped
   plans are the sum over the reasons.
   */
  method PhaseSummary(plans: seq<Plan>, decisions: map<ImageId, Decision>) returns (s: Summary)
    requires forall i :: 0 <= i < |plans| ==> plans[i].image in decisions
    ensures s.scanned == |plans| == s.registered + s.alreadyRegistered + s.skipped
    ensures Total(s.reasonCounts, s.reasonCounts.Keys) == s.skipped
    ensures var taken := seq(|plans|, i requires 0 <= i < |plans| => decisions[plans[i].image]);
            && s.registered == CountOf(taken, Register)
            && s.alreadyRegistered == CountOf(taken, AlreadyRegistered)
            && (forall x :: x in s.reasonCounts ==> s.reasonCounts[x] == CountOf(taken, Skip(x)) > 0)
            && (forall x :: x !in s.reasonCounts ==> CountOf(taken, Skip(x)) == 0)
  {
    var registered, already, skipped := 0, 0, 0;
    var counts: map<string, nat> := map[];
    ghost var taken := seq(|plans|, i requires 0 <= i < |plans| => decisions[plans[i].image]);
    for i := 0 to |plans|
      invariant i == registered + already + skipped
      invariant Total(counts, counts.Keys) == skipped
      invariant registered == CountOf(taken[..i], Register) && already == CountOf(taken[..i], AlreadyRegistered)
      invariant forall x :: x in counts ==> counts[x] == CountOf(taken[..i], Skip(x)) > 0
      invariant forall x :: x !in counts ==> CountOf(taken[..i], Skip(x)) == 0
    {
      assert taken[..i + 1][..i] == taken[..i];
      match decisions[plans[i].image] {
        case Register => registered := registered + 1;
        case AlreadyRegistered => already := already + 1;
        case Skip(x) =>
          skipped := skipped + 1;
          TotalIncrement(counts, x);
          counts := counts[x := (if x in counts then counts[x] else 0) + 1];
      }
    }
    assert taken[..|plans|] == taken;
    s := Summary(|plans|, registered, already, skipped, counts);
  }
}
