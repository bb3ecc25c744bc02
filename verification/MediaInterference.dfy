/** What the steps of all other processes leave alone for one process. */
module MediaInterference {
  import opened Wrappers
  import opened MediaStore
  import opened MediaInvariant
  import opened MediaSteps
  import opened MediaTheorems

  predicate By(a: Action, i: Pid) {
    !a.BackfillRegister? && a.i == i
  }

  ghost predicate NoneBy(run: seq<Action>, i: Pid) {
    forall n :: 0 <= n < |run| ==> !By(run[n], i)
  }

  predicate StripeOfMine(s: State, i: Pid, k: nat) {
    k in s.locks.stripes && s.locks.stripes[k] == i
  }

  /** The names under a uuid after some steps are among those before, leading to the same files. */
  ghost predicate OnlyFewer(before: map<Path, Inode>, after: map<Path, Inode>, uuid: Uuid) {
    forall p :: p in after && p.uuid == uuid ==> p in before && after[p] == before[p]
  }

  ghost predicate Kept(s: State, t: State, i: Pid) {
    && (i in s.procs <==> i in t.procs)
    && (i in s.procs ==> t.procs[i] == s.procs[i])
    && (i in s.locks.shared <==> i in t.locks.shared)
    && (s.locks.exclusive == Some(i) <==> t.locks.exclusive == Some(i))
    && (forall k :: StripeOfMine(s, i, k) <==> StripeOfMine(t, i, k))
    && (IsImport(s, i) ==> OnlyFewer(s.files.names, t.files.names, s.procs[i].job.uuid))
    && (forall p :: p in s.hist.uploads ==> p in t.hist.uploads && t.hist.uploads[p] == s.hist.uploads[p])
  }

  lemma ProcKept(c: Config, s: State, a: Action, i: Pid)
    requires Enabled(c, s, a) && !By(a, i)
    ensures i in s.procs <==> i in Apply(c, s, a).procs
    ensures i in s.procs ==> Apply(c, s, a).procs[i] == s.procs[i]
  {
  }

  lemma LocksKept(c: Config, s: State, a: Action, i: Pid)
    requires LockInv(c, s) && Enabled(c, s, a) && !By(a, i)
    ensures i in s.locks.shared <==> i in LocksAfter(c, s, a).shared
    ensures s.locks.exclusive == Some(i) <==> LocksAfter(c, s, a).exclusive == Some(i)
    ensures forall k :: StripeOfMine(s, i, k) <==> StripeOfMine(Apply(c, s, a), i, k)
  {
    match a
    case _ =>
  }

  lemma NamesKept(c: Config, s: State, a: Action, i: Pid)
    requires UuidInv(s) && Enabled(c, s, a) && !By(a, i) && IsImport(s, i)
    ensures OnlyFewer(s.files.names, FilesAfter(c, s, a).names, s.procs[i].job.uuid)
  {
    match a
    case _ =>
  }

  lemma UploadsKept(c: Config, s: State, a: Action)
    requires Enabled(c, s, a)
    ensures forall p :: p in s.hist.uploads ==>
              p in HistAfter(c, s, a).uploads && HistAfter(c, s, a).uploads[p] == s.hist.uploads[p]
  {
    match a
    case _ =>
  }

  lemma StepOfOther(c: Config, s: State, a: Action, i: Pid)
    requires Inv(c, s) && Enabled(c, s, a) && !By(a, i)
    ensures Kept(s, Apply(c, s, a), i)
  {
    ProcKept(c, s, a, i);
    LocksKept(c, s, a, i);
    UploadsKept(c, s, a);
    if IsImport(s, i) {
      NamesKept(c, s, a, i);
    }
  }

  lemma StripesHeld(s: State, i: Pid)
    ensures i in s.locks.stripes.Values <==> exists k :: StripeOfMine(s, i, k)
  {
    if i in s.locks.stripes.Values {
      var k :| k in s.locks.stripes && s.locks.stripes[k] == i;
      assert StripeOfMine(s, i, k);
    }
  }

  lemma HoldsKept(s: State, t: State, i: Pid)
    requires Kept(s, t, i)
    ensures Holds(t, i) == Holds(s, i)
  {
    StripesHeld(s, i);
    StripesHeld(t, i);
  }

  lemma KeptThrough(s: State, m: State, t: State, i: Pid)
    requires Kept(s, m, i) && Kept(m, t, i)
    ensures Kept(s, t, i)
  {
  }

  /** Whatever the others do, a process finds its stage, its locks and its own new files as it left them. */
  lemma {:induction false} OthersKeep(c: Config, s: State, run: seq<Action>, t: State, i: Pid)
    requires Inv(c, s) && Run(c, s, run, t) && NoneBy(run, i)
    ensures Kept(s, t, i)
    decreases |run|
  {
    if run != [] {
      var m := Apply(c, s, run[0]);
      assert !By(run[0], i);
      StepOfOther(c, s, run[0], i);
      StepKeepsInv(c, s, run[0]);
      assert NoneBy(run[1..], i);
      OthersKeep(c, m, run[1..], t, i);
      KeptThrough(s, m, t, i);
    }
  }

  lemma RunFirst(c: Config, s: State, run: seq<Action>, t: State)
    requires run != [] && Enabled(c, s, run[0]) && Run(c, Apply(c, s, run[0]), run[1..], t)
    ensures Run(c, s, run, t)
  {
  }

  lemma {:induction false} RunOn(c: Config, s: State, run: seq<Action>, m: State, more: seq<Action>, t: State)
    requires Run(c, s, run, m) && Run(c, m, more, t)
    ensures Run(c, s, run + more, t)
    decreases |run|
  {
    var all := run + more;
    if run == [] {
      assert all == more;
    } else {
      assert all[0] == run[0] && all[1..] == run[1..] + more;
      RunOn(c, Apply(c, s, run[0]), run[1..], m, more, t);
      RunFirst(c, s, all, t);
    }
  }

  lemma RunThen(c: Config, s: State, run: seq<Action>, m: State, a: Action)
    requires Run(c, s, run, m) && Enabled(c, m, a)
    ensures Run(c, s, run + [a], Apply(c, m, a))
  {
    assert [a][1..] == [];
    assert Run(c, Apply(c, m, a), [a][1..], Apply(c, m, a));
    RunOn(c, s, run, m, [a], Apply(c, m, a));
  }

  /** The steps that write the database on their own process's account. */
  predicate Writes(a: Action) {
    a.CommitPublished? || a.CommitReuse? || a.DeleteCommit? || a.LegacyCommit? || a.LegacyCleanup? || a.WorkerDrop?
  }

  function Written(a: Action, i: Pid): seq<Action> {
    if Writes(a) && a.i == i then [a] else []
  }

  /** What process `i` wrote to the database in a run, in that order. */
  ghost function Effects(run: seq<Action>, i: Pid): seq<Action> {
    if run == [] then [] else Effects(run[..|run| - 1], i) + Written(run[|run| - 1], i)
  }

  lemma EffectsThen(run: seq<Action>, a: Action, i: Pid)
    ensures Effects(run + [a], i) == Effects(run, i) + Written(a, i)
  {
    assert (run + [a])[..|run|] == run;
  }

  lemma {:induction false} EffectsOfOthers(run: seq<Action>, more: seq<Action>, i: Pid)
    requires NoneBy(more, i)
    ensures Effects(run + more, i) == Effects(run, i)
    decreases |more|
  {
    if more == [] {
      assert run + more == run;
    } else {
      var n := |more| - 1;
      assert run + more == (run + more[..n]) + [more[n]];
      EffectsThen(run + more[..n], more[n], i);
      EffectsOfOthers(run, more[..n], i);
    }
  }
}
