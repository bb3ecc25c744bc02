/** What the registry says of the files, and what the steps of legacy deletions and of the backfill do to the rows. */
module MediaRegistry {
  import opened Wrappers
  import opened MediaStore
  import opened MediaInvariant
  import opened MediaSteps
  import opened MediaTheorems

  /** Each registered digest is the one published for the image's original. */
  ghost predicate DigestsTrue(s: State) {
    forall m :: m in s.db.assets ==>
      Path(m, Original) in s.hist.published && s.hist.published[Path(m, Original)] == s.db.assets[m].digest
  }

  /** No other step adds to the registry, or to the published digests. */
  lemma RegistryGrowth(c: Config, s: State, a: Action)
    requires Enabled(c, s, a)
    requires !a.CommitPublished? && !a.BackfillRegister?
    ensures forall m :: m in DbAfter(c, s, a).assets ==> m in s.db.assets && DbAfter(c, s, a).assets[m] == s.db.assets[m]
  {
    match a
    case _ =>
  }

  lemma PublishedGrowth(c: Config, s: State, a: Action)
    requires Enabled(c, s, a) && !a.CommitPublished?
    ensures HistAfter(c, s, a).published == s.hist.published
  {
  }

  lemma ImportRegistersTruly(c: Config, s: State, a: Action)
    requires UuidInv(s) && DigestsTrue(s) && a.CommitPublished? && Enabled(c, s, a)
    ensures DigestsTrue(Apply(c, s, a))
  {
    var job := s.procs[a.i].job;
    assert JobOk(s, a.i);
    assert Path(job.uuid, Original) in AssetPaths(job.uuid);
    forall m | m in s.db.assets ensures Path(m, Original) !in Digests(c, job) {
      assert m != job.uuid;
    }
  }

  lemma BackfillRegistersTruly(c: Config, s: State, a: Action)
    requires RowsImplyFiles(c, s) && DigestsTrue(s) && a.BackfillRegister? && Enabled(c, s, a)
    ensures DigestsTrue(Apply(c, s, a))
  {
    var p := Path(a.image, Original);
    assert p in AssetPaths(a.image) && p in s.db.rows;
    assert HasDigest(c, s.files, p, s.hist.published[p]);
  }

  lemma KeepsDigests(c: Config, s: State, a: Action)
    requires Inv(c, s) && DigestsTrue(s) && Enabled(c, s, a)
    ensures DigestsTrue(Apply(c, s, a))
  {
    if a.CommitPublished? {
      ImportRegistersTruly(c, s, a);
    } else if a.BackfillRegister? {
      BackfillRegistersTruly(c, s, a);
    } else {
      RegistryGrowth(c, s, a);
      PublishedGrowth(c, s, a);
    }
  }

  lemma {:induction false} ReachableDigests(c: Config, s: State, run: seq<Action>, t: State)
    requires Inv(c, s) && DigestsTrue(s) && Run(c, s, run, t)
    ensures Inv(c, t) && DigestsTrue(t)
    decreases |run|
  {
    if run != [] {
      StepKeepsInv(c, s, run[0]);
      KeepsDigests(c, s, run[0]);
      ReachableDigests(c, Apply(c, s, run[0]), run[1..], t);
    }
  }

  /** In every reachable state the digest an image is registered under is that of its original file. */
  lemma RegistryNamesItsFiles(c: Config, s: State, run: seq<Action>, t: State, image: Uuid)
    requires Start(c, s) && DigestsTrue(s) && Run(c, s, run, t) && image in t.db.assets
    ensures HasDigest(c, t.files, Path(image, Original), t.db.assets[image].digest)
  {
    ReachableDigests(c, s, run, t);
    assert RegisteredOk(t.db, image) && Path(image, Original) in AssetPaths(image);
  }

  /** A legacy deletion takes the targets that exist, none of them registered; other rows change only at the clean-up. */
  lemma LegacyDeleteMeans(c: Config, s: State, a: Action)
    requires (a.LegacyDeletePins? || a.LegacyCommit?) && Enabled(c, s, a)
    ensures var before, after := s.procs[a.i], Apply(c, s, a).procs[a.i];
            var db, db' := s.db, Apply(c, s, a).db;
            && db'.rows == db.rows && db'.assets == db.assets && db'.pending == db.pending
            && (forall p :: p in db'.pins ==> p in db.pins && db'.pins[p] == db.pins[p])
            && (a.LegacyDeletePins? ==>
                  && db' == db && after.lstage.LegacyDeleting?
                  && (forall p :: p in after.lstage.doomed <==> p in before.targets && p in db.pins)
                  && (forall p :: p in after.lstage.doomed ==> db.pins[p].image !in db.assets))
            && (a.LegacyCommit? ==>
                  && after.lstage.Cleaning?
                  && (forall p :: p in db.pins ==> (p in db'.pins <==> p !in before.lstage.doomed))
                  && (forall p :: p in before.lstage.doomed && p in db.pins ==> db.pins[p].image in after.lstage.images))
  {
  }

  /** The clean-up deletes an image exactly if its row is there and no Pin shows it, and queues the files of its rows. */
  lemma CleanupMeans(c: Config, s: State, a: Action)
    requires a.LegacyCleanup? && Enabled(c, s, a)
    ensures var db, db' := s.db, Apply(c, s, a).db;
            var gone := Path(a.image, Original) in db.rows && forall p :: p in db.pins ==> db.pins[p].image != a.image;
            && db'.pins == db.pins
            && (forall p :: p in db'.rows <==> p in db.rows && !(gone && p.uuid == a.image))
            && (forall m :: m in db'.assets <==> m in db.assets && !(gone && m == a.image))
            && (forall m :: m in db'.assets ==> db'.assets[m] == db.assets[m])
            && (forall p :: p in db'.pending <==> p in db.pending || (gone && p in db.rows && p.uuid == a.image))
  {
    forall p ensures p in AssetPaths(a.image) <==> p.uuid == a.image {
      assert p == Path(p.uuid, p.kind);
      assert p.kind == Original || p.kind == Thumbnail || p.kind == Standard || p.kind == Square;
    }
  }

  /** The backfill adds one asset: for the one owner of the image's Pins, with the digest of the original's bytes. */
  lemma BackfillMeans(c: Config, s: State, a: Action)
    requires a.BackfillRegister? && Enabled(c, s, a)
    ensures var db, db' := s.db, Apply(c, s, a).db;
            && db'.rows == db.rows && db'.pins == db.pins && db'.pending == db.pending
            && a.image !in db.assets && db'.assets.Keys == db.assets.Keys + {a.image}
            && (forall m :: m in db.assets ==> db'.assets[m] == db.assets[m])
            && HasDigest(c, s.files, Path(a.image, Original), db'.assets[a.image].digest)
            && (forall p :: p in db.pins && db.pins[p].image == a.image ==> db.pins[p].owner == db'.assets[a.image].owner)
  {
  }
}
