/**
 Publishing the four files of an asset and taking a publish back. Files are
 linked under names that must be free or already hold the same digest;
 directories are created on the way and removed again when they were.
 */
module MediaPublish {
  import opened Wrappers
  import opened MediaTree

  const CONFLICT := "media_path_conflict"
  const UNSAFE := "unsafe_media_directory"
  const FAILED := "publish_failed"

  /** A staged file and where it is to go. */
  datatype Prepared = Prepared(original: bool, name: Name, ino: Ino)

  /** Where the single injected failure strikes. */
  datatype Fault =
    | NoFault
    | BeforeMkdir(top: Name, component: nat)
    | AfterMkdir(top: Name, component: nat)
    | AfterOpen(top: Name, component: nat)
    | BeforeFile(file: nat)
    | AfterLink(file: nat)
    | AfterFile(file: nat)
    | AtVerify

  const ORIGINALS := "originals"
  const DERIVATIVES := "derivatives"

  class MediaDirectory {
    const h: Handle
    var removed: seq<bool>

    constructor (h: Handle)
      requires HandleOk(h)
      ensures this.h == h && removed == seq(|h.names|, _ => false)
    {
      this.h := h;
      removed := seq(|h.names|, _ => false);
    }

    ghost predicate Valid()
      reads this
    {
      HandleOk(h) && |removed| == |h.names|
    }

    /** Remove the created directories below the first `keep`, from the leaf up. */
    method RemoveCreatedSuffix(fs: MediaFs, keep: nat) returns (reason: Option<string>)
      requires Valid()
      modifies this, fs
      ensures Valid() && fs.t == Prune(old(fs.t), h, old(removed), |h.names|, keep)
      ensures forall i :: 0 <= i < |h.names| && old(removed)[i] ==> removed[i]
      ensures forall i :: 0 <= i < |h.names| && removed[i] && !old(removed)[i] ==>
                keep <= i && h.created[i] && (h.inos[i], h.names[i]) !in fs.t.entries
      ensures reason.None? ==> forall i :: keep <= i < |h.names| ==>
                removed[i] || exists j :: i <= j < |h.names| && !h.created[j] && !old(removed)[j]
    {
      var k := |h.names|;
      while k > keep
        invariant 0 <= k <= |h.names| && Valid()
        invariant removed[..k] == old(removed)[..k] && forall i :: k <= i < |h.names| ==> removed[i]
        invariant forall i :: k <= i < |h.names| && !old(removed)[i] ==>
                    keep <= i && h.created[i] && (h.inos[i], h.names[i]) !in fs.t.entries
        invariant Prune(fs.t, h, old(removed), k, keep) == Prune(old(fs.t), h, old(removed), |h.names|, keep)
      {
        var i := k - 1;
        var e, n := (h.inos[i], h.names[i]), h.inos[k];
        assert removed[i] == removed[..k][i] == old(removed)[i];
        if removed[i] {
          k := i;
          continue;
        }
        if !h.created[i] {
          return None;
        }
        if e !in fs.t.entries {
          removed := removed[i := true];
          k := i;
          continue;
        }
        if fs.t.entries[e] != n || n !in fs.t.dirs {
          return Some("IdentityMismatch");
        }
        if !IsEmpty(fs.t, n) {
          return Some("DirectoryNotEmpty");
        }
        fs.t := WithoutEntry(fs.t, e);
        removed := removed[i := true];
        k := i;
      }
      return None;
    }
  }

  class PublishedAsset {
    const files: seq<Published>
    const directories: seq<MediaDirectory>
    var released: bool

    constructor (files: seq<Published>, directories: seq<MediaDirectory>)
      ensures this.files == files && this.directories == directories && !released
    {
      this.files, this.directories, released := files, directories, false;
    }

    ghost predicate Valid()
      reads this, directories
    {
      && |directories| <= 2 && (forall i :: 0 <= i < |directories| ==> directories[i].Valid())
      && (|directories| == 2 ==> directories[0] != directories[1])
    }

    /** As publishing hands it over. */
    ghost predicate Open()
      reads this, directories
    {
      && Valid() && !released && |directories| == 2
      && (forall k :: 0 <= k < 2 ==> |directories[k].h.names| == 2 && directories[k].removed == Fresh(2))
    }

    /** Take back what this run created; once released, do nothing. */
    method Compensate(fs: MediaFs)
      requires Valid()
      modifies this, fs, directories
      ensures released
      ensures fs.t == if old(released) then old(fs.t) else
                        var undone := UndoFiles(old(fs.t), files);
                        if |directories| == 0 then undone
                        else if |directories| == 1 then PruneDir(undone, directories[0].h, old(directories[0].removed))
                        else PruneDir(PruneDir(undone, directories[1].h, old(directories[1].removed)),
                                      directories[0].h, old(directories[0].removed))
    {
      if released {
        return;
      }
      var i := |files|;
      assert files[..i] == files;
      while i > 0
        invariant 0 <= i <= |files| && UndoFiles(fs.t, files[..i]) == UndoFiles(old(fs.t), files)
        modifies fs
      {
        i := i - 1;
        assert files[..i + 1][..i] == files[..i];
        var f := files[i];
        if f.created {
          fs.UnlinkIfCurrent(f);
        }
      }
      if |directories| == 2 {
        var _ := directories[1].RemoveCreatedSuffix(fs, 1);
        var _ := directories[0].RemoveCreatedSuffix(fs, 1);
      } else if |directories| == 1 {
        var _ := directories[0].RemoveCreatedSuffix(fs, 1);
      }
      released := true;
    }
  }

  /** The fault strikes before one component of top/leaf is known. */
  predicate Hits(t: Tree, d: Ino, name: Name, top: Name, i: nat, fault: Fault) {
    (d, name) !in t.entries && (fault == BeforeMkdir(top, i) || fault == AfterMkdir(top, i))
  }

  /** The fault strikes while top/leaf is opened. */
  predicate Strikes(t: Tree, root: Ino, top: Name, leaf: Name, fault: Fault) {
    || Hits(t, root, top, top, 0, fault) || fault == AfterOpen(top, 0)
    || Hits(Step(t, root, top).0, Step(t, root, top).1, leaf, top, 1, fault) || fault == AfterOpen(top, 1)
  }

  /** How far down the first `n` components of top/leaf lead, and that nothing stops them. */
  function Down(t: Tree, root: Ino, top: Name, leaf: Name, n: nat): (Tree, Ino) {
    if n == 0 then (t, root) else if n == 1 then Step(t, root, top) else Opened(t, root, top, leaf)
  }

  predicate GotDown(t: Tree, root: Ino, top: Name, leaf: Name, fault: Fault, n: nat) {
    && (n >= 1 ==> CanStep(t, root, top) && !Hits(t, root, top, top, 0, fault) && fault != AfterOpen(top, 0))
    && (n >= 2 ==> CanOpen(t, root, top, leaf) && !Strikes(t, root, top, leaf, fault))
  }

  lemma IsDown(t: Tree, root: Ino, h: Handle, top: Name, leaf: Name)
    requires HandleOk(h) && |h.names| <= 2 && h.names == [top, leaf][..|h.names|] && h.inos[0] == root
    requires OpenedWell(t, h, |h.names|)
    ensures (AddDirs(t, h, |h.names|), Leaf(h)) == Down(t, root, top, leaf, |h.names|)
  {
    assert AddDirs(t, h, 0) == t;
    if |h.names| == 2 {
      assert OpenedWell(t, h, 1);
    }
  }

  /** The leaf directory was missing and is made, but its stat fails, so no handle records it. */
  predicate LosesLeaf(t: Tree, root: Ino, top: Name, leaf: Name, fault: Fault) {
    && fault == AfterMkdir(top, 1) && CanStep(t, root, top)
    && (Step(t, root, top).1, leaf) !in Step(t, root, top).0.entries
  }

  /** Publishing loses a directory: in the first of its two openings, or in the second once the first has succeeded. */
  predicate Loses(t: Tree, root: Ino, uuid: Name, fault: Fault) {
    || LosesLeaf(t, root, ORIGINALS, uuid, fault)
    || (CanOpen(t, root, ORIGINALS, uuid) && LosesLeaf(Opened(t, root, ORIGINALS, uuid).0, root, DERIVATIVES, uuid, fault))
  }

  /** Both directories can be opened and the fault lets them be. */
  predicate BothOpen(t: Tree, root: Ino, uuid: Name, fault: Fault) {
    && CanOpen(t, root, ORIGINALS, uuid) && !Strikes(t, root, ORIGINALS, uuid, fault)
    && var t1 := Opened(t, root, ORIGINALS, uuid).0;
       CanOpen(t1, root, DERIVATIVES, uuid) && !Strikes(t1, root, DERIVATIVES, uuid, fault)
  }

  /** Where a file is to go. */
  function Target(p: Prepared, o: Ino, d: Ino): (Ino, Name) {
    (if p.original then o else d, p.name)
  }

  predicate SameDigest(sha: Bytes -> Digest, t: Tree, m: Ino, n: Ino) {
    m in t.content && n in t.content && sha(t.content[m]) == sha(t.content[n])
  }

  /** Whatever is under a file's name, found there or published before it, has its digest. */
  predicate FitsOne(sha: Bytes -> Digest, t: Tree, prepared: seq<Prepared>, o: Ino, d: Ino, i: nat)
    requires i < |prepared|
  {
    var e := Target(prepared[i], o, d);
    && (e in t.entries ==> SameDigest(sha, t, t.entries[e], prepared[i].ino))
    && (forall j :: 0 <= j < i && Target(prepared[j], o, d) == e ==> SameDigest(sha, t, prepared[j].ino, prepared[i].ino))
  }

  predicate Fits(sha: Bytes -> Digest, t: Tree, prepared: seq<Prepared>, o: Ino, d: Ino, n: nat)
    requires n <= |prepared|
  {
    forall i :: 0 <= i < n ==> FitsOne(sha, t, prepared, o, d, i)
  }

  lemma FitsMore(sha: Bytes -> Digest, t: Tree, prepared: seq<Prepared>, o: Ino, d: Ino, n: nat)
    requires n < |prepared|
    ensures Fits(sha, t, prepared, o, d, n + 1) <==> Fits(sha, t, prepared, o, d, n) && FitsOne(sha, t, prepared, o, d, n)
    ensures !FitsOne(sha, t, prepared, o, d, n) ==> !Fits(sha, t, prepared, o, d, |prepared|)
  {
  }

  predicate StrikesAt(fault: Fault, i: nat) {
    fault == BeforeFile(i) || fault == AfterLink(i) || fault == AfterFile(i)
  }

  /** The fault strikes at one of the first `n` files. */
  predicate StrikesFile(fault: Fault, n: nat) {
    (fault.BeforeFile? || fault.AfterLink? || fault.AfterFile?) && fault.file < n
  }

  /** When publishing succeeds. */
  predicate Succeeds(sha: Bytes -> Digest, t: Tree, root: Ino, prepared: seq<Prepared>, uuid: Name, fault: Fault) {
    && BothOpen(t, root, uuid, fault) && !StrikesFile(fault, |prepared|) && fault != AtVerify
    && var t1 := Opened(t, root, ORIGINALS, uuid);
       var t2 := Opened(t1.0, root, DERIVATIVES, uuid);
       Fits(sha, t2.0, prepared, t1.1, t2.1, |prepared|)
  }

  function Longer(h: Handle, name: Name, n: Ino, made: bool): Handle {
    Handle(h.inos + [n], h.names + [name], h.created + [made])
  }

  /** How far an opening has come. */
  ghost predicate Opening(root: Ino, t0: Tree, t: Tree, h: Handle, names: seq<Name>, leaked: bool) {
    && HandleOk(h) && |h.names| <= |names| && h.names == names[..|h.names|] && h.inos[0] == root
    && OpenedWell(t0, h, |h.names|) && (leaked ==> |h.names| < |names|) && t == LeftBehind(t0, h, names, leaked)
  }

  lemma NothingOpened(root: Ino, t: Tree, names: seq<Name>)
    ensures Opening(root, t, t, Handle([root], [], []), names, false)
  {
  }

  lemma ComponentOpened(root: Ino, t0: Tree, t: Tree, t': Tree, h: Handle, names: seq<Name>, n: Ino, made: bool)
    requires HandleOk(h) && |h.names| < |names| && Opening(root, t0, t, h, names, false)
    requires |h.names| == 0 ==> root in t0.dirs
    requires |h.names| > 0 ==> TreeOk(t0)
    requires var e := (Leaf(h), names[|h.names|]);
             if e in t.entries then t' == t && !made && n == t.entries[e] && n in t.dirs
             else t' == Mkdir(t, e) && made && n == t.next
    ensures Opening(root, t0, t', Longer(h, names[|h.names|], n, made), names, false)
  {
    var k := |h.names|;
    var h' := Longer(h, names[k], n, made);
    SamePrefix(t0, h, h', k);
    assert Leaf(h) in t.dirs by { if k > 0 { AddDirsKeeps(t0, h, k); } }
    OneMoreWell(t0, t, h', k);
    assert h'.names == names[..k + 1] && h'.inos[0] == h.inos[0];
  }

  lemma OneMoreWell(t0: Tree, t: Tree, h: Handle, k: nat)
    requires HandleOk(h) && |h.names| == k + 1 && OpenedWell(t0, h, k) && t == AddDirs(t0, h, k)
    requires var e := (h.inos[k], h.names[k]);
             if h.created[k] then e !in t.entries && e.0 in t.dirs && h.inos[k + 1] == t.next
             else e in t.entries && t.entries[e] == h.inos[k + 1] && h.inos[k + 1] in t.dirs
    ensures OpenedWell(t0, h, k + 1)
    ensures AddDirs(t0, h, k + 1) == if h.created[k] then Mkdir(t, (h.inos[k], h.names[k])) else t
  {
  }

  lemma {:induction false} SamePrefix(t: Tree, h: Handle, h': Handle, n: nat)
    requires HandleOk(h) && HandleOk(h') && n <= |h.names| <= |h'.names|
    requires h.inos <= h'.inos && h.names <= h'.names && h.created <= h'.created
    ensures AddDirs(t, h', n) == AddDirs(t, h, n) && OpenedWell(t, h', n) == OpenedWell(t, h, n)
  {
    if n > 0 { SamePrefix(t, h, h', n - 1); }
  }

  class MediaFs {
    const sha: Bytes -> Digest
    const root: Ino
    var t: Tree

    constructor (sha: Bytes -> Digest, root: Ino, t: Tree)
      ensures this.sha == sha && this.root == root && this.t == t
    {
      this.sha, this.root, this.t := sha, root, t;
    }

    /** At most this one name goes, and only while it leads to the very file that was published under it. */
    method UnlinkIfCurrent(f: Published)
      requires f.created
      modifies this
      ensures t.(entries := old(t).entries) == old(t)
      ensures forall e :: e in t.entries ==> e in old(t).entries && t.entries[e] == old(t).entries[e]
      ensures forall e :: e in old(t).entries && e !in t.entries ==>
                e == (f.dir, f.name) && old(t).entries[e] == f.ino && f.ino in t.content
      ensures (f.dir, f.name) in t.entries && t.entries[(f.dir, f.name)] == f.ino ==> f.ino !in t.content
      ensures t == UndoFile(old(t), f)
    {
      var e := (f.dir, f.name);
      if e in t.entries && t.entries[e] == f.ino && f.ino in t.content {
        t := WithoutEntry(t, e);
      }
    }

    /** One component, found or made; its inode is known unless its stat failed. */
    method OpenComponent(parent: Ino, name: Name, top: Name, i: nat, fault: Fault)
      returns (error: Option<string>, ino: Option<Ino>, made: bool)
      modifies this
      ensures ino.Some? ==>
                if (parent, name) in old(t).entries
                then t == old(t) && !made && ino.value == t.entries[(parent, name)] && ino.value in t.dirs
                else t == Mkdir(old(t), (parent, name)) && made && ino.value == old(t).next
      ensures made <==> (parent, name) in t.entries && (parent, name) !in old(t).entries
      ensures ino.Some? <==> CanStep(old(t), parent, name) && !Hits(old(t), parent, name, top, i, fault)
      ensures ino.Some? ==> (t, ino.value) == Step(old(t), parent, name) && (error.Some? <==> fault == AfterOpen(top, i))
      ensures ino.None? ==>
                && error.Some?
                && t == if fault == AfterMkdir(top, i) && (parent, name) !in old(t).entries
                        then Mkdir(old(t), (parent, name)) else old(t)
    {
      var e := (parent, name);
      made := false;
      if e !in t.entries {
        if fault == BeforeMkdir(top, i) {
          return Some(FAILED), None, false;
        }
        t := Mkdir(t, e);
        made := true;
        if fault == AfterMkdir(top, i) {
          return Some(FAILED), None, true;
        }
      }
      if t.entries[e] !in t.dirs {
        return Some(UNSAFE), None, made;
      }
      ino := Some(t.entries[e]);
      error := if fault == AfterOpen(top, i) then Some(FAILED) else None;
    }

    /** Open top/leaf below the root, making what is missing; on failure remove what was made. */
    method OpenOrCreate(top: Name, leaf: Name, fault: Fault) returns (r: Result<MediaDirectory, string>, ghost h: Handle)
      requires TreeOk(t) && root in t.dirs && top != leaf
      modifies this
      ensures HandleOk(h) && |h.names| <= 2 && h.names == [top, leaf][..|h.names|] && h.inos[0] == root
      ensures OpenedWell(old(t), h, |h.names|)
      ensures r.Ok? <==> CanOpen(old(t), root, top, leaf) && !Strikes(old(t), root, top, leaf, fault)
      ensures r.Ok? ==>
                && fresh(r.value) && r.value.h == h && |h.names| == 2 && r.value.removed == Fresh(2)
                && t == AddDirs(old(t), h, 2) && (t, Leaf(h)) == Opened(old(t), root, top, leaf)
      ensures r.Err? ==>
                && (Restored(old(t), t, {(root, top)}) <==> !LosesLeaf(old(t), root, top, leaf, fault))
                && old(t).dirs <= t.dirs
      ensures LosesLeaf(old(t), root, top, leaf, fault) ==>
                && r.Err? && |h.names| == 1 && (h.inos[1], leaf) in t.entries
                && (h.inos[1], leaf) !in AddDirs(old(t), h, 1).entries
    {
      var handle, error;
      ghost var leaked;
      handle, error, leaked := OpenComponents(top, leaf, fault);
      h := handle;
      var directory := new MediaDirectory(handle);
      if error.None? {
        return Ok(directory), h;
      }
      GivingUp(old(t), handle, top, leaf, leaked);
      var _ := directory.RemoveCreatedSuffix(this, 1);
      return Err(error.value), h;
    }

    /** Component after component; stops at the first that fails. */
    method OpenComponents(top: Name, leaf: Name, fault: Fault)
      returns (handle: Handle, error: Option<string>, ghost leaked: bool)
      requires TreeOk(t) && root in t.dirs
      modifies this
      ensures HandleOk(handle) && (error.None? ==> |handle.names| == 2 && !leaked)
      ensures Opening(root, old(t), t, handle, [top, leaf], leaked)
      ensures error.None? <==> CanOpen(old(t), root, top, leaf) && !Strikes(old(t), root, top, leaf, fault)
      ensures error.None? ==> (t, Leaf(handle)) == Opened(old(t), root, top, leaf)
      ensures leaked && |handle.names| == 1 <==> LosesLeaf(old(t), root, top, leaf, fault)
      ensures leaked ==> (Leaf(handle), [top, leaf][|handle.names|]) !in AddDirs(old(t), handle, |handle.names|).entries
    {
      hide OpenedWell, Mkdir, TreeOk;
      handle, error, leaked := Handle([root], [], []), None, false;
      NothingOpened(root, t, [top, leaf]);
      var i := 0;
      while i < 2
        invariant 0 <= i <= 2 && HandleOk(handle) && |handle.names| == i && error.None? && !leaked
        invariant Opening(root, old(t), t, handle, [top, leaf], false)
        invariant GotDown(old(t), root, top, leaf, fault, i)
      {
        var ino, made;
        ghost var before := t;
        IsDown(old(t), root, handle, top, leaf);
        error, ino, made := OpenComponent(handle.inos[i], [top, leaf][i], top, i, fault);
        if ino.None? {
          leaked := fault == AfterMkdir(top, i) && (Leaf(handle), [top, leaf][i]) !in before.entries;
          return;
        }
        ComponentOpened(root, old(t), before, t, handle, [top, leaf], ino.value, made);
        handle := Longer(handle, [top, leaf][i], ino.value, made);
        i := i + 1;
        if error.Some? {
          return;
        }
      }
      IsDown(old(t), root, handle, top, leaf);
    }

    /**
     Publish an asset's files, or leave the namespace as it was: then nothing is
     lost, no name leads elsewhere, and nothing new stays but the two top
     directories, unless the stat of a just-made uuid directory failed.
     */
    method Publish(prepared: seq<Prepared>, uuid: Name, fault: Fault) returns (r: Result<PublishedAsset, string>)
      requires TreeOk(t) && root in t.dirs && uuid != ORIGINALS && uuid != DERIVATIVES
      requires forall p :: p in prepared ==> p.ino in t.content
      modifies this
      ensures r.Ok? <==> Succeeds(sha, old(t), root, prepared, uuid, fault)
      ensures r.Ok? ==>
                && fresh(r.value) && fresh(r.value.directories) && r.value.Open()
                && PublishedWell(sha, root, old(t), t, prepared, r.value.files, r.value.directories[0].h, r.value.directories[1].h)
      ensures r.Err? ==> (Restored(old(t), t, Tops(root)) <==> !Loses(old(t), root, uuid, fault))
      ensures Loses(old(t), root, uuid, fault) ==> r.Err?
    {
      var both := OpenBoth(uuid, fault);
      if both.Err? {
        return Err(both.error);
      }
      r := PublishInto(old(t), prepared, both.value.0, both.value.1, uuid, fault);
    }

    method PublishInto(ghost t0: Tree, prepared: seq<Prepared>, o: MediaDirectory, d: MediaDirectory, uuid: Name, fault: Fault)
      returns (r: Result<PublishedAsset, string>)
      requires o != d && o.removed == Fresh(2) == d.removed && root in t0.dirs && uuid != DERIVATIVES
      requires OpenedBoth(root, t0, t, o.h, d.h, uuid) && forall p :: p in prepared ==> p.ino in t0.content
      modifies this, o, d
      ensures r.Ok? <==> !StrikesFile(fault, |prepared|) && fault != AtVerify
                         && Fits(sha, old(t), prepared, Leaf(o.h), Leaf(d.h), |prepared|)
      ensures r.Ok? ==>
                && fresh(r.value) && r.value.directories == [o, d] && r.value.Open()
                && PublishedWell(sha, root, t0, t, prepared, r.value.files, o.h, d.h)
      ensures r.Err? ==> Restored(t0, t, Tops(root))
    {
      OpenedLeaves(root, t0, t, o.h, d.h, uuid);
      var files, error := PublishFiles(prepared, Leaf(o.h), Leaf(d.h), fault);
      TakingBack(sha, root, t0, old(t), t, prepared, files, o.h, d.h, uuid);
      r := HandOver(files, o, d, if error.None? && fault == AtVerify then Some(FAILED) else error);
    }

    /** The asset as published or, after a failure, compensation. */
    method HandOver(files: seq<Published>, o: MediaDirectory, d: MediaDirectory, error: Option<string>)
      returns (r: Result<PublishedAsset, string>)
      requires o != d && HandleOk(o.h) && HandleOk(d.h) && |o.h.names| == 2 && |d.h.names| == 2
      requires o.removed == Fresh(2) == d.removed
      modifies this, o, d
      ensures r.Ok? <==> error.None?
      ensures r.Ok? ==>
                && fresh(r.value) && r.value.directories == [o, d] && r.value.files == files && r.value.Open()
                && t == old(t)
      ensures r.Err? ==> t == Undone(old(t), files, o.h, d.h)
    {
      var asset := new PublishedAsset(files, [o, d]);
      if error.Some? {
        asset.Compensate(this);
        return Err(error.value);
      }
      return Ok(asset);
    }

    /** Open originals/uuid and derivatives/uuid, or give both up. */
    method OpenBoth(uuid: Name, fault: Fault) returns (r: Result<(MediaDirectory, MediaDirectory), string>)
      requires TreeOk(t) && root in t.dirs && uuid != ORIGINALS && uuid != DERIVATIVES
      modifies this
      ensures r.Ok? <==> BothOpen(old(t), root, uuid, fault)
      ensures r.Ok? ==>
                && fresh(r.value.0) && fresh(r.value.1) && r.value.0 != r.value.1
                && r.value.0.removed == Fresh(2) == r.value.1.removed
                && OpenedBoth(root, old(t), t, r.value.0.h, r.value.1.h, uuid)
                && Leaf(r.value.0.h) == Opened(old(t), root, ORIGINALS, uuid).1
                && (t, Leaf(r.value.1.h)) == Opened(Opened(old(t), root, ORIGINALS, uuid).0, root, DERIVATIVES, uuid)
      ensures r.Err? ==> (Restored(old(t), t, Tops(root)) <==> !Loses(old(t), root, uuid, fault))
      ensures Loses(old(t), root, uuid, fault) ==> r.Err?
    {
      var first, h1 := OpenOrCreate(ORIGINALS, uuid, fault);
      if first.Err? {
        MoreTops(old(t), t, root, h1, uuid, LosesLeaf(old(t), root, ORIGINALS, uuid, fault));
        return Err(first.error);
      }
      var second := OpenSecond(old(t), first.value, uuid, fault);
      if second.Err? {
        return Err(second.error);
      }
      return Ok((first.value, second.value));
    }

    /** Open derivatives/uuid after originals/uuid, or give that one up. */
    method OpenSecond(ghost t0: Tree, o: MediaDirectory, uuid: Name, fault: Fault) returns (r: Result<MediaDirectory, string>)
      requires TreeOk(t0) && root in t0.dirs && uuid != ORIGINALS && uuid != DERIVATIVES
      requires HandleOk(o.h) && o.h.names == [ORIGINALS, uuid] && o.h.inos[0] == root && o.removed == Fresh(2)
      requires OpenedWell(t0, o.h, 2) && t == AddDirs(t0, o.h, 2)
      modifies this, o
      ensures r.Ok? <==> CanOpen(old(t), root, DERIVATIVES, uuid) && !Strikes(old(t), root, DERIVATIVES, uuid, fault)
      ensures r.Ok? ==>
                && fresh(r.value) && o.removed == Fresh(2) == r.value.removed
                && OpenedBoth(root, t0, t, o.h, r.value.h, uuid)
                && (t, Leaf(r.value.h)) == Opened(old(t), root, DERIVATIVES, uuid)
      ensures r.Err? ==> (Restored(t0, t, Tops(root)) <==> !LosesLeaf(old(t), root, DERIVATIVES, uuid, fault))
      ensures LosesLeaf(old(t), root, DERIVATIVES, uuid, fault) ==> r.Err?
    {
      AddDirsKeeps(t0, o.h, 2);
      ghost var h;
      r, h := OpenOrCreate(DERIVATIVES, uuid, fault);
      if r.Err? {
        SecondFailed(root, t0, o.h, t, h, uuid, LosesLeaf(old(t), root, DERIVATIVES, uuid, fault));
        GiveUp(o);
      }
    }

    /** Compensation when nothing was published yet. */
    method GiveUp(o: MediaDirectory)
      requires HandleOk(o.h) && |o.h.names| == 2 && o.removed == Fresh(2)
      modifies this, o
      ensures t == PruneDir(old(t), o.h, Fresh(2))
    {
      var partial := new PublishedAsset([], [o]);
      partial.Compensate(this);
    }

    /** Link one staged file under a free name, or accept a file of the same digest that is there. */
    method PublishFile(p: Prepared, dir: Ino, fault: bool) returns (f: Option<Published>, error: Option<string>)
      requires p.ino in t.content
      modifies this
      ensures error.None? ==> f.Some?
      ensures f.None? ==> t == old(t)
      ensures error.None? <==> !fault && ((dir, p.name) in old(t).entries ==>
                                            SameDigest(sha, old(t), old(t).entries[(dir, p.name)], p.ino))
      ensures f.Some? ==>
                && f.value.dir == dir && f.value.name == p.name
                && (if f.value.created
                    then (dir, p.name) !in old(t).entries && f.value.ino == p.ino && t == WithEntry(old(t), (dir, p.name), p.ino)
                    else t == old(t) && (dir, p.name) in t.entries && t.entries[(dir, p.name)] == f.value.ino
                         && f.value.ino in t.content && sha(t.content[f.value.ino]) == sha(t.content[p.ino]))
      ensures (dir, p.name) in old(t).entries
              && (old(t).entries[(dir, p.name)] !in t.content
                  || sha(t.content[old(t).entries[(dir, p.name)]]) != sha(t.content[p.ino])) ==>
                f.None? && error == Some(CONFLICT)
      ensures (dir, p.name) in old(t).entries && old(t).entries[(dir, p.name)] in t.content
              && sha(t.content[old(t).entries[(dir, p.name)]]) == sha(t.content[p.ino]) ==>
                && t == old(t) && f == Some(Published(dir, p.name, old(t).entries[(dir, p.name)], false))
                && (error.None? <==> !fault)
      ensures (dir, p.name) !in old(t).entries ==>
                && f == Some(Published(dir, p.name, p.ino, true)) && (error.None? <==> !fault)
                && t.entries == old(t).entries[(dir, p.name) := p.ino]
    {
      var e := (dir, p.name);
      if e in t.entries {
        var there := t.entries[e];
        if there !in t.content || sha(t.content[there]) != sha(t.content[p.ino]) {
          return None, Some(CONFLICT);
        }
        f := Some(Published(dir, p.name, there, false));
      } else {
        t := WithEntry(t, e, p.ino);
        f := Some(Published(dir, p.name, p.ino, true));
      }
      error := if fault then Some(FAILED) else None;
    }

    /** All files in order, until one fails; what was linked is recorded even then. */
    method PublishFiles(prepared: seq<Prepared>, o: Ino, d: Ino, fault: Fault)
      returns (files: seq<Published>, error: Option<string>)
      requires o in t.dirs && d in t.dirs && forall p :: p in prepared ==> p.ino in t.content
      modifies this
      ensures FreeWhenMade(old(t), files) && t == AddFiles(old(t), files)
      ensures |files| <= |prepared| && (error.None? ==> |files| == |prepared|)
      ensures AllPlaced(sha, old(t), t, prepared, files, o, d)
      ensures error.None? <==> !StrikesFile(fault, |prepared|) && Fits(sha, old(t), prepared, o, d, |prepared|)
    {
      files, error := [], None;
      AddFilesKeeps(t, []);
      for i := 0 to |prepared|
        invariant |files| == i && error.None? && !StrikesFile(fault, i) && Fits(sha, old(t), prepared, o, d, i)
        invariant FreeWhenMade(old(t), files) && t == AddFiles(old(t), files) && AllPlaced(sha, old(t), t, prepared, files, o, d)
      {
        FitsNext(sha, old(t), t, prepared, files, o, d);
        files, error := PublishNext(old(t), prepared, files, o, d, fault);
        FitsMore(sha, old(t), prepared, o, d, i);
        if error.Some? {
          return;
        }
      }
    }

    method PublishNext(ghost t0: Tree, prepared: seq<Prepared>, files: seq<Published>, o: Ino, d: Ino, fault: Fault)
      returns (more: seq<Published>, error: Option<string>)
      requires o in t0.dirs && d in t0.dirs && |files| < |prepared| && forall p :: p in prepared ==> p.ino in t0.content
      requires FreeWhenMade(t0, files) && t == AddFiles(t0, files) && AllPlaced(sha, t0, t, prepared, files, o, d)
      modifies this
      ensures FreeWhenMade(t0, more) && t == AddFiles(t0, more) && AllPlaced(sha, t0, t, prepared, more, o, d)
      ensures |more| <= |files| + 1 && (error.None? ==> |more| == |files| + 1)
      ensures var e := Target(prepared[|files|], o, d);
              error.None? <==> !StrikesAt(fault, |files|)
                               && (e in old(t).entries ==> SameDigest(sha, old(t), old(t).entries[e], prepared[|files|].ino))
    {
      var i := |files|;
      if fault == BeforeFile(i) {
        return files, Some(FAILED);
      }
      ghost var before := t;
      assert t.content == t0.content by { AddFilesKeeps(t0, files); }
      var f;
      f, error := PublishFile(prepared[i], if prepared[i].original then o else d, fault == AfterLink(i));
      if f.None? {
        return files, error;
      }
      PlaceOne(sha, t0, before, t, prepared, files, o, d, f.value);
      more := files + [f.value];
      if error.None? && fault == AfterFile(i) {
        error := Some(FAILED);
      }
    }
  }

  /** The two directories of an asset, which compensation may leave behind. */
  function Tops(root: Ino): set<(Ino, Name)> {
    {(root, ORIGINALS), (root, DERIVATIVES)}
  }

  ghost predicate OpenedBoth(root: Ino, t0: Tree, t: Tree, o: Handle, d: Handle, uuid: Name) {
    && HandleOk(o) && HandleOk(d) && o.names == [ORIGINALS, uuid] && d.names == [DERIVATIVES, uuid]
    && o.inos[0] == root == d.inos[0]
    && TreeOk(t0) && OpenedWell(t0, o, 2) && OpenedWell(AddDirs(t0, o, 2), d, 2)
    && t == AddDirs(AddDirs(t0, o, 2), d, 2)
  }

  lemma OpenedLeaves(root: Ino, t0: Tree, t: Tree, o: Handle, d: Handle, uuid: Name)
    requires OpenedBoth(root, t0, t, o, d, uuid)
    ensures TreeOk(t) && Leaf(o) in t.dirs && Leaf(d) in t.dirs && t.content == t0.content
    ensures forall e :: e in t0.entries ==> e in t.entries && t.entries[e] == t0.entries[e]
  {
    AddDirsKeeps(t0, o, 2);
    AddDirsKeeps(AddDirs(t0, o, 2), d, 2);
  }

  /** A failed first opening, measured against both tops. */
  lemma MoreTops(t0: Tree, t: Tree, root: Ino, h: Handle, uuid: Name, leaked: bool)
    requires HandleOk(h) && uuid != DERIVATIVES && uuid != ORIGINALS
    requires Restored(t0, t, {(root, ORIGINALS)}) <==> !leaked
    requires leaked ==> |h.names| == 1 && (h.inos[1], uuid) in t.entries && (h.inos[1], uuid) !in t0.entries
    ensures Restored(t0, t, Tops(root)) <==> !leaked
  {
  }

  /** The second opening failed: the first directory is given up too. */
  lemma SecondFailed(root: Ino, t0: Tree, o: Handle, w: Tree, h: Handle, uuid: Name, leaked: bool)
    requires TreeOk(t0) && root in t0.dirs && uuid != DERIVATIVES && uuid != ORIGINALS && HandleOk(h)
    requires HandleOk(o) && o.names == [ORIGINALS, uuid] && o.inos[0] == root && OpenedWell(t0, o, 2)
    requires AddDirs(t0, o, 2).dirs <= w.dirs
    requires Restored(AddDirs(t0, o, 2), w, {(root, DERIVATIVES)}) <==> !leaked
    requires leaked ==> |h.names| == 1 && (h.inos[1], uuid) in w.entries && (h.inos[1], uuid) !in AddDirs(t0, o, 2).entries
    ensures Restored(t0, PruneDir(w, o, Fresh(2)), Tops(root)) <==> !leaked
  {
    AddDirsKeeps(t0, o, 2);
    if leaked {
      PruneTwo(w, o);
      OpenedTwo(t0, o);
      assert (h.inos[1], uuid) in PruneDir(w, o, Fresh(2)).entries;
    } else {
      FirstGoesAfterRestored(t0, o, w, (root, DERIVATIVES));
    }
  }

  /** Whatever was published, taking it back restores the namespace; all of it is well published. */
  lemma TakingBack(sha: Bytes -> Digest, root: Ino, t0: Tree, base: Tree, t: Tree, prepared: seq<Prepared>,
                   files: seq<Published>, o: Handle, d: Handle, uuid: Name)
    requires OpenedBoth(root, t0, base, o, d, uuid) && uuid != DERIVATIVES
    requires root in t0.dirs && FreeWhenMade(base, files) && t == AddFiles(base, files)
    requires AllPlaced(sha, base, t, prepared, files, Leaf(o), Leaf(d))
    ensures Restored(t0, Undone(t, files, o, d), Tops(root))
    ensures |files| == |prepared| ==> PublishedWell(sha, root, t0, t, prepared, files, o, d)
  {
    OpenedLeaves(root, t0, base, o, d, uuid);
    BothGo(t0, o, d);
    UndoIsExact(base, files);
    AddFilesKeeps(base, files);
  }

  /** Everything in place, nothing replaced, and compensation would put everything back. */
  ghost predicate PublishedWell(sha: Bytes -> Digest, root: Ino, t0: Tree, t: Tree, prepared: seq<Prepared>,
                                files: seq<Published>, o: Handle, d: Handle)
    requires HandleOk(o) && HandleOk(d)
  {
    && |files| == |prepared| && AllPlaced(sha, t0, t, prepared, files, Leaf(o), Leaf(d))
    && (forall e :: e in t0.entries ==> e in t.entries && t.entries[e] == t0.entries[e])
    && t.content == t0.content
    && Restored(t0, Undone(t, files, o, d), Tops(root))
  }

  /** The name leads to a file of the right digest: this run's own if it was created, else one that was there. */
  predicate Placed(sha: Bytes -> Digest, before: Tree, after: Tree, p: Prepared, f: Published, dir: Ino) {
    && f.dir == dir && f.name == p.name
    && (dir, p.name) in after.entries && after.entries[(dir, p.name)] == f.ino
    && f.ino in after.content && p.ino in after.content && sha(after.content[f.ino]) == sha(after.content[p.ino])
    && (f.created ==> (dir, p.name) !in before.entries && f.ino == p.ino)
  }

  predicate AllPlaced(sha: Bytes -> Digest, before: Tree, after: Tree, prepared: seq<Prepared>, files: seq<Published>,
                      o: Ino, d: Ino)
  {
    |files| <= |prepared| &&
    forall i :: 0 <= i < |files| ==>
      Placed(sha, before, after, prepared[i], files[i], if prepared[i].original then o else d)
  }

  /** With the first files in place, the next one meets its own digest or a free name exactly if it fits. */
  lemma FitsNext(sha: Bytes -> Digest, t0: Tree, t: Tree, prepared: seq<Prepared>, files: seq<Published>, o: Ino, d: Ino)
    requires |files| < |prepared| && prepared[|files|].ino in t0.content
    requires FreeWhenMade(t0, files) && t == AddFiles(t0, files) && AllPlaced(sha, t0, t, prepared, files, o, d)
    ensures var e := Target(prepared[|files|], o, d);
            FitsOne(sha, t0, prepared, o, d, |files|)
            <==> (e in t.entries ==> SameDigest(sha, t, t.entries[e], prepared[|files|].ino))
  {
    var i := |files|;
    var e := Target(prepared[i], o, d);
    AddFilesKeeps(t0, files);
    assert forall j :: 0 <= j < i ==> Placed(sha, t0, t, prepared[j], files[j], if prepared[j].original then o else d);
    assert forall j :: 0 <= j < i && Target(prepared[j], o, d) == e ==>
        e in t.entries && SameDigest(sha, t, t.entries[e], prepared[j].ino);
    if e in t.entries && e !in t0.entries {
      AddFilesOnly(t0, files, e);
      var j :| 0 <= j < i && (files[j].dir, files[j].name) == e;
      assert Target(prepared[j], o, d) == e;
    }
  }

  /** What publishing one more file does to the record. */
  lemma PlaceOne(sha: Bytes -> Digest, t0: Tree, t: Tree, after: Tree, prepared: seq<Prepared>, files: seq<Published>,
                 o: Ino, d: Ino, f: Published)
    requires |files| < |prepared| && prepared[|files|].ino in t0.content && o in t0.dirs && d in t0.dirs
    requires FreeWhenMade(t0, files) && t == AddFiles(t0, files) && AllPlaced(sha, t0, t, prepared, files, o, d)
    requires var p := prepared[|files|];
             var dir := if p.original then o else d;
             && f.dir == dir && f.name == p.name
             && (if f.created then (dir, p.name) !in t.entries && f.ino == p.ino && after == WithEntry(t, (dir, p.name), p.ino)
                 else after == t && (dir, p.name) in t.entries && t.entries[(dir, p.name)] == f.ino
                      && f.ino in t.content && p.ino in t.content
                      && sha(t.content[f.ino]) == sha(t.content[p.ino]))
    ensures FreeWhenMade(t0, files + [f]) && after == AddFiles(t0, files + [f]) && after.content == t0.content
    ensures AllPlaced(sha, t0, after, prepared, files + [f], o, d)
  {
    AddFilesKeeps(t0, files);
    assert (files + [f])[..|files|] == files;
    forall i | 0 <= i < |files|
      ensures Placed(sha, t0, after, prepared[i], files[i], if prepared[i].original then o else d)
    {
      assert Placed(sha, t0, t, prepared[i], files[i], if prepared[i].original then o else d);
    }
  }

  // ---------------------------------------------------------------- when a directory is lost

  /** The two top directories are the same one, as two mounts of one directory would be. */
  predicate Aliased(t: Tree, root: Ino) {
    (root, ORIGINALS) in t.entries && (root, DERIVATIVES) in t.entries
    && t.entries[(root, ORIGINALS)] == t.entries[(root, DERIVATIVES)]
  }

  /** `top` is missing, or a directory that has no entry `uuid`. */
  predicate LacksLeaf(t: Tree, root: Ino, top: Name, uuid: Name) {
    (root, top) in t.entries ==> t.entries[(root, top)] in t.dirs && (t.entries[(root, top)], uuid) !in t.entries
  }

  /**
   In plain words: the stat after the mkdir of a uuid directory fails, that
   directory was missing, its parent was missing or is a directory, and for the
   second tree the first could be opened.
   */
  lemma LosesMeans(t: Tree, root: Ino, uuid: Name, fault: Fault)
    requires TreeOk(t) && root in t.dirs && uuid != ORIGINALS && uuid != DERIVATIVES
    ensures Loses(t, root, uuid, fault) <==>
              || (fault == AfterMkdir(ORIGINALS, 1) && LacksLeaf(t, root, ORIGINALS, uuid))
              || (fault == AfterMkdir(DERIVATIVES, 1) && CanOpen(t, root, ORIGINALS, uuid)
                  && LacksLeaf(t, root, DERIVATIVES, uuid) && !Aliased(t, root))
  {
  }

  /** Opening top/leaf where the leaf is missing makes a fresh and empty directory, and maybe its parent. */
  lemma NewLeaf(t: Tree, root: Ino, top: Name, leaf: Name)
    requires TreeOk(t) && root in t.dirs && top != leaf && LacksLeaf(t, root, top, leaf)
    ensures CanOpen(t, root, top, leaf)
    ensures var (after, ino) := Opened(t, root, top, leaf);
            && TreeOk(after) && after.content == t.content && t.dirs <= after.dirs && ino in after.dirs - t.dirs
            && (forall e :: e in after.entries ==> e.0 != ino)
            && (root, top) in after.entries
            && (forall e :: e in after.entries ==>
                  || (e in t.entries && after.entries[e] == t.entries[e])
                  || e == (root, top) || e == (after.entries[(root, top)], leaf))
            && ((root, top) in t.entries ==> after.entries[(root, top)] == t.entries[(root, top)])
            && ((root, top) !in t.entries ==> after.entries[(root, top)] !in t.dirs)
  {
  }

  /** Both directories of a new uuid are fresh and empty. */
  lemma NewLeaves(t: Tree, root: Ino, uuid: Name)
    requires TreeOk(t) && root in t.dirs && uuid != ORIGINALS && uuid != DERIVATIVES
    requires LacksLeaf(t, root, ORIGINALS, uuid) && LacksLeaf(t, root, DERIVATIVES, uuid) && !Aliased(t, root)
    ensures CanOpen(t, root, ORIGINALS, uuid)
    ensures var first := Opened(t, root, ORIGINALS, uuid);
            var second := Opened(first.0, root, DERIVATIVES, uuid);
            && CanOpen(first.0, root, DERIVATIVES, uuid) && second.0.content == t.content && first.1 != second.1
            && forall e :: e in second.0.entries ==> e.0 != first.1 && e.0 != second.1
  {
    hide Opened, CanOpen, Step;
    var first := Opened(t, root, ORIGINALS, uuid);
    NewLeaf(t, root, ORIGINALS, uuid);
    assert LacksLeaf(first.0, root, DERIVATIVES, uuid);
    NewLeaf(first.0, root, DERIVATIVES, uuid);
  }

  lemma FitsTogether(sha: Bytes -> Digest, t: Tree, prepared: seq<Prepared>, o: Ino, d: Ino, i: nat)
    requires i < |prepared| && o != d && (forall e :: e in t.entries ==> e.0 != o && e.0 != d)
    requires forall p :: p in prepared ==> p.ino in t.content
    ensures FitsOne(sha, t, prepared, o, d, i) <==>
              forall j :: 0 <= j < i && prepared[i].original == prepared[j].original && prepared[i].name == prepared[j].name ==>
                sha(t.content[prepared[i].ino]) == sha(t.content[prepared[j].ino])
  {
    assert Target(prepared[i], o, d) !in t.entries && prepared[i] in prepared;
    forall j | 0 <= j < i
      ensures SameDigest(sha, t, prepared[j].ino, prepared[i].ino)
              <==> sha(t.content[prepared[j].ino]) == sha(t.content[prepared[i].ino])
    {
      assert prepared[j] in prepared;
    }
  }

  /** For a new uuid and without a fault, publishing succeeds unless two files of different digests go under one name. */
  lemma NewUuidPublishes(sha: Bytes -> Digest, t: Tree, root: Ino, prepared: seq<Prepared>, uuid: Name)
    requires TreeOk(t) && root in t.dirs && uuid != ORIGINALS && uuid != DERIVATIVES
    requires LacksLeaf(t, root, ORIGINALS, uuid) && LacksLeaf(t, root, DERIVATIVES, uuid) && !Aliased(t, root)
    requires forall p :: p in prepared ==> p.ino in t.content
    ensures Succeeds(sha, t, root, prepared, uuid, NoFault) <==>
              forall i, j :: 0 <= j < i < |prepared| && prepared[i].original == prepared[j].original
                             && prepared[i].name == prepared[j].name ==>
                sha(t.content[prepared[i].ino]) == sha(t.content[prepared[j].ino])
  {
    hide Opened, CanOpen, FitsOne, Step, LacksLeaf;
    var first := Opened(t, root, ORIGINALS, uuid);
    var second := Opened(first.0, root, DERIVATIVES, uuid);
    NewLeaves(t, root, uuid);
    forall i | 0 <= i < |prepared|
      ensures FitsOne(sha, second.0, prepared, first.1, second.1, i) <==>
                forall j :: 0 <= j < i && prepared[i].original == prepared[j].original && prepared[i].name == prepared[j].name ==>
                  sha(t.content[prepared[i].ino]) == sha(t.content[prepared[j].ino])
    {
      FitsTogether(sha, second.0, prepared, first.1, second.1, i);
    }
  }

  /** One of the points in opening `top` and what is below it. */
  predicate OpeningPoint(top: Name, fault: Fault) {
    (fault.BeforeMkdir? || fault.AfterMkdir? || fault.AfterOpen?) && fault.top == top && fault.component < 2
  }

  lemma StrikesMissing(t: Tree, root: Ino, top: Name, leaf: Name, fault: Fault)
    requires TreeOk(t) && (root, top) !in t.entries && root in t.dirs
    ensures Strikes(t, root, top, leaf, fault) <==> OpeningPoint(top, fault)
  {
    assert (t.next, leaf) !in Step(t, root, top).0.entries;
  }

  lemma OpensMissing(t: Tree, root: Ino, uuid: Name, fault: Fault)
    requires TreeOk(t) && root in t.dirs && uuid != ORIGINALS && uuid != DERIVATIVES
    requires (root, ORIGINALS) !in t.entries && (root, DERIVATIVES) !in t.entries
    ensures BothOpen(t, root, uuid, fault) <==> !OpeningPoint(ORIGINALS, fault) && !OpeningPoint(DERIVATIVES, fault)
  {
    hide Opened, CanOpen, Step, Strikes;
    var t1 := Opened(t, root, ORIGINALS, uuid).0;
    NewLeaf(t, root, ORIGINALS, uuid);
    NewLeaf(t1, root, DERIVATIVES, uuid);
    StrikesMissing(t, root, ORIGINALS, uuid, fault);
    StrikesMissing(t1, root, DERIVATIVES, uuid, fault);
  }

  /** Where the directories are still missing, every fault at a point that publishing passes stops it, and no other does. */
  lemma EveryFaultStops(sha: Bytes -> Digest, t: Tree, root: Ino, prepared: seq<Prepared>, uuid: Name, fault: Fault)
    requires TreeOk(t) && root in t.dirs && uuid != ORIGINALS && uuid != DERIVATIVES
    requires (root, ORIGINALS) !in t.entries && (root, DERIVATIVES) !in t.entries
    requires Succeeds(sha, t, root, prepared, uuid, NoFault)
    ensures Succeeds(sha, t, root, prepared, uuid, fault) <==>
              match fault
              case NoFault => true
              case BeforeFile(i) => i >= |prepared|
              case AfterLink(i) => i >= |prepared|
              case AfterFile(i) => i >= |prepared|
              case AtVerify => false
              case _ => !OpeningPoint(ORIGINALS, fault) && !OpeningPoint(DERIVATIVES, fault)
  {
    hide Fits, BothOpen, Opened;
    OpensMissing(t, root, uuid, fault);
  }

  /** With nothing in the media directory yet, such a fault does leave a directory behind. */
  method LosingADirectory(sha: Bytes -> Digest, prepared: seq<Prepared>) returns (fs: MediaFs, ghost before: Tree)
    requires forall p :: p in prepared ==> p.ino == 1
    ensures before == Tree(map[], {0}, map[1 := []], 2)
    ensures fresh(fs) && Loses(before, 0, "u", AfterMkdir(ORIGINALS, 1)) && !Restored(before, fs.t, Tops(0))
  {
    fs := new MediaFs(sha, 0, Tree(map[], {0}, map[1 := []], 2));
    before := fs.t;
    var _ := fs.Publish(prepared, "u", AfterMkdir(ORIGINALS, 1));
  }
}
