/** The media directory as a tree of inodes, and what undoing a publish does to it. */
module MediaTree {
  type Ino = nat
  type Name = string
  type Bytes = seq<nat>
  type Digest = string

  /** `entries` leads from (directory, name) to an inode; inodes from `next` on are unused. */
  datatype Tree = Tree(entries: map<(Ino, Name), Ino>, dirs: set<Ino>, content: map<Ino, Bytes>, next: Ino)

  ghost predicate TreeOk(t: Tree) {
    && (forall e :: e in t.entries ==> e.0 in t.dirs && t.entries[e] < t.next
                                       && (t.entries[e] in t.dirs || t.entries[e] in t.content))
    && (forall d :: d in t.dirs ==> d < t.next && d !in t.content)
    && (forall n :: n in t.content ==> n < t.next)
  }

  /** A file that was put under a name, or found there. */
  datatype Published = Published(dir: Ino, name: Name, ino: Ino, created: bool)

  /** A directory opened component by component; `inos[0]` is where it starts. */
  datatype Handle = Handle(inos: seq<Ino>, names: seq<Name>, created: seq<bool>)

  predicate HandleOk(h: Handle) {
    |h.inos| == |h.names| + 1 && |h.created| == |h.names|
  }

  function Leaf(h: Handle): Ino
    requires HandleOk(h)
  {
    h.inos[|h.names|]
  }

  predicate IsEmpty(t: Tree, d: Ino) {
    forall e :: e in t.entries ==> e.0 != d
  }

  function WithoutEntry(t: Tree, e: (Ino, Name)): Tree {
    t.(entries := map x | x in t.entries && x != e :: t.entries[x])
  }

  function WithEntry(t: Tree, e: (Ino, Name), n: Ino): Tree {
    t.(entries := t.entries[e := n])
  }

  /** A new empty directory. */
  function Mkdir(t: Tree, e: (Ino, Name)): Tree {
    Tree(t.entries[e := t.next], t.dirs + {t.next}, t.content, t.next + 1)
  }

  // ---------------------------------------------------------------- finding or making a directory

  /** The directory under a name, made when the name is free. */
  function Step(t: Tree, d: Ino, name: Name): (Tree, Ino) {
    if (d, name) in t.entries then (t, t.entries[(d, name)]) else (Mkdir(t, (d, name)), t.next)
  }

  predicate CanStep(t: Tree, d: Ino, name: Name) {
    (d, name) in t.entries ==> t.entries[(d, name)] in t.dirs
  }

  /** The tree and the directory after finding or making top/leaf. */
  function Opened(t: Tree, root: Ino, top: Name, leaf: Name): (Tree, Ino) {
    Step(Step(t, root, top).0, Step(t, root, top).1, leaf)
  }

  predicate CanOpen(t: Tree, root: Ino, top: Name, leaf: Name) {
    CanStep(t, root, top) && CanStep(Step(t, root, top).0, Step(t, root, top).1, leaf)
  }

  // ---------------------------------------------------------------- undoing

  /** The name still leads to the very file this run put there. */
  predicate StillOwn(t: Tree, f: Published) {
    f.created && (f.dir, f.name) in t.entries && t.entries[(f.dir, f.name)] == f.ino && f.ino in t.content
  }

  function UndoFile(t: Tree, f: Published): Tree {
    if StillOwn(t, f) then WithoutEntry(t, (f.dir, f.name)) else t
  }

  /** Last published, first removed. */
  function UndoFiles(t: Tree, files: seq<Published>): Tree
    decreases |files|
  {
    if files == [] then t else UndoFiles(UndoFile(t, files[|files| - 1]), files[..|files| - 1])
  }

  /** Remove created directories from the leaf up, stopping at the first that cannot go. */
  function Prune(t: Tree, h: Handle, removed: seq<bool>, k: nat, keep: nat): Tree
    requires HandleOk(h) && |removed| == |h.names| && k <= |h.names|
    decreases k
  {
    if k <= keep then t
    else
      var e, n := (h.inos[k - 1], h.names[k - 1]), h.inos[k];
      if removed[k - 1] then Prune(t, h, removed, k - 1, keep)
      else if !h.created[k - 1] then t
      else if e !in t.entries then Prune(t, h, removed, k - 1, keep)
      else if t.entries[e] != n || n !in t.dirs || !IsEmpty(t, n) then t
      else Prune(WithoutEntry(t, e), h, removed, k - 1, keep)
  }

  // ---------------------------------------------------------------- what undoing never does

  /** `after` has lost some names and nothing else. */
  ghost predicate OnlyLost(t: Tree, after: Tree) {
    && after.(entries := t.entries) == t
    && (forall e :: e in after.entries ==> e in t.entries && after.entries[e] == t.entries[e])
  }

  lemma {:induction false} UndoFilesOnlyOwn(t: Tree, files: seq<Published>)
    ensures OnlyLost(t, UndoFiles(t, files))
    ensures forall e :: e in t.entries && e !in UndoFiles(t, files).entries ==>
              exists i :: 0 <= i < |files| && files[i].created && (files[i].dir, files[i].name) == e && files[i].ino == t.entries[e]
    decreases |files|
  {
    if files != [] {
      var init, f := files[..|files| - 1], files[|files| - 1];
      UndoFilesOnlyOwn(UndoFile(t, f), init);
      forall e | e in t.entries && e !in UndoFiles(t, files).entries
        ensures exists i :: 0 <= i < |files| && files[i].created && (files[i].dir, files[i].name) == e && files[i].ino == t.entries[e]
      {
        if e in UndoFile(t, f).entries {
          var i :| 0 <= i < |init| && init[i].created && (init[i].dir, init[i].name) == e && init[i].ino == t.entries[e];
          assert files[i] == init[i];
        } else {
          assert files[|files| - 1] == f;
        }
      }
    }
  }

  lemma {:induction false} PruneOnlyOwn(t: Tree, h: Handle, removed: seq<bool>, k: nat, keep: nat)
    requires HandleOk(h) && |removed| == |h.names| && k <= |h.names|
    ensures OnlyLost(t, Prune(t, h, removed, k, keep))
    ensures forall e :: e in t.entries && e !in Prune(t, h, removed, k, keep).entries ==>
              exists i :: keep <= i < k && h.created[i] && (h.inos[i], h.names[i]) == e && h.inos[i + 1] == t.entries[e]
    decreases k
  {
    if k > keep {
      var e := (h.inos[k - 1], h.names[k - 1]);
      PruneOnlyOwn(t, h, removed, k - 1, keep);
      PruneOnlyOwn(WithoutEntry(t, e), h, removed, k - 1, keep);
    }
  }

  // ---------------------------------------------------------------- what publishing adds

  /** One new name for each file that was created. */
  function AddFiles(t: Tree, files: seq<Published>): Tree {
    if files == [] then t
    else
      var mid, f := AddFiles(t, files[..|files| - 1]), files[|files| - 1];
      if f.created then WithEntry(mid, (f.dir, f.name), f.ino) else mid
  }

  /** Each created name was free when it was made. */
  predicate FreeWhenMade(t: Tree, files: seq<Published>) {
    files == [] ||
    (var init, f := files[..|files| - 1], files[|files| - 1];
     FreeWhenMade(t, init)
     && (f.created ==> (f.dir, f.name) !in AddFiles(t, init).entries && f.ino in t.content && f.dir in t.dirs))
  }

  lemma {:induction false} AddFilesKeeps(t: Tree, files: seq<Published>)
    requires FreeWhenMade(t, files)
    ensures var after := AddFiles(t, files);
            && after.(entries := t.entries) == t
            && (forall e :: e in t.entries ==> e in after.entries && after.entries[e] == t.entries[e])
            && (TreeOk(t) ==> TreeOk(after))
  {
    if files != [] { AddFilesKeeps(t, files[..|files| - 1]); }
  }

  lemma {:induction false} AddFilesOnly(t: Tree, files: seq<Published>, e: (Ino, Name))
    requires e in AddFiles(t, files).entries && e !in t.entries
    ensures exists i :: 0 <= i < |files| && (files[i].dir, files[i].name) == e
  {
    var init, f := files[..|files| - 1], files[|files| - 1];
    if e in AddFiles(t, init).entries {
      AddFilesOnly(t, init, e);
      var i :| 0 <= i < |init| && (init[i].dir, init[i].name) == e;
      assert files[i] == init[i];
    } else {
      assert files[|files| - 1] == f;
    }
  }

  /** Undoing removes exactly what was added. */
  lemma {:induction false} UndoIsExact(t: Tree, files: seq<Published>)
    requires FreeWhenMade(t, files)
    ensures UndoFiles(AddFiles(t, files), files) == t
  {
    if files != [] {
      var init, f := files[..|files| - 1], files[|files| - 1];
      AddFilesKeeps(t, init);
      UndoIsExact(t, init);
      var mid, after := AddFiles(t, init), AddFiles(t, files);
      assert UndoFile(after, f) == mid by {
        if f.created { assert WithoutEntry(after, (f.dir, f.name)).entries == mid.entries; }
      }
    }
  }

  /** Each component that was missing becomes a fresh empty directory. */
  function AddDirs(t: Tree, h: Handle, n: nat): Tree
    requires HandleOk(h) && n <= |h.names|
  {
    if n == 0 then t
    else
      var mid := AddDirs(t, h, n - 1);
      if h.created[n - 1] then Mkdir(mid, (h.inos[n - 1], h.names[n - 1])) else mid
  }

  predicate OpenedWell(t: Tree, h: Handle, n: nat)
    requires HandleOk(h) && n <= |h.names|
  {
    n == 0 ||
    (var mid, e := AddDirs(t, h, n - 1), (h.inos[n - 1], h.names[n - 1]);
     OpenedWell(t, h, n - 1) &&
     (if h.created[n - 1] then e !in mid.entries && e.0 in mid.dirs && h.inos[n] == mid.next
      else e in mid.entries && mid.entries[e] == h.inos[n] && h.inos[n] in mid.dirs))
  }

  lemma {:induction false} AddDirsKeeps(t: Tree, h: Handle, n: nat)
    requires HandleOk(h) && n <= |h.names| && TreeOk(t) && OpenedWell(t, h, n)
    ensures var after := AddDirs(t, h, n);
            && TreeOk(after) && t.next <= after.next && t.dirs <= after.dirs && t.content == after.content
            && (forall e :: e in t.entries ==> e in after.entries && after.entries[e] == t.entries[e])
            && (n > 0 ==> h.inos[n] in after.dirs)
  {
    if n > 0 { AddDirsKeeps(t, h, n - 1); }
  }

  // ---------------------------------------------------------------- restoring the namespace

  /** Nothing is lost, and nothing is new but possibly the given top directories. */
  ghost predicate Restored(t: Tree, after: Tree, tops: set<(Ino, Name)>) {
    && after.content == t.content
    && (forall e :: e in t.entries ==> e in after.entries && after.entries[e] == t.entries[e])
    && (forall e :: e in after.entries && e !in t.entries ==> e in tops)
  }

  function Fresh(n: nat): seq<bool> {
    seq(n, _ => false)
  }

  function PruneDir(t: Tree, h: Handle, removed: seq<bool>): Tree
    requires HandleOk(h) && |removed| == |h.names|
  {
    Prune(t, h, removed, |h.names|, 1)
  }

  function Top(h: Handle): (Ino, Name)
    requires HandleOk(h) && |h.names| > 0
  {
    (h.inos[0], h.names[0])
  }

  /** Pruning a directory opened through two components: only the second can go. */
  lemma PruneTwo(t: Tree, h: Handle)
    requires HandleOk(h) && |h.names| <= 2
    ensures |h.names| < 2 ==> PruneDir(t, h, Fresh(|h.names|)) == t
    ensures |h.names| == 2 ==>
              var e := (h.inos[1], h.names[1]);
              PruneDir(t, h, Fresh(2)) ==
              if h.created[1] && e in t.entries && t.entries[e] == h.inos[2] && h.inos[2] in t.dirs && IsEmpty(t, h.inos[2])
              then WithoutEntry(t, e) else t
  {
    if |h.names| == 2 {
      assert Fresh(2)[1] == false;
    }
  }

  lemma OpenedTwo(t: Tree, h: Handle)
    requires HandleOk(h) && |h.names| == 2 && TreeOk(t) && OpenedWell(t, h, 2)
    ensures var t1, t2 := AddDirs(t, h, 1), AddDirs(t, h, 2);
            && TreeOk(t1) && TreeOk(t2) && OpenedWell(t, h, 1)
            && (forall e :: e in t1.entries && e !in t.entries ==> e == Top(h))
            && (forall e :: e in t.entries ==> e in t1.entries && t1.entries[e] == t.entries[e])
            && t1.content == t.content == t2.content
            && (h.created[1] ==> t2 == Mkdir(t1, (h.inos[1], h.names[1])) && h.inos[2] == t1.next
                                 && (h.inos[1], h.names[1]) !in t1.entries && h.inos[1] in t1.dirs)
            && (!h.created[1] ==> t2 == t1)
  {
    AddDirsKeeps(t, h, 1);
    AddDirsKeeps(t, h, 2);
    assert OpenedWell(t, h, 1) && AddDirs(t, h, 0) == t;
  }

  /** A directory that was only opened leaves nothing behind but its top. */
  lemma OpenAndPrune(t: Tree, h: Handle)
    requires HandleOk(h) && 1 <= |h.names| <= 2 && TreeOk(t) && OpenedWell(t, h, |h.names|)
    ensures Restored(t, PruneDir(AddDirs(t, h, |h.names|), h, Fresh(|h.names|)), {Top(h)})
  {
    PruneTwo(AddDirs(t, h, |h.names|), h);
    if |h.names| == 2 {
      OpenedTwo(t, h);
    } else {
      AddDirsKeeps(t, h, 1);
      assert AddDirs(t, h, 0) == t;
    }
  }

  /** What compensation makes of a tree. */
  function Undone(t: Tree, files: seq<Published>, o: Handle, d: Handle): Tree
    requires HandleOk(o) && HandleOk(d)
  {
    PruneDir(PruneDir(UndoFiles(t, files), d, Fresh(|d.names|)), o, Fresh(|o.names|))
  }

  /**
   In whatever state the tree is by then, taking back removes a name only if this
   run created it and it still leads to the very file or uuid directory it made.
   */
  lemma TakingBackRemovesOnlyOwn(t: Tree, files: seq<Published>, o: Handle, d: Handle, e: (Ino, Name))
    requires HandleOk(o) && HandleOk(d) && e in t.entries && e !in Undone(t, files, o, d).entries
    ensures || (exists i :: 0 <= i < |files| && files[i].created && (files[i].dir, files[i].name) == e
                            && files[i].ino == t.entries[e])
            || (exists i :: 1 <= i < |o.names| && o.created[i] && (o.inos[i], o.names[i]) == e && o.inos[i + 1] == t.entries[e])
            || (exists i :: 1 <= i < |d.names| && d.created[i] && (d.inos[i], d.names[i]) == e && d.inos[i + 1] == t.entries[e])
  {
    var t1 := UndoFiles(t, files);
    var t2 := PruneDir(t1, d, Fresh(|d.names|));
    UndoFilesOnlyOwn(t, files);
    PruneOnlyOwn(t1, d, Fresh(|d.names|), |d.names|, 1);
    PruneOnlyOwn(t2, o, Fresh(|o.names|), |o.names|, 1);
  }

  /** `w` is `v` with at most the entry `more`, and no more directories lost. */
  ghost predicate OneMore(v: Tree, w: Tree, more: (Ino, Name)) {
    && w.content == v.content && v.dirs <= w.dirs
    && (forall e :: e in w.entries ==> e in v.entries || e == more)
    && (forall e :: e in v.entries ==> e in w.entries && w.entries[e] == v.entries[e])
  }

  /** Pruned again, a handle leaves its top at most. */
  lemma OneHandleGoes(v: Tree, d: Handle)
    requires HandleOk(d) && |d.names| == 2 && TreeOk(v) && OpenedWell(v, d, 2)
    ensures OneMore(v, PruneDir(AddDirs(v, d, 2), d, Fresh(2)), Top(d))
  {
    OpenedTwo(v, d);
    PruneTwo(AddDirs(v, d, 2), d);
    AddDirsKeeps(v, d, 2);
  }

  /** Made in a tree where the inode was unused, a directory stays empty while names go in elsewhere. */
  lemma FreshIsEmpty(u: Tree, parent: (Ino, Name), w: Tree, more: (Ino, Name))
    requires TreeOk(u) && parent !in u.entries && parent.0 in u.dirs && more.0 in u.dirs
    requires OneMore(Mkdir(u, parent), w, more)
    ensures parent in w.entries && w.entries[parent] == u.next && u.next in w.dirs && IsEmpty(w, u.next)
  {
  }

  lemma FirstGoes(t: Tree, o: Handle, w: Tree, more: (Ino, Name))
    requires HandleOk(o) && |o.names| == 2 && TreeOk(t) && OpenedWell(t, o, 2)
    requires OneMore(AddDirs(t, o, 2), w, more) && more.0 in t.dirs && more != (o.inos[1], o.names[1])
    ensures Restored(t, PruneDir(w, o, Fresh(2)), {Top(o), more})
  {
    OpenedTwo(t, o);
    AddDirsKeeps(t, o, 1);
    PruneTwo(w, o);
    if o.created[1] {
      FreshIsEmpty(AddDirs(t, o, 1), (o.inos[1], o.names[1]), w, more);
    }
  }

  /** After undoing both handles only their tops may be new. */
  lemma BothGo(t: Tree, o: Handle, d: Handle)
    requires HandleOk(o) && HandleOk(d) && |o.names| == 2 && |d.names| == 2 && TreeOk(t)
    requires OpenedWell(t, o, 2) && OpenedWell(AddDirs(t, o, 2), d, 2)
    requires d.inos[0] in t.dirs && o.names[1] != d.names[0]
    ensures Restored(t, PruneDir(PruneDir(AddDirs(AddDirs(t, o, 2), d, 2), d, Fresh(2)), o, Fresh(2)), {Top(o), Top(d)})
  {
    AddDirsKeeps(t, o, 2);
    OneHandleGoes(AddDirs(t, o, 2), d);
    FirstGoes(t, o, PruneDir(AddDirs(AddDirs(t, o, 2), d, 2), d, Fresh(2)), Top(d));
  }

  /** One handle given up after the second one could not be opened. */
  lemma FirstGoesAfterRestored(t: Tree, o: Handle, w: Tree, more: (Ino, Name))
    requires HandleOk(o) && |o.names| == 2 && TreeOk(t) && OpenedWell(t, o, 2)
    requires Restored(AddDirs(t, o, 2), w, {more}) && AddDirs(t, o, 2).dirs <= w.dirs
    requires more.0 in t.dirs && more != (o.inos[1], o.names[1])
    ensures Restored(t, PruneDir(w, o, Fresh(2)), {Top(o), more})
  {
    FirstGoes(t, o, w, more);
  }

  // ---------------------------------------------------------------- an opening that failed

  /** The recorded components, and possibly one that was made but not recorded. */
  function LeftBehind(t: Tree, h: Handle, names: seq<Name>, leaked: bool): Tree
    requires HandleOk(h) && (leaked ==> |h.names| < |names|)
  {
    if leaked then Mkdir(AddDirs(t, h, |h.names|), (Leaf(h), names[|h.names|])) else AddDirs(t, h, |h.names|)
  }

  /** Giving up restores the namespace unless the leaf directory was made and not recorded. */
  lemma GivingUp(t: Tree, h: Handle, top: Name, leaf: Name, leaked: bool)
    requires HandleOk(h) && |h.names| <= 2 && h.names == [top, leaf][..|h.names|] && TreeOk(t)
    requires OpenedWell(t, h, |h.names|)
    requires leaked ==> |h.names| < 2 && (Leaf(h), [top, leaf][|h.names|]) !in AddDirs(t, h, |h.names|).entries
    requires top != leaf
    ensures var after := PruneDir(LeftBehind(t, h, [top, leaf], leaked), h, Fresh(|h.names|));
            && (Restored(t, after, {(h.inos[0], top)}) <==> !(leaked && |h.names| == 1))
            && AddDirs(t, h, 0).dirs <= after.dirs
  {
    PruneTwo(LeftBehind(t, h, [top, leaf], leaked), h);
    if |h.names| == 0 {
      assert AddDirs(t, h, 0) == t;
    } else {
      OpenAndPrune(t, h);
      AddDirsKeeps(t, h, |h.names|);
      if leaked {
        var e := (h.inos[1], leaf);
        assert e in LeftBehind(t, h, [top, leaf], leaked).entries;
      }
    }
  }
}
