/** Building the line map, and the promise its index keeps. */
module DiffBuild {
  import opened Basics
  import opened DiffMap
  import opened DiffTheorems
  import opened DiffIndex
  import opened DiffLookup

  // ---- the index, line by line ----

  predicate Before(r: Ref, q: Ref) {
    r.file < q.file || (r.file == q.file && (r.hunk < q.hunk || (r.hunk == q.hunk && r.line < q.line)))
  }

  /** The index holds exactly the lines before q, each under every anchor that names it. */
  ghost predicate IndexedTo(files: seq<File>, index: map<Anchor, Ref>, q: Ref) {
    && (forall a | a in index :: Names(files, a, index[a]) && Before(index[a], q))
    && (forall a: Anchor, r: Ref | Names(files, a, r) && Before(r, q) :: a in index && index[a] == r)
  }

  ghost predicate Indexed(files: seq<File>, index: map<Anchor, Ref>) { IndexedTo(files, index, Ref(|files|, 0, 0)) }

  function IndexLine(index: map<Anchor, Ref>, f: File, l: Line, q: Ref): map<Anchor, Ref> {
    var x := if l.op != Removed then index[Anchor(f.newPath, SideNew, l.new_) := q] else index;
    if l.op != Added then x[Anchor(f.oldPath, SideOld, l.old_) := q] else x
  }

  lemma IndexLineMeans(files: seq<File>, index: map<Anchor, Ref>, q: Ref, a: Anchor)
    requires Valid(files, q)
    ensures var x := IndexLine(index, files[q.file], LineAt(files, q), q);
      && (Names(files, a, q) ==> a in x && x[a] == q)
      && (!Names(files, a, q) ==> (a in x <==> a in index) && (a in x ==> x[a] == index[a]))
  {}

  lemma IndexOneMore(files: seq<File>, index: map<Anchor, Ref>, q: Ref)
    requires AllSound(files) && Keyed(files) && Valid(files, q) && IndexedTo(files, index, q)
    ensures IndexedTo(files, IndexLine(index, files[q.file], LineAt(files, q), q), Ref(q.file, q.hunk, q.line + 1))
  {
    var x, next := IndexLine(index, files[q.file], LineAt(files, q), q), Ref(q.file, q.hunk, q.line + 1);
    forall a | a in x ensures Names(files, a, x[a]) && Before(x[a], next) {
      IndexLineMeans(files, index, q, a);
    }
    forall a: Anchor, r: Ref | Names(files, a, r) && Before(r, next) ensures a in x && x[a] == r {
      IndexLineMeans(files, index, q, a);
      if Names(files, a, q) {
        AnchorsUnique(files, a, r, q);
      } else {
        assert Before(r, q);
      }
    }
  }

  lemma NextHunk(files: seq<File>, index: map<Anchor, Ref>, q: Ref)
    requires q.file < |files| && q.hunk < |files[q.file].hunks| && q.line == |files[q.file].hunks[q.hunk].lines|
    requires IndexedTo(files, index, q)
    ensures IndexedTo(files, index, Ref(q.file, q.hunk + 1, 0))
  {
    forall a: Anchor, r: Ref | Names(files, a, r) && Before(r, Ref(q.file, q.hunk + 1, 0))
      ensures a in index && index[a] == r {
      assert Before(r, q);
    }
  }

  lemma NextFile(files: seq<File>, index: map<Anchor, Ref>, q: Ref)
    requires q.file < |files| && q.hunk == |files[q.file].hunks| && q.line == 0 && IndexedTo(files, index, q)
    ensures IndexedTo(files, index, Ref(q.file + 1, 0, 0))
  {
    forall a: Anchor, r: Ref | Names(files, a, r) && Before(r, Ref(q.file + 1, 0, 0))
      ensures a in index && index[a] == r {
      assert Before(r, q);
    }
  }

  lemma NewFile(files: seq<File>, index: map<Anchor, Ref>, f: File)
    requires Indexed(files, index)
    ensures IndexedTo(files + [f], index, Ref(|files|, 0, 0))
  {
    forall a | a in index ensures Names(files + [f], a, index[a]) && Before(index[a], Ref(|files|, 0, 0)) {
      assert Names(files, a, index[a]);
    }
    forall a: Anchor, r: Ref | Names(files + [f], a, r) && Before(r, Ref(|files|, 0, 0))
      ensures a in index && index[a] == r {
      assert Names(files, a, r);
    }
  }

  /** Indexes the lines of one file. */
  method IndexFile(ghost files: seq<File>, f: File, fi: nat, before: map<Anchor, Ref>) returns (index: map<Anchor, Ref>)
    requires files != [] && fi == |files| - 1 && f == files[fi] && AllSound(files) && Keyed(files)
    requires IndexedTo(files, before, Ref(fi, 0, 0))
    ensures Indexed(files, index)
  {
    index := before;
    for hi := 0 to |f.hunks|
      invariant IndexedTo(files, index, Ref(fi, hi, 0))
    {
      var lines := f.hunks[hi].lines;
      for li := 0 to |lines|
        invariant IndexedTo(files, index, Ref(fi, hi, li))
      {
        var l, ref := lines[li], Ref(fi, hi, li);
        IndexOneMore(files, index, ref);
        if l.op != Removed {
          index := index[Anchor(f.newPath, SideNew, l.new_) := ref];
        }
        if l.op != Added {
          index := index[Anchor(f.oldPath, SideOld, l.old_) := ref];
        }
      }
      NextHunk(files, index, Ref(fi, hi, |lines|));
    }
    NextFile(files, index, Ref(fi, |f.hunks|, 0));
  }

  // ---- the whole map ----

  /** Every path is there, and no two files claim one path on one side. */
  predicate Keyable(diffs: seq<FileDiff>) {
    && (forall i | 0 <= i < |diffs| :: diffs[i].oldPath != "" && diffs[i].newPath != "")
    && (forall i, j, s: Side | 0 <= i < j < |diffs| && Claims(diffs[i], s) && Claims(diffs[j], s) ::
          PathIn(diffs[i], s) != PathIn(diffs[j], s))
  }

  predicate Claims(d: FileDiff, s: Side) { if s == SideNew then !d.deletedFile else !d.newFile }
  function PathIn(d: FileDiff, s: Side): string { if s == SideNew then d.newPath else d.oldPath }

  function FilesOf(diffs: seq<FileDiff>): (fs: seq<File>)
    ensures |fs| == |diffs|
  {
    seq(|diffs|, i requires 0 <= i < |diffs| => FileOf(diffs[i]))
  }

  lemma FilesKept(diffs: seq<FileDiff>)
    ensures AllSound(FilesOf(diffs))
    ensures Keyable(diffs) ==> Keyed(FilesOf(diffs))
  {
    forall i | 0 <= i < |diffs| ensures Sound(FilesOf(diffs)[i]) { ParsedIsSound(diffs[i]); }
    forall i | 0 <= i < |diffs|
      ensures forall s ::
        HasSide(FileOf(diffs[i]), s) == Claims(diffs[i], s) && PathOn(FileOf(diffs[i]), s) == PathIn(diffs[i], s)
    {
      FileKeeps(diffs[i], DiffOf(diffs[i].diff));
    }
    if Keyable(diffs) {
      var fs := FilesOf(diffs);
      forall i, j, s: Side | 0 <= i < j < |fs| && HasSide(fs[i], s) && HasSide(fs[j], s)
        ensures PathOn(fs[i], s) != PathOn(fs[j], s) {
        assert Claims(diffs[i], s) && Claims(diffs[j], s);
      }
    }
  }

  lemma FileKeeps(d: FileDiff, parsed: Parsed)
    ensures forall s ::
      HasSide(FileFrom(d, parsed), s) == Claims(d, s) && PathOn(FileFrom(d, parsed), s) == PathIn(d, s)
  {}

  lemma KeyablePrefix(diffs: seq<FileDiff>, n: nat)
    requires n <= |diffs| && Keyable(diffs)
    ensures Keyable(diffs[..n])
  {}

  /** The paths claimed so far. */
  ghost predicate Owned(owner: set<(string, Side)>, diffs: seq<FileDiff>) {
    forall p: string, s: Side ::
      (p, s) in owner <==> exists i | 0 <= i < |diffs| :: Claims(diffs[i], s) && PathIn(diffs[i], s) == p
  }

  function KeysOf(d: FileDiff): set<(string, Side)> {
    (if d.deletedFile then {} else {(d.newPath, SideNew)}) + if d.newFile then {} else {(d.oldPath, SideOld)}
  }

  lemma OwnedMore(owner: set<(string, Side)>, diffs: seq<FileDiff>, d: FileDiff)
    requires Owned(owner, diffs)
    ensures Owned(owner + KeysOf(d), diffs + [d])
  {
    forall p: string, s: Side
      ensures (p, s) in owner + KeysOf(d) <==>
          exists i | 0 <= i < |diffs + [d]| :: Claims((diffs + [d])[i], s) && PathIn((diffs + [d])[i], s) == p
    {
      if (p, s) in KeysOf(d) { assert Claims((diffs + [d])[|diffs|], s) && PathIn((diffs + [d])[|diffs|], s) == p; }
      if (p, s) in owner {
        var i :| 0 <= i < |diffs| && Claims(diffs[i], s) && PathIn(diffs[i], s) == p;
        assert (diffs + [d])[i] == diffs[i];
      }
    }
  }

  lemma KeyableMore(owner: set<(string, Side)>, diffs: seq<FileDiff>, d: FileDiff)
    requires Keyable(diffs) && Owned(owner, diffs)
    ensures Keyable(diffs + [d]) <==> d.oldPath != "" && d.newPath != "" && owner * KeysOf(d) == {}
  {
    var all := diffs + [d];
    assert all[|diffs|] == d;
    if Keyable(all) {
      forall p: string, s: Side | (p, s) in owner ensures (p, s) !in KeysOf(d) {
        var i :| 0 <= i < |diffs| && Claims(diffs[i], s) && PathIn(diffs[i], s) == p;
        assert all[i] == diffs[i];
      }
      forall k | k in owner ensures k !in KeysOf(d) { assert k == (k.0, k.1); }
    }
    if d.oldPath != "" && d.newPath != "" && owner * KeysOf(d) == {} {
      forall i, s: Side | 0 <= i < |diffs| && Claims(diffs[i], s) && Claims(d, s)
        ensures PathIn(diffs[i], s) != PathIn(d, s) {
        assert (PathIn(diffs[i], s), s) in owner && (PathIn(d, s), s) in KeysOf(d);
        assert PathIn(diffs[i], s) == PathIn(d, s) ==> (PathIn(d, s), s) in owner * KeysOf(d);
      }
    }
  }

  /** The map of the diffs in the order given, or none when they cannot be keyed. */
  method Build(diffs: seq<FileDiff>) returns (m: Option<Map>)
    ensures m.Some? <==> Keyable(diffs)
    ensures m.Some? ==> m.value.files == FilesOf(diffs) && Indexed(m.value.files, m.value.index)
  {
    var files: seq<File>, index: map<Anchor, Ref> := [], map[];
    var owner: set<(string, Side)> := {};
    for fi := 0 to |diffs|
      invariant Keyable(diffs[..fi]) && Owned(owner, diffs[..fi])
      invariant files == FilesOf(diffs[..fi]) && Indexed(files, index)
    {
      var d := diffs[fi];
      Listing.PrefixStep(diffs, fi);
      KeyableMore(owner, diffs[..fi], d);
      if d.oldPath == "" || d.newPath == "" || owner * KeysOf(d) != {} {
        if Keyable(diffs) { KeyablePrefix(diffs, fi + 1); }
        return None;
      }
      OwnedMore(owner, diffs[..fi], d);
      owner := owner + KeysOf(d);
      var f := ParseFile(d);
      FilesKept(diffs[..fi + 1]);
      assert files + [f] == FilesOf(diffs[..fi + 1]);
      NewFile(files, index, f);
      files := files + [f];
      index := IndexFile(files, f, fi, index);
    }
    assert diffs[..|diffs|] == diffs;
    return Some(Map(files, index));
  }
}
