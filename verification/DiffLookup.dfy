/** The index of a line map, and what can be looked up in it. */
module DiffLookup {
  import opened DiffText
  import opened DiffMap
  import opened DiffTheorems
  import opened DiffIndex

  datatype Anchor = Anchor(path: string, side: Side, line: nat)
  datatype Ref = Ref(file: nat, hunk: nat, line: nat)
  datatype Map = Map(files: seq<File>, index: map<Anchor, Ref>)

  // ---- positions ----

  function PathOn(f: File, s: Side): string { if s == SideNew then f.newPath else f.oldPath }

  predicate HasSide(f: File, s: Side) { if s == SideNew then !f.deleted else !f.newFile }

  predicate Valid(files: seq<File>, r: Ref) {
    r.file < |files| && r.hunk < |files[r.file].hunks| && r.line < |files[r.file].hunks[r.hunk].lines|
  }

  function LineAt(files: seq<File>, r: Ref): Line
    requires Valid(files, r)
  {
    files[r.file].hunks[r.hunk].lines[r.line]
  }

  /** The anchor names the line at r: its path and its number on that side. */
  predicate Names(files: seq<File>, a: Anchor, r: Ref) {
    && Valid(files, r) && On(LineAt(files, r), a.side)
    && a.path == PathOn(files[r.file], a.side) && a.line == NumberOn(LineAt(files, r), a.side)
  }

  // ---- one number, one line ----

  lemma {:induction false} NumberInRange(ls: seq<Line>, s: Side, start: nat, j: nat)
    requires Numbered(ls, s, start) && j < |ls| && On(ls[j], s)
    ensures start <= NumberOn(ls[j], s) < start + CountOn(ls, s)
  {
    if j > 0 { NumberInRange(ls[1..], s, start + if On(ls[0], s) then 1 else 0, j - 1); }
  }

  lemma {:induction false} NumberGrows(ls: seq<Line>, s: Side, start: nat, i: nat, j: nat)
    requires Numbered(ls, s, start) && i < j < |ls| && On(ls[i], s) && On(ls[j], s)
    ensures NumberOn(ls[i], s) < NumberOn(ls[j], s)
  {
    var next := start + if On(ls[0], s) then 1 else 0;
    if i > 0 { NumberGrows(ls[1..], s, next, i - 1, j - 1); } else { NumberInRange(ls[1..], s, next, j - 1); }
  }

  lemma {:induction false} NumberFound(ls: seq<Line>, s: Side, start: nat, n: nat) returns (j: nat)
    requires Numbered(ls, s, start) && start <= n < start + CountOn(ls, s)
    ensures j < |ls| && On(ls[j], s) && NumberOn(ls[j], s) == n
  {
    if On(ls[0], s) && n == start {
      j := 0;
    } else {
      var k := NumberFound(ls[1..], s, start + if On(ls[0], s) then 1 else 0, n);
      j := k + 1;
    }
  }

  function LastOn(s: Side, lastOld: nat, lastNew: nat): nat { if s == SideNew then lastNew else lastOld }

  lemma {:induction false} HunkBeyond(hs: seq<Hunk>, lastOld: nat, lastNew: nat, s: Side, k: nat, j: nat)
    requires WellFormed(hs, lastOld, lastNew) && k < |hs| && j < |hs[k].lines| && On(hs[k].lines[j], s)
    ensures LastOn(s, lastOld, lastNew) < NumberOn(hs[k].lines[j], s) <= MAX_LINE_NUMBER
  {
    if k == 0 {
      NumberInRange(hs[0].lines, s, StartOn(hs[0].header, s), j);
    } else {
      HunkBeyond(hs[1..], LastOld(lastOld, hs[0].header), LastNew(lastNew, hs[0].header), s, k - 1, j);
    }
  }

  lemma {:induction false} HunksAscend(hs: seq<Hunk>, lastOld: nat, lastNew: nat, s: Side, k: nat, i: nat,
                                       m: nat, j: nat)
    requires WellFormed(hs, lastOld, lastNew) && k < m < |hs|
    requires i < |hs[k].lines| && On(hs[k].lines[i], s) && j < |hs[m].lines| && On(hs[m].lines[j], s)
    ensures NumberOn(hs[k].lines[i], s) < NumberOn(hs[m].lines[j], s)
  {
    var o, n := LastOld(lastOld, hs[0].header), LastNew(lastNew, hs[0].header);
    if k == 0 {
      NumberInRange(hs[0].lines, s, StartOn(hs[0].header, s), i);
      HunkBeyond(hs[1..], o, n, s, m - 1, j);
    } else {
      HunksAscend(hs[1..], o, n, s, k - 1, i, m - 1, j);
    }
  }

  lemma {:induction false} HunkIsExact(hs: seq<Hunk>, lastOld: nat, lastNew: nat, k: nat)
    requires WellFormed(hs, lastOld, lastNew) && k < |hs|
    ensures Exact(hs[k], SideOld) && Exact(hs[k], SideNew)
  {
    if k > 0 { HunkIsExact(hs[1..], LastOld(lastOld, hs[0].header), LastNew(lastNew, hs[0].header), k - 1); }
  }

  /** A file as the parser leaves it: exact hunks, and no line on a side the file does not have. */
  predicate Sound(f: File) {
    && WellFormed(f.hunks, 0, 0)
    && forall k, j | 0 <= k < |f.hunks| && 0 <= j < |f.hunks[k].lines| ::
      (f.newFile ==> f.hunks[k].lines[j].op == Added) && (f.deleted ==> f.hunks[k].lines[j].op == Removed)
  }

  lemma OneNumberOneLine(f: File, s: Side, k: nat, i: nat, m: nat, j: nat)
    requires Sound(f) && k < |f.hunks| && i < |f.hunks[k].lines| && On(f.hunks[k].lines[i], s)
    requires m < |f.hunks| && j < |f.hunks[m].lines| && On(f.hunks[m].lines[j], s)
    requires NumberOn(f.hunks[k].lines[i], s) == NumberOn(f.hunks[m].lines[j], s)
    ensures k == m && i == j
  {
    if k < m {
      HunksAscend(f.hunks, 0, 0, s, k, i, m, j);
    } else if m < k {
      HunksAscend(f.hunks, 0, 0, s, m, j, k, i);
    } else {
      HunkIsExact(f.hunks, 0, 0, k);
      if i < j {
        NumberGrows(f.hunks[k].lines, s, StartOn(f.hunks[k].header, s), i, j);
      } else if j < i {
        NumberGrows(f.hunks[k].lines, s, StartOn(f.hunks[k].header, s), j, i);
      }
    }
  }

  /** No two files claim one path on one side. */
  predicate Keyed(files: seq<File>) {
    forall i, j, s: Side | 0 <= i < j < |files| && HasSide(files[i], s) && HasSide(files[j], s) ::
      PathOn(files[i], s) != PathOn(files[j], s)
  }

  predicate AllSound(files: seq<File>) { forall i | 0 <= i < |files| :: Sound(files[i]) }

  lemma NamedHasSide(files: seq<File>, a: Anchor, r: Ref)
    requires AllSound(files) && Names(files, a, r)
    ensures HasSide(files[r.file], a.side)
  {
    assert Sound(files[r.file]);
  }

  /** An anchor names at most one line: no line of the map hides another. */
  lemma AnchorsUnique(files: seq<File>, a: Anchor, r: Ref, q: Ref)
    requires AllSound(files) && Keyed(files) && Names(files, a, r) && Names(files, a, q)
    ensures r == q
  {
    NamedHasSide(files, a, r);
    NamedHasSide(files, a, q);
    assert r.file == q.file;
    OneNumberOneLine(files[r.file], a.side, r.hunk, r.line, q.hunk, q.line);
  }

  // ---- parsed files are sound ----

  lemma {:induction false} NoStray(hs: seq<Hunk>, bad: Line -> bool, k: nat, j: nat)
    requires !Listing.Any(bad, Flat(hs)) && k < |hs| && j < |hs[k].lines|
    ensures !bad(hs[k].lines[j])
  {
    Listing.AnyMembers(bad, Flat(hs));
    InFlat(hs, k, j);
  }

  lemma {:induction false} InFlat(hs: seq<Hunk>, k: nat, j: nat)
    requires k < |hs| && j < |hs[k].lines|
    ensures hs[k].lines[j] in Flat(hs)
  {
    if k < |hs| - 1 { InFlat(hs[..|hs| - 1], k, j); }
  }

  lemma ParsedIsSound(d: FileDiff)
    ensures Sound(FileOf(d))
  {
    var f := FileOf(d);
    if f.hunks != [] {
      AcceptedIsExact(d.diff);
      forall k, j | 0 <= k < |f.hunks| && 0 <= j < |f.hunks[k].lines|
        ensures !Stray(d.newFile, d.deletedFile)(f.hunks[k].lines[j])
      {
        NoStray(f.hunks, Stray(d.newFile, d.deletedFile), k, j);
      }
    }
  }
}
