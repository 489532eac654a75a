/** What a reviewer can cite in a line map, and when the map may be reviewed at all. */
module DiffReview {
  import opened Basics
  import opened DiffText
  import opened DiffMap
  import opened DiffTheorems
  import opened DiffIndex
  import opened DiffLookup
  import opened DiffBuild

  /** A map as Build makes it. */
  ghost predicate Built(m: Map, diffs: seq<FileDiff>) {
    Keyable(diffs) && m.files == FilesOf(diffs) && Indexed(m.files, m.index)
  }

  ghost function Lookup(m: Map, a: Anchor): Option<Line>
    requires Indexed(m.files, m.index)
  {
    if a in m.index then Some(LineAt(m.files, m.index[a])) else None
  }

  /** The anchor's number is one its side of the hunk's header covers. */
  predicate Covers(files: seq<File>, a: Anchor, i: nat, k: nat) {
    && i < |files| && k < |files[i].hunks| && a.path == PathOn(files[i], a.side)
    && StartOn(files[i].hunks[k].header, a.side) <= a.line
    && a.line < StartOn(files[i].hunks[k].header, a.side) + LinesOn(files[i].hunks[k].header, a.side)
  }

  /** Exactly the numbers the hunk headers cover can be cited: each finds a line with that number on
      that side, and nothing else is found. */
  lemma LookupExactly(m: Map, diffs: seq<FileDiff>, a: Anchor)
    requires Built(m, diffs)
    ensures Lookup(m, a).Some? <==> exists i: nat, k: nat :: Covers(m.files, a, i, k)
    ensures Lookup(m, a).Some? ==>
      On(Lookup(m, a).value, a.side) && NumberOn(Lookup(m, a).value, a.side) == a.line && 0 < a.line <= MAX_LINE_NUMBER
  {
    FilesKept(diffs);
    if a in m.index {
      var r := m.index[a];
      assert Names(m.files, a, r) && Sound(m.files[r.file]);
      var h := m.files[r.file].hunks[r.hunk];
      HunkIsExact(m.files[r.file].hunks, 0, 0, r.hunk);
      NumberInRange(h.lines, a.side, StartOn(h.header, a.side), r.line);
      HunkBeyond(m.files[r.file].hunks, 0, 0, a.side, r.hunk, r.line);
      assert Covers(m.files, a, r.file, r.hunk);
    }
    if i: nat, k: nat :| Covers(m.files, a, i, k) {
      assert Sound(m.files[i]);
      HunkIsExact(m.files[i].hunks, 0, 0, k);
      var h := m.files[i].hunks[k];
      var j := NumberFound(h.lines, a.side, StartOn(h.header, a.side), a.line);
      assert Names(m.files, a, Ref(i, k, j)) && Before(Ref(i, k, j), Ref(|m.files|, 0, 0));
    }
  }

  /** Every line of every hunk is found, on each side it is on, under its own number. */
  lemma EveryLineFound(m: Map, diffs: seq<FileDiff>, r: Ref, s: Side)
    requires Built(m, diffs) && Valid(m.files, r) && On(LineAt(m.files, r), s)
    ensures Lookup(m, Anchor(PathOn(m.files[r.file], s), s, NumberOn(LineAt(m.files, r), s))) ==
        Some(LineAt(m.files, r))
  {
    var a := Anchor(PathOn(m.files[r.file], s), s, NumberOn(LineAt(m.files, r), s));
    assert Names(m.files, a, r) && Before(r, Ref(|m.files|, 0, 0));
  }

  // ---- reviewable ----

  predicate ReadInFull(f: File) { f.status == Text || f.status == NoLines }

  method Reviewable(m: Map) returns (ok: bool)
    ensures ok <==> (forall i | 0 <= i < |m.files| :: ReadInFull(m.files[i])) && m.index != map[]
  {
    var reasons := 0;
    for i := 0 to |m.files|
      invariant reasons == 0 <==> forall j | 0 <= j < i :: ReadInFull(m.files[j])
      invariant reasons >= 0
    {
      if !(m.files[i].status == Text || m.files[i].status == NoLines) {
        reasons := reasons + 1;
      }
    }
    if reasons == 0 && |m.index| == 0 {
      reasons := reasons + 1;
    }
    ok := reasons == 0;
  }

  lemma TextHasLines(d: FileDiff)
    requires FileOf(d).status == Text
    ensures FileOf(d).hunks != [] && FileOf(d).hunks[0].lines != []
  {
    AcceptedIsExact(d.diff);
  }

  lemma TextOnly(d: FileDiff, parsed: Parsed)
    ensures FileFrom(d, parsed).hunks != [] ==> FileFrom(d, parsed).status == Text
  {}

  lemma CitableExactly(m: Map, diffs: seq<FileDiff>)
    requires Built(m, diffs)
    ensures m.index != map[] <==> exists i :: 0 <= i < |diffs| && FileOf(diffs[i]).status == Text
  {
    if m.index != map[] {
      var a :| a in m.index;
      var r := m.index[a];
      assert Names(m.files, a, r) && m.files[r.file] == FileOf(diffs[r.file]);
      TextOnly(diffs[r.file], DiffOf(diffs[r.file].diff));
    }
    if i :| 0 <= i < |diffs| && FileOf(diffs[i]).status == Text {
      TextHasLines(diffs[i]);
      assert m.files[i] == FileOf(diffs[i]);
      EveryLineFound(m, diffs, Ref(i, 0, 0), if m.files[i].hunks[0].lines[0].op == Removed then SideOld else SideNew);
    }
  }

  /** A map may be reviewed exactly when every file was read in full and one of them has text: a
      diff that could not be read is never an empty one. */
  lemma ReviewableExactly(m: Map, diffs: seq<FileDiff>)
    requires Built(m, diffs)
    ensures ((forall i | 0 <= i < |m.files| :: ReadInFull(m.files[i])) && m.index != map[]) <==>
      ((forall i | 0 <= i < |diffs| :: ReadInFull(FileOf(diffs[i])))
       && exists i :: 0 <= i < |diffs| && FileOf(diffs[i]).status == Text)
  {
    CitableExactly(m, diffs);
    assert forall i | 0 <= i < |diffs| :: m.files[i] == FileOf(diffs[i]);
  }
}
