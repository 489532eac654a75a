/** The facts of a fix's change, computed from its base and patched files. */
module DiffFacts {
  import opened EditSpec
  import opened LineDiffSpec
  import LineDiff

  /** Lines keep their terminator, so a changed final newline changes the last line. */
  function SplitLines(s: string): seq<string> {
    if s == "" then [] else
      var rest := SplitLines(s[1..]);
      if s[0] == '\n' || rest == [] then [[s[0]]] + rest
      else [[s[0]] + rest[0]] + rest[1..]
  }

  function Concat(lines: seq<string>): string { if lines == [] then "" else lines[0] + Concat(lines[1..]) }

  /** The lines are the whole text. */
  lemma {:induction false} LinesRejoin(s: string)
    ensures Concat(SplitLines(s)) == s
  {
    if s != "" {
      LinesRejoin(s[1..]);
      var rest := SplitLines(s[1..]);
      assert s == [s[0]] + s[1..];
      if s[0] == '\n' || rest == [] {
        assert ([[s[0]]] + rest)[1..] == rest;
      } else {
        assert ([[s[0]] + rest[0]] + rest[1..])[1..] == rest[1..];
        assert [s[0]] + rest[0] + Concat(rest[1..]) == [s[0]] + Concat(rest);
      }
    }
  }

  datatype FileFacts = FileFacts(path: string, removed: seq<string>, added: seq<string>, exact: bool)

  datatype Facts = Facts(files: seq<FileFacts>, linesAdded: nat, linesRemoved: nat, newBytes: nat, edits: nat)

  /** What a file's facts say: a diff of its lines, a smallest one when it is said to be exact, the whole
      differing region otherwise. */
  ghost predicate FactsOf(f: Patched, x: FileFacts) {
    && x.path == f.path && Diff(SplitLines(f.base), SplitLines(f.content), x.removed, x.added)
    && (x.exact ==> |x.removed| + |x.added| == Fewest(SplitLines(f.base), SplitLines(f.content)))
    && (x.exact <==>
          Fewest(SplitLines(f.base), SplitLines(f.content)) <= LineDiff.MAX_EXACT_DIFF_LINES
          || x.removed == [] || x.added == [])
    && (!x.exact ==> LineDiff.Region(SplitLines(f.base), SplitLines(f.content), x.removed, x.added))
  }

  function Sum<T>(weight: T -> nat, s: seq<T>): nat {
    if s == [] then 0 else Sum(weight, s[..|s| - 1]) + weight(s[|s| - 1])
  }

  function AddedOf(x: FileFacts): nat { |x.added| }
  function RemovedOf(x: FileFacts): nat { |x.removed| }
  function BytesOf(f: Patched): nat { f.newBytes }
  function EditsIn(f: Patched): nat { f.edits }

  ghost predicate Matched<S, T>(fits: (S, T) -> bool, s: seq<S>, t: seq<T>) {
    |s| == |t| && forall i | 0 <= i < |s| :: fits(s[i], t[i])
  }

  lemma SumSnoc<T>(weight: T -> nat, s: seq<T>, x: T)
    ensures Sum(weight, s + [x]) == Sum(weight, s) + weight(x)
  {
    assert (s + [x])[..|s|] == s;
  }

  lemma SumStep<T>(weight: T -> nat, s: seq<T>, i: nat)
    requires i < |s|
    ensures Sum(weight, s[..i + 1]) == Sum(weight, s[..i]) + weight(s[i])
  {
    assert s[..i + 1][..i] == s[..i];
  }

  method DiffFile(f: Patched) returns (x: FileFacts)
    ensures FactsOf(f, x)
  {
    var removed, added, exact := LineDiff.LineDiff(SplitLines(f.base), SplitLines(f.content));
    x := FileFacts(f.path, removed, added, exact);
  }

  method ComputeDiffFacts(files: seq<Patched>) returns (d: Facts)
    ensures Matched(FactsOf, files, d.files)
    ensures d.linesAdded == Sum(AddedOf, d.files) && d.linesRemoved == Sum(RemovedOf, d.files)
    ensures d.newBytes == Sum(BytesOf, files) && d.edits == Sum(EditsIn, files)
  {
    ghost var fits := FactsOf;
    d := Facts([], 0, 0, 0, 0);
    for i := 0 to |files|
      invariant Matched(fits, files[..i], d.files)
      invariant d.linesAdded == Sum(AddedOf, d.files) && d.linesRemoved == Sum(RemovedOf, d.files)
      invariant d.newBytes == Sum(BytesOf, files[..i]) && d.edits == Sum(EditsIn, files[..i])
    {
      var pf := files[i];
      var x := DiffFile(pf);
      SumSnoc(AddedOf, d.files, x);
      SumSnoc(RemovedOf, d.files, x);
      SumStep(BytesOf, files, i);
      SumStep(EditsIn, files, i);
      d := Facts(d.files + [x], d.linesAdded + |x.added|, d.linesRemoved + |x.removed|, d.newBytes + pf.newBytes,
                 d.edits + pf.edits);
    }
    assert files[..|files|] == files;
  }

  lemma {:induction false} NothingChanged(a: seq<string>, b: seq<string>)
    requires Diff(a, b, [], [])
    ensures a == b
    decreases |a|
  {
    if a != [] { NothingChanged(a[1..], b[1..]); }
  }

  /** A file that may be committed always counts at least one changed line, exact or not, and its
      line counts differ by exactly what was added less what was removed. */
  lemma CommittedFilesCount(f: Patched, x: FileFacts)
    requires EndRule(f).None? && FactsOf(f, x)
    ensures |x.removed| + |x.added| >= 1
    ensures |x.added| - |x.removed| == |SplitLines(f.content)| - |SplitLines(f.base)|
  {
    DiffBounds(SplitLines(f.base), SplitLines(f.content), x.removed, x.added);
    if x.removed == [] && x.added == [] {
      NothingChanged(SplitLines(f.base), SplitLines(f.content));
      LinesRejoin(f.base);
      LinesRejoin(f.content);
      assert false;
    }
  }
}
