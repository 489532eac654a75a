/** The line map itself: one file's diff, the index of every line that can be cited, and lookups. */
module DiffIndex {
  import opened DiffMap
  import opened Listing
  import DiffParse

  datatype FileDiff = FileDiff(
    oldPath: string, newPath: string, newFile: bool, renamedFile: bool, deletedFile: bool,
    diff: string, tooLarge: bool, collapsed: bool)

  datatype Status = Text | NoLines | TooLarge | Collapsed | BinaryFile | NoText | MalformedFile

  datatype File = File(
    oldPath: string, newPath: string, newFile: bool, renamed: bool, deleted: bool,
    status: Status, hunks: seq<Hunk>, added: nat, removed: nat)

  // ---- one file ----

  predicate IsAdded(l: Line) { l.op == Added }
  predicate IsRemoved(l: Line) { l.op == Removed }

  /** Every line of the hunks, in order. */
  function Flat(hs: seq<Hunk>): seq<Line> {
    if hs == [] then [] else Flat(hs[..|hs| - 1]) + hs[|hs| - 1].lines
  }

  /** A line on a side the file does not have. */
  function Stray(newFile: bool, deleted: bool): Line -> bool {
    (l: Line) => (newFile && l.op != Added) || (deleted && l.op != Removed)
  }

  function Without(d: FileDiff, s: Status): File {
    File(d.oldPath, d.newPath, d.newFile, d.renamedFile, d.deletedFile, s, [], 0, 0)
  }

  function FileOf(d: FileDiff): File { FileFrom(d, DiffOf(d.diff)) }

  /** The file, given what its text parses to. */
  function FileFrom(d: FileDiff, parsed: Parsed): File {
    if d.tooLarge then Without(d, TooLarge)
    else if d.collapsed then Without(d, Collapsed)
    else if d.newFile && d.deletedFile then Without(d, MalformedFile)
    else match parsed
      case Malformed(_) => Without(d, MalformedFile)
      case Binary => Without(d, BinaryFile)
      case Hunks(hs) =>
        if hs == [] then
          if d.renamedFile && !d.newFile && !d.deletedFile && d.oldPath != d.newPath && d.diff == ""
            then Without(d, NoLines)
          else Without(d, NoText)
        else if Any(Stray(d.newFile, d.deletedFile), Flat(hs)) then Without(d, MalformedFile)
        else Without(d, Text).(hunks := hs, added := Count(IsAdded, Flat(hs)), removed := Count(IsRemoved, Flat(hs)))
  }

  lemma FlatStep(hs: seq<Hunk>, i: nat, j: nat)
    requires i < |hs| && j < |hs[i].lines|
    ensures Flat(hs[..i]) + hs[i].lines[..j + 1] == Flat(hs[..i]) + hs[i].lines[..j] + [hs[i].lines[j]]
  {}

  lemma FlatNext(hs: seq<Hunk>, i: nat)
    requires i < |hs|
    ensures Flat(hs[..i]) + hs[i].lines[..0] == Flat(hs[..i])
    ensures Flat(hs[..i]) + hs[i].lines[..|hs[i].lines|] == Flat(hs[..i + 1])
  {
    PrefixStep(hs, i);
    assert hs[i].lines[..|hs[i].lines|] == hs[i].lines;
  }

  lemma Append<T>(holds: T -> bool, s: seq<T>, x: T)
    ensures Any(holds, s + [x]) == (Any(holds, s) || holds(x))
    ensures Count(holds, s + [x]) == Count(holds, s) + if holds(x) then 1 else 0
  {
    assert (s + [x])[..|s|] == s;
  }

  lemma {:induction false} AnyPrefix<T>(holds: T -> bool, s: seq<T>, t: seq<T>)
    requires Any(holds, s)
    ensures Any(holds, s + t)
  {
    if t == [] {
      assert s + t == s;
    } else {
      assert s + t == s + t[..|t| - 1] + [t[|t| - 1]];
      AnyPrefix(holds, s, t[..|t| - 1]);
      Append(holds, s + t[..|t| - 1], t[|t| - 1]);
    }
  }

  lemma {:induction false} FlatPrefix(hs: seq<Hunk>, i: nat) returns (more: seq<Line>)
    requires i <= |hs|
    ensures Flat(hs) == Flat(hs[..i]) + more
  {
    if i == |hs| {
      assert hs[..i] == hs;
      more := [];
    } else {
      var m := FlatPrefix(hs[..|hs| - 1], i);
      assert hs[..|hs| - 1][..i] == hs[..i];
      more := m + hs[|hs| - 1].lines;
    }
  }

  /** A hunk line by line: the counts so far, unless a line is on a side the file does not have. */
  method CountLines(d: FileDiff, hs: seq<Hunk>) returns (stray: bool, added: nat, removed: nat)
    ensures stray == Any(Stray(d.newFile, d.deletedFile), Flat(hs))
    ensures !stray ==> added == Count(IsAdded, Flat(hs)) && removed == Count(IsRemoved, Flat(hs))
  {
    added, removed := 0, 0;
    ghost var bad := Stray(d.newFile, d.deletedFile);
    for i := 0 to |hs|
      invariant !Any(bad, Flat(hs[..i])) && added == Count(IsAdded, Flat(hs[..i]))
        && removed == Count(IsRemoved, Flat(hs[..i]))
    {
      FlatNext(hs, i);
      for j := 0 to |hs[i].lines|
        invariant var seen := Flat(hs[..i]) + hs[i].lines[..j];
          !Any(bad, seen) && added == Count(IsAdded, seen) && removed == Count(IsRemoved, seen)
      {
        var l := hs[i].lines[j];
        ghost var seen := Flat(hs[..i]) + hs[i].lines[..j];
        FlatStep(hs, i, j);
        Append(bad, seen, l);
        Append(IsAdded, seen, l);
        Append(IsRemoved, seen, l);
        match l.op {
          case Added => added := added + 1;
          case Removed => removed := removed + 1;
          case Context =>
        }
        if (d.newFile && l.op != Added) || (d.deletedFile && l.op != Removed) {
          StrayFound(hs, i, j, bad);
          return true, 0, 0;
        }
      }
    }
    assert hs[..|hs|] == hs;
    stray := false;
  }

  lemma StrayFound(hs: seq<Hunk>, i: nat, j: nat, bad: Line -> bool)
    requires i < |hs| && j < |hs[i].lines| && Any(bad, Flat(hs[..i]) + hs[i].lines[..j + 1])
    ensures Any(bad, Flat(hs))
  {
    var more := FlatPrefix(hs, i + 1);
    FlatNext(hs, i);
    var seen, rest := Flat(hs[..i]) + hs[i].lines[..j + 1], hs[i].lines[j + 1..];
    assert hs[i].lines[..j + 1] + rest == hs[i].lines;
    AnyPrefix(bad, seen, rest);
    assert seen + rest == Flat(hs[..i + 1]);
    AnyPrefix(bad, Flat(hs[..i + 1]), more);
  }

  method ParseFile(d: FileDiff) returns (f: File)
    ensures f == FileOf(d)
  {
    f := Without(d, Text);
    if d.tooLarge {
      return f.(status := TooLarge);
    }
    if d.collapsed {
      return f.(status := Collapsed);
    }
    if d.newFile && d.deletedFile {
      return f.(status := MalformedFile);
    }
    var parsed := DiffParse.ParseDiff(d.diff);
    match parsed {
      case Malformed(_) => f := f.(status := MalformedFile);
      case Binary => f := f.(status := BinaryFile);
      case Hunks(hs) =>
        if |hs| == 0 {
          var renameOnly := d.renamedFile && !d.newFile && !d.deletedFile && d.oldPath != d.newPath && d.diff == "";
          f := f.(status := if renameOnly then NoLines else NoText);
        } else {
          var stray, added, removed := CountLines(d, hs);
          f := if stray then f.(status := MalformedFile) else f.(hunks := hs, added := added, removed := removed);
        }
    }
  }
}
