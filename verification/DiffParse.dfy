/** The diff parser, loop by loop. */
module DiffParse {
  import opened DiffText
  import opened DiffMap

  /** Reads the body of one hunk. */
  method ParseBody(h: HunkHeader, lines: seq<string>, start: nat) returns (b: Body)
    requires start <= |lines| && (h.oldLines > 0 || h.newLines > 0)
    ensures b == WalkFrom(Enter(h), lines, start)
  {
    var i := start;
    var oldN, newN := h.oldStart, h.newStart;
    var remOld, remNew := h.oldLines, h.newLines;
    var out: seq<Line> := [];
    while remOld > 0 || remNew > 0
      invariant i <= |lines|
      invariant WalkFrom(Walk(oldN, newN, remOld, remNew, out), lines, i) == WalkFrom(Enter(h), lines, start)
      invariant remOld == 0 && remNew == 0 ==> out != []
      decreases |lines| - i
    {
      if i >= |lines| {
        return NoBody(EndsEarly);
      }
      ghost var before := Walk(oldN, newN, remOld, remNew, out);
      var raw := lines[i];
      i := i + 1;
      if raw == "" {
        raw := " ";
      }
      var body := Showable(raw[1..]);
      match raw[0] {
        case ' ' =>
          if remOld == 0 || remNew == 0 {
            return NoBody(ContextPastCount);
          }
          out := out + [Line(oldN, newN, Context, body, false)];
          oldN, newN, remOld, remNew := oldN + 1, newN + 1, remOld - 1, remNew - 1;
        case '-' =>
          if remOld == 0 {
            return NoBody(RemovedPastCount);
          }
          out := out + [Line(oldN, 0, Removed, body, false)];
          oldN, remOld := oldN + 1, remOld - 1;
        case '+' =>
          if remNew == 0 {
            return NoBody(AddedPastCount);
          }
          out := out + [Line(0, newN, Added, body, false)];
          newN, remNew := newN + 1, remNew - 1;
        case '\\' =>
          if |out| == 0 {
            return NoBody(MarkerFirst);
          }
          out := out[|out| - 1 := out[|out| - 1].(noEOL := true)];
        case _ =>
          return NoBody(UnknownPrefix);
      }
      assert StepLine(before, lines[i - 1]) == Walked(Walk(oldN, newN, remOld, remNew, out));
    }
    while i < |lines| && IsMarker(lines[i])
      invariant i <= |lines| && out != []
      invariant MarkersFrom(Walk(oldN, newN, 0, 0, out), lines, i) == WalkFrom(Enter(h), lines, start)
    {
      out := out[|out| - 1 := out[|out| - 1].(noEOL := true)];
      i := i + 1;
    }
    return Body(Walk(oldN, newN, 0, 0, out), i);
  }

  lemma OnwardStep(hs: seq<Hunk>, h: Hunk, rest: Parsed)
    ensures Onward(hs, Onward([h], rest)) == Onward(hs + [h], rest)
  {
    if rest.Hunks? { assert hs + ([h] + rest.hunks) == hs + [h] + rest.hunks; }
  }

  /** One hunk: its header's checks against the hunks before it, and its body. */
  method ParseHunk(h: HunkHeader, lines: seq<string>, i: nat, lastOld: nat, lastNew: nat) returns (r: Read)
    requires i <= |lines|
    ensures r == HunkUnder(h, lines, i, lastOld, lastNew)
  {
    var e := HeaderError(h, lastOld, lastNew);
    if e.Some? {
      return ReadError(e.value);
    }
    var b := ParseBody(h, lines, i);
    if b.NoBody? {
      return ReadError(b.error);
    }
    WalkCounts(Enter(h), lines, i);
    var nextOld, nextNew := lastOld, lastNew;
    if h.oldLines > 0 {
      nextOld := b.walk.oldN - 1;
    }
    if h.newLines > 0 {
      nextNew := b.walk.newN - 1;
    }
    return ReadHunk(Hunk(h, b.walk.lines), b.next, nextOld, nextNew);
  }

  /** The hunks from line start to the end, in order. */
  method ParseHunks(read: Reader, lines: seq<string>, start: nat) returns (r: Parsed)
    requires start <= |lines|
    ensures r == HunksFrom(read, lines, start, 0, 0)
  {
    var i := start;
    var hunks: seq<Hunk> := [];
    var lastOld: nat, lastNew: nat := 0, 0;
    while i < |lines|
      invariant i <= |lines|
      invariant Onward(hunks, HunksFrom(read, lines, i, lastOld, lastNew)) == HunksFrom(read, lines, start, 0, 0)
    {
      var header := read(lines[i]);
      if header.None? {
        return Malformed(BadHeader);
      }
      var next := ParseHunk(header.value, lines, i + 1, lastOld, lastNew);
      if next.ReadError? {
        return Malformed(next.error);
      }
      OnwardStep(hunks, next.hunk, HunksFrom(read, lines, next.next, next.lastOld, next.lastNew));
      hunks := hunks + [next.hunk];
      i, lastOld, lastNew := next.next, next.lastOld, next.lastNew;
    }
    return Hunks(hunks);
  }

  method ParseDiff(text: string) returns (r: Parsed)
    ensures r == DiffOf(text)
  {
    if text == "" {
      return Hunks([]);
    }
    var lines := LinesOf(text);
    var i := 0;
    while i < |lines| && !StartsHunk(lines[i])
      invariant i <= |lines|
      invariant AfterPreamble(HeaderOf, lines, i) == DiffOf(text)
    {
      if SaysBinary(lines[i]) {
        return Binary;
      }
      if !IsFileHeader(lines[i]) {
        return Malformed(TextBeforeHunk);
      }
      i := i + 1;
    }
    r := ParseHunks(HeaderOf, lines, i);
  }
}
