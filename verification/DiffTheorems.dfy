/** The line map's parser reads exactly the diffs that count right: what it accepts is numbered as
    its headers say, and every such list of hunks, written out, is read back. */
module DiffTheorems {
  import opened Basics
  import opened DiffText
  import opened DiffMap

  // ---- the two sides ----

  datatype Side = SideNew | SideOld

  /** Whether a line exists on a side, and under which number. */
  predicate On(l: Line, s: Side) { if s == SideNew then l.op != Removed else l.op != Added }
  function NumberOn(l: Line, s: Side): nat { if s == SideNew then l.new_ else l.old_ }

  function StartOn(h: HunkHeader, s: Side): nat { if s == SideNew then h.newStart else h.oldStart }
  function LinesOn(h: HunkHeader, s: Side): nat { if s == SideNew then h.newLines else h.oldLines }

  function CountOn(ls: seq<Line>, s: Side): nat {
    if ls == [] then 0 else (if On(ls[0], s) then 1 else 0) + CountOn(ls[1..], s)
  }

  /** The lines carry consecutive numbers of a side, from start, and 0 where they are not on it. */
  predicate Numbered(ls: seq<Line>, s: Side, start: nat) {
    ls == [] ||
    (NumberOn(ls[0], s) == (if On(ls[0], s) then start else 0)
     && Numbered(ls[1..], s, start + if On(ls[0], s) then 1 else 0))
  }

  predicate Shown(ls: seq<Line>) { forall i | 0 <= i < |ls| :: Showable(ls[i].text) == ls[i].text }

  /** A hunk whose lines are the ones its header counts, numbered from where it says. */
  predicate Exact(h: Hunk, s: Side) {
    CountOn(h.lines, s) == LinesOn(h.header, s) && Numbered(h.lines, s, StartOn(h.header, s))
  }

  ghost predicate ReadsInRange(read: Reader) {
    forall s | read(s).Some? :: InRange(read(s).value)
  }

  predicate WellFormed(hs: seq<Hunk>, lastOld: nat, lastNew: nat) {
    hs == [] ||
    (&& InRange(hs[0].header) && HeaderError(hs[0].header, lastOld, lastNew) == None
     && Exact(hs[0], SideOld) && Exact(hs[0], SideNew) && Shown(hs[0].lines)
     && WellFormed(hs[1..], LastOld(lastOld, hs[0].header), LastNew(lastNew, hs[0].header)))
  }

  // ---- what is accepted is well formed ----

  lemma {:induction false} CountAppend(ls: seq<Line>, l: Line, s: Side)
    ensures CountOn(ls + [l], s) == CountOn(ls, s) + if On(l, s) then 1 else 0
  {
    if ls != [] {
      assert (ls + [l])[1..] == ls[1..] + [l];
      CountAppend(ls[1..], l, s);
    }
  }

  lemma {:induction false} NumberedAppend(ls: seq<Line>, l: Line, s: Side, start: nat)
    requires Numbered(ls, s, start) && NumberOn(l, s) == if On(l, s) then start + CountOn(ls, s) else 0
    ensures Numbered(ls + [l], s, start)
  {
    if ls != [] {
      assert (ls + [l])[1..] == ls[1..] + [l];
      NumberedAppend(ls[1..], l, s, start + if On(ls[0], s) then 1 else 0);
    }
  }

  /** A no-newline mark is about the line, not about its place. */
  lemma {:induction false} MarkKeeps(ls: seq<Line>, s: Side, start: nat)
    requires ls != []
    ensures CountOn(MarkLast(ls), s) == CountOn(ls, s)
    ensures Numbered(MarkLast(ls), s, start) == Numbered(ls, s, start)
  {
    if |ls| > 1 {
      assert MarkLast(ls)[1..] == MarkLast(ls[1..]);
      MarkKeeps(ls[1..], s, start + if On(ls[0], s) then 1 else 0);
    }
  }

  /** A walk through a hunk holds the lines it has passed, and still owes the rest of the count. */
  predicate Walking(w: Walk, h: HunkHeader) {
    && Numbered(w.lines, SideOld, h.oldStart) && Numbered(w.lines, SideNew, h.newStart) && Shown(w.lines)
    && w.oldN == h.oldStart + CountOn(w.lines, SideOld) && w.remOld + CountOn(w.lines, SideOld) == h.oldLines
    && w.newN == h.newStart + CountOn(w.lines, SideNew) && w.remNew + CountOn(w.lines, SideNew) == h.newLines
  }

  lemma ShowTwice(s: string)
    ensures Showable(Showable(s)) == Showable(s)
  {}

  lemma StepWalks(w: Walk, h: HunkHeader, line: string)
    requires Walking(w, h) && !Complete(w) && StepLine(w, line).Walked?
    ensures Walking(StepLine(w, line).walk, h)
  {
    var raw := if line == "" then " " else line;
    var x := StepLine(w, line).walk;
    if raw[0] == '\\' {
      MarkKeeps(w.lines, SideOld, h.oldStart);
      MarkKeeps(w.lines, SideNew, h.newStart);
    } else {
      var l := x.lines[|w.lines|];
      assert x.lines == w.lines + [l];
      ShowTwice(raw[1..]);
      CountAppend(w.lines, l, SideOld);
      CountAppend(w.lines, l, SideNew);
      NumberedAppend(w.lines, l, SideOld, h.oldStart);
      NumberedAppend(w.lines, l, SideNew, h.newStart);
    }
  }

  lemma {:induction false} MarkersWalk(w: Walk, h: HunkHeader, lines: seq<string>, i: nat)
    requires i <= |lines| && Walking(w, h)
    ensures Walking(MarkersFrom(w, lines, i).walk, h)
    decreases |lines| - i
  {
    if !(i == |lines| || !IsMarker(lines[i]) || w.lines == []) {
      MarkKeeps(w.lines, SideOld, h.oldStart);
      MarkKeeps(w.lines, SideNew, h.newStart);
      MarkersWalk(w.(lines := MarkLast(w.lines)), h, lines, i + 1);
    }
  }

  lemma {:induction false} WalkWalks(w: Walk, h: HunkHeader, lines: seq<string>, i: nat)
    requires i <= |lines| && Walking(w, h) && WalkFrom(w, lines, i).Body?
    ensures Walking(WalkFrom(w, lines, i).walk, h)
    decreases |lines| - i
  {
    if Complete(w) {
      MarkersWalk(w, h, lines, i);
    } else {
      StepWalks(w, h, lines[i]);
      WalkWalks(StepLine(w, lines[i]).walk, h, lines, i + 1);
    }
  }

  lemma HunkExact(h: HunkHeader, lines: seq<string>, i: nat, lastOld: nat, lastNew: nat)
    requires i <= |lines| && HunkUnder(h, lines, i, lastOld, lastNew).ReadHunk?
    ensures var r := HunkUnder(h, lines, i, lastOld, lastNew);
      && HeaderError(h, lastOld, lastNew) == None && r.hunk.header == h
      && Exact(r.hunk, SideOld) && Exact(r.hunk, SideNew) && Shown(r.hunk.lines)
      && r.lastOld == LastOld(lastOld, h) && r.lastNew == LastNew(lastNew, h)
  {
    assert Walking(Enter(h), h);
    WalkWalks(Enter(h), h, lines, i);
    WalkCounts(Enter(h), lines, i);
  }

  lemma {:induction false} HunksWellFormed(read: Reader, lines: seq<string>, i: nat, lastOld: nat, lastNew: nat)
    requires i <= |lines| && ReadsInRange(read) && HunksFrom(read, lines, i, lastOld, lastNew).Hunks?
    ensures WellFormed(HunksFrom(read, lines, i, lastOld, lastNew).hunks, lastOld, lastNew)
    decreases |lines| - i
  {
    if i < |lines| {
      var h := read(lines[i]).value;
      var r := HunkUnder(h, lines, i + 1, lastOld, lastNew);
      HunkExact(h, lines, i + 1, lastOld, lastNew);
      HunksWellFormed(read, lines, r.next, r.lastOld, r.lastNew);
      var rest := HunksFrom(read, lines, r.next, r.lastOld, r.lastNew).hunks;
      assert ([r.hunk] + rest)[1..] == rest;
    }
  }

  lemma {:induction false} PreambleWellFormed(read: Reader, lines: seq<string>, i: nat)
    requires i <= |lines| && ReadsInRange(read) && AfterPreamble(read, lines, i).Hunks?
    ensures WellFormed(AfterPreamble(read, lines, i).hunks, 0, 0)
    decreases |lines| - i
  {
    if i == |lines| || StartsHunk(lines[i]) {
      HunksWellFormed(read, lines, i, 0, 0);
    } else {
      PreambleWellFormed(read, lines, i + 1);
    }
  }

  /** Every diff that is accepted counts right. */
  lemma AcceptedIsExact(text: string)
    requires DiffOf(text).Hunks?
    ensures WellFormed(DiffOf(text).hunks, 0, 0)
  {
    if text != "" { PreambleWellFormed(HeaderOf, LinesOf(text), 0); }
  }

  // ---- what is well formed is accepted ----

  const NO_NEWLINE := "\\ No newline at end of file"

  function OpChar(op: Op): char {
    match op
    case Context => ' '
    case Added => '+'
    case Removed => '-'
  }

  function LineText(l: Line): seq<string> {
    [[OpChar(l.op)] + l.text] + if l.noEOL then [NO_NEWLINE] else []
  }

  function BodyText(ls: seq<Line>): seq<string> { if ls == [] then [] else LineText(ls[0]) + BodyText(ls[1..]) }

  type Writer = HunkHeader -> string

  /** A header this writer writes is one line that is no marker, and this reader reads it back. */
  ghost predicate ReadsBack(read: Reader, write: Writer) {
    forall h | InRange(h) :: read(write(h)) == Some(h) && !IsMarker(write(h))
  }

  function HunksText(write: Writer, hs: seq<Hunk>): seq<string> {
    if hs == [] then [] else [write(hs[0].header)] + (BodyText(hs[0].lines) + HunksText(write, hs[1..]))
  }

  /** What the rest of the walk must pass. */
  predicate Owes(w: Walk, ls: seq<Line>) {
    && CountOn(ls, SideOld) == w.remOld && CountOn(ls, SideNew) == w.remNew && Shown(ls)
    && Numbered(ls, SideOld, w.oldN) && Numbered(ls, SideNew, w.newN)
  }

  function Passed(w: Walk, ls: seq<Line>): Walk {
    Walk(w.oldN + CountOn(ls, SideOld), w.newN + CountOn(ls, SideNew), 0, 0, w.lines + ls)
  }

  /** After the walk's last line: nothing, or a line that marks nothing. */
  predicate EndsBody(rest: seq<string>) { rest == [] || !IsMarker(rest[0]) }

  /** The text stands at line i. */
  predicate At(lines: seq<string>, i: nat, text: seq<string>) {
    i + |text| <= |lines| && lines[i..i + |text|] == text
  }

  lemma AtSplits(lines: seq<string>, i: nat, a: seq<string>, b: seq<string>)
    requires At(lines, i, a + b)
    ensures At(lines, i, a) && At(lines, i + |a|, b)
  {
    assert lines[i..i + |a|] == lines[i..i + |a + b|][..|a|] == (a + b)[..|a|];
    assert lines[i + |a|..i + |a| + |b|] == lines[i..i + |a + b|][|a|..] == (a + b)[|a|..];
  }

  lemma AtHead(lines: seq<string>, i: nat, text: seq<string>)
    requires At(lines, i, text) && text != []
    ensures i < |lines| && lines[i] == text[0]
  {
    assert lines[i..i + |text|][0] == lines[i];
  }

  /** A marker marks the last line, inside a hunk or at its end. */
  lemma MarkedNext(x: Walk, lines: seq<string>, i: nat)
    requires i < |lines| && IsMarker(lines[i]) && x.lines != []
    ensures WalkFrom(x, lines, i) == WalkFrom(x.(lines := MarkLast(x.lines)), lines, i + 1)
  {}

  /** The walk after a line and its mark. */
  function Pass(w: Walk, l: Line): Walk
    requires (On(l, SideOld) ==> w.remOld > 0) && (On(l, SideNew) ==> w.remNew > 0)
  {
    var o, n := if On(l, SideOld) then 1 else 0, if On(l, SideNew) then 1 else 0;
    Walk(w.oldN + o, w.newN + n, w.remOld - o, w.remNew - n, w.lines + [l])
  }

  lemma PassOwes(w: Walk, l: Line, ls: seq<Line>)
    requires Owes(w, [l] + ls)
    ensures (On(l, SideOld) ==> w.remOld > 0) && (On(l, SideNew) ==> w.remNew > 0)
    ensures Owes(Pass(w, l), ls)
  {
    var all := [l] + ls;
    assert all[1..] == ls && all[0] == l;
    forall i | 0 <= i < |ls| ensures Showable(ls[i].text) == ls[i].text { assert all[i + 1] == ls[i]; }
  }

  lemma StepText(w: Walk, l: Line, ls: seq<Line>)
    requires Owes(w, [l] + ls)
    ensures !Complete(w) && (On(l, SideOld) ==> w.remOld > 0) && (On(l, SideNew) ==> w.remNew > 0)
    ensures StepLine(w, [OpChar(l.op)] + l.text) == Walked(Pass(w, l.(noEOL := false)))
  {
    var all := [l] + ls;
    assert all[1..] == ls && all[0] == l;
    assert ([OpChar(l.op)] + l.text)[1..] == l.text;
  }

  lemma LineRead(w: Walk, l: Line, ls: seq<Line>, lines: seq<string>, i: nat)
    requires Owes(w, [l] + ls) && At(lines, i, LineText(l))
    ensures (On(l, SideOld) ==> w.remOld > 0) && (On(l, SideNew) ==> w.remNew > 0)
    ensures WalkFrom(w, lines, i) == WalkFrom(Pass(w, l), lines, i + |LineText(l)|)
  {
    StepText(w, l, ls);
    AtHead(lines, i, LineText(l));
    if l.noEOL {
      AtSplits(lines, i, [[OpChar(l.op)] + l.text], [NO_NEWLINE]);
      AtHead(lines, i + 1, [NO_NEWLINE]);
      var x := Pass(w, l.(noEOL := false));
      MarkedNext(x, lines, i + 1);
      assert MarkLast(x.lines) == w.lines + [l];
    }
  }

  lemma PassedStep(w: Walk, l: Line, rest: seq<Line>)
    requires Owes(w, [l] + rest)
    ensures (On(l, SideOld) ==> w.remOld > 0) && (On(l, SideNew) ==> w.remNew > 0)
    ensures Passed(Pass(w, l), rest) == Passed(w, [l] + rest)
  {
    PassOwes(w, l, rest);
    assert ([l] + rest)[1..] == rest;
    assert w.lines + [l] + rest == w.lines + ([l] + rest);
  }

  lemma BodyEnds(w: Walk, lines: seq<string>, i: nat)
    requires i <= |lines| && Complete(w) && EndsBody(lines[i..])
    ensures WalkFrom(w, lines, i) == Body(Passed(w, []), i)
  {
    assert w.lines + [] == w.lines;
    assert i < |lines| ==> lines[i..][0] == lines[i];
  }

  lemma {:induction false} BodyRead(w: Walk, ls: seq<Line>, lines: seq<string>, i: nat)
    requires Owes(w, ls) && At(lines, i, BodyText(ls)) && EndsBody(lines[i + |BodyText(ls)|..])
    ensures WalkFrom(w, lines, i) == Body(Passed(w, ls), i + |BodyText(ls)|)
    decreases |ls|
  {
    if ls == [] {
      BodyEnds(w, lines, i);
    } else {
      BodySplits(ls, lines, i);
      LineRead(w, ls[0], ls[1..], lines, i);
      PassOwes(w, ls[0], ls[1..]);
      PassedStep(w, ls[0], ls[1..]);
      BodyRead(Pass(w, ls[0]), ls[1..], lines, i + |LineText(ls[0])|);
    }
  }

  lemma BodySplits(ls: seq<Line>, lines: seq<string>, i: nat)
    requires ls != [] && At(lines, i, BodyText(ls))
    ensures ls == [ls[0]] + ls[1..] && |BodyText(ls)| == |LineText(ls[0])| + |BodyText(ls[1..])|
    ensures At(lines, i, LineText(ls[0])) && At(lines, i + |LineText(ls[0])|, BodyText(ls[1..]))
  {
    AtSplits(lines, i, LineText(ls[0]), BodyText(ls[1..]));
  }

  lemma RestEndsBody(read: Reader, write: Writer, hs: seq<Hunk>)
    requires ReadsBack(read, write) && (hs != [] ==> InRange(hs[0].header))
    ensures EndsBody(HunksText(write, hs))
  {
    if hs != [] { assert HunksText(write, hs)[0] == write(hs[0].header); }
  }

  lemma HunkUnderRead(h: Hunk, lines: seq<string>, i: nat, lastOld: nat, lastNew: nat)
    requires HeaderError(h.header, lastOld, lastNew) == None && Owes(Enter(h.header), h.lines)
    requires At(lines, i, BodyText(h.lines)) && EndsBody(lines[i + |BodyText(h.lines)|..])
    ensures HunkUnder(h.header, lines, i, lastOld, lastNew) ==
      ReadHunk(h, i + |BodyText(h.lines)|, LastOld(lastOld, h.header), LastNew(lastNew, h.header))
  {
    BodyRead(Enter(h.header), h.lines, lines, i);
    assert [] + h.lines == h.lines;
  }

  lemma HunkRead(read: Reader, h: Hunk, lines: seq<string>, i: nat, lastOld: nat, lastNew: nat)
    requires i < |lines| && read(lines[i]) == Some(h.header)
    requires HeaderError(h.header, lastOld, lastNew) == None && Owes(Enter(h.header), h.lines)
    requires At(lines, i + 1, BodyText(h.lines)) && EndsBody(lines[i + 1 + |BodyText(h.lines)|..])
    ensures HunkAt(read, lines, i, lastOld, lastNew) ==
      ReadHunk(h, i + 1 + |BodyText(h.lines)|, LastOld(lastOld, h.header), LastNew(lastNew, h.header))
  {
    HunkUnderRead(h, lines, i + 1, lastOld, lastNew);
  }

  lemma HunksSplit(write: Writer, hs: seq<Hunk>, lines: seq<string>, i: nat)
    requires hs != [] && i <= |lines| && lines[i..] == HunksText(write, hs)
    ensures i < |lines| && lines[i] == write(hs[0].header) && At(lines, i + 1, BodyText(hs[0].lines))
    ensures lines[i + 1 + |BodyText(hs[0].lines)|..] == HunksText(write, hs[1..])
  {
    var head, body, rest := [write(hs[0].header)], BodyText(hs[0].lines), HunksText(write, hs[1..]);
    assert lines[i..i + |HunksText(write, hs)|] == HunksText(write, hs);
    assert HunksText(write, hs) == head + (body + rest);
    AtSplits(lines, i, head, body + rest);
    AtSplits(lines, i + 1, body, rest);
    AtHead(lines, i, head);
  }

  lemma WellFormedFirst(hs: seq<Hunk>, lastOld: nat, lastNew: nat)
    requires hs != [] && WellFormed(hs, lastOld, lastNew)
    ensures InRange(hs[0].header) && HeaderError(hs[0].header, lastOld, lastNew) == None
        && Owes(Enter(hs[0].header), hs[0].lines)
    ensures WellFormed(hs[1..], LastOld(lastOld, hs[0].header), LastNew(lastNew, hs[0].header))
    ensures |hs| > 1 ==> InRange(hs[1].header)
  {}

  lemma FirstThenRest(read: Reader, lines: seq<string>, i: nat, lastOld: nat, lastNew: nat, r: Read, rest: seq<Hunk>)
    requires i < |lines| && r.ReadHunk? && r == HunkAt(read, lines, i, lastOld, lastNew)
    requires HunksFrom(read, lines, r.next, r.lastOld, r.lastNew) == Hunks(rest)
    ensures HunksFrom(read, lines, i, lastOld, lastNew) == Hunks([r.hunk] + rest)
  {}

  lemma {:induction false} HunksRead(read: Reader, write: Writer, hs: seq<Hunk>, lines: seq<string>, i: nat,
                                     lastOld: nat, lastNew: nat)
    requires ReadsBack(read, write) && i <= |lines| && lines[i..] == HunksText(write, hs)
    requires WellFormed(hs, lastOld, lastNew)
    ensures HunksFrom(read, lines, i, lastOld, lastNew) == Hunks(hs)
    decreases |hs|
  {
    if hs != [] {
      var h, rest := hs[0], hs[1..];
      WellFormedFirst(hs, lastOld, lastNew);
      HunksSplit(write, hs, lines, i);
      RestEndsBody(read, write, rest);
      HunkRead(read, h, lines, i, lastOld, lastNew);
      var r := HunkAt(read, lines, i, lastOld, lastNew);
      HunksRead(read, write, rest, lines, r.next, r.lastOld, r.lastNew);
      FirstThenRest(read, lines, i, lastOld, lastNew, r, rest);
      assert hs == [h] + rest;
    }
  }

  // ---- as text ----

  /** A line that splitting and trimming leave alone. */
  predicate Safe(l: string) { OneLine(l) && !HasSuffix(l, "\r") }

  predicate AllSafe(lines: seq<string>) { forall i | 0 <= i < |lines| :: Safe(lines[i]) }

  /** Sections that fit on their header's line. */
  predicate Plain(hs: seq<Hunk>) { forall i | 0 <= i < |hs| :: Safe(hs[i].header.section) }

  lemma SafeConcat(a: string, b: string)
    requires OneLine(a) && Safe(b) && (b == "" ==> Safe(a))
    ensures Safe(a + b)
  {
    if b != "" { assert (a + b)[|a + b| - 1] == b[|b| - 1]; }
    assert a + "" == a;
  }

  lemma DigitsSafe(s: string)
    requires AllDigits(s) && s != ""
    ensures Safe(s)
  {
    assert s[|s| - 1..] == [s[|s| - 1]];
  }

  lemma RangeSafe(r: Range)
    ensures Safe(RangeText(r))
  {
    DigitsSafe(Decimal(r.start));
    DigitsSafe(Decimal(r.count));
    SafeConcat(Decimal(r.start) + ",", Decimal(r.count));
  }

  lemma SectionSafe(section: string)
    requires Safe(section)
    ensures Safe(" @@" + SectionText(section))
  {
    if section == "" {
      assert " @@" + "" == " @@";
    } else {
      SafeConcat(" ", section);
      SafeConcat(" @@", " " + section);
    }
  }

  lemma HeaderSafe(h: HunkHeader)
    requires Safe(h.section)
    ensures Safe(HeaderText(h))
  {
    SectionSafe(h.section);
    var close := " @@" + SectionText(h.section);
    RangeSafe(Range(h.oldStart, h.oldLines));
    RangeSafe(Range(h.newStart, h.newLines));
    var afterOld := RangeText(Range(h.newStart, h.newLines)) + close;
    SafeConcat(RangeText(Range(h.newStart, h.newLines)), close);
    SafeConcat(" +", afterOld);
    SafeConcat(RangeText(Range(h.oldStart, h.oldLines)), " +" + afterOld);
    SafeConcat("@@ -", RangeText(Range(h.oldStart, h.oldLines)) + (" +" + afterOld));
  }

  lemma ShownSafe(s: string)
    requires Showable(s) == s
    ensures Safe(s)
  {
    forall i | 0 <= i < |s| ensures s[i] != '\n' && s[i] != '\r' { assert Showable(s)[i] == ShowChar(s[i]); }
    if s != "" { assert s[|s| - 1..] == [s[|s| - 1]]; }
  }

  lemma MarkerSafe()
    ensures Safe(NO_NEWLINE)
  {
    var n := |NO_NEWLINE|;
    assert NO_NEWLINE[n - 1..] == "e";
  }

  lemma {:induction false} BodySafe(ls: seq<Line>)
    requires Shown(ls)
    ensures AllSafe(BodyText(ls))
  {
    if ls != [] {
      ShownSafe(ls[0].text);
      SafeConcat([OpChar(ls[0].op)], ls[0].text);
      MarkerSafe();
      forall i | 0 <= i < |ls[1..]| ensures Showable(ls[1..][i].text) == ls[1..][i].text {
        assert ls[1..][i] == ls[i + 1];
      }
      BodySafe(ls[1..]);
    }
  }

  lemma {:induction false} TextSafe(hs: seq<Hunk>, lastOld: nat, lastNew: nat)
    requires WellFormed(hs, lastOld, lastNew) && Plain(hs)
    ensures AllSafe(HunksText(HeaderText, hs))
  {
    if hs != [] {
      HeaderSafe(hs[0].header);
      BodySafe(hs[0].lines);
      forall i | 0 <= i < |hs[1..]| ensures Safe(hs[1..][i].header.section) { assert hs[1..][i] == hs[i + 1]; }
      TextSafe(hs[1..], LastOld(lastOld, hs[0].header), LastNew(lastNew, hs[0].header));
    }
  }

  lemma HeadersReadBack()
    ensures ReadsBack(HeaderOf, HeaderText)
  {
    forall h | InRange(h) ensures HeaderOf(HeaderText(h)) == Some(h) && !IsMarker(HeaderText(h)) {
      HeaderRoundTrip(h);
      HeaderMarks(h);
    }
  }

  lemma HeaderMarks(h: HunkHeader)
    ensures StartsHunk(HeaderText(h)) && !IsMarker(HeaderText(h))
  {
    assert HeaderText(h)[0] == '@' && HeaderText(h)[1] == '@';
    assert HeaderText(h)[..2] == "@@";
    assert HeaderText(h)[..1] == ['@'];
  }

  /** The unified diff of these hunks. */
  function Written(hs: seq<Hunk>): string
    requires hs != []
  {
    Join(HunksText(HeaderText, hs)) + "\n"
  }

  /** Every well-formed list of hunks, written as a diff, is read back line by line. */
  lemma DiffRoundTrip(hs: seq<Hunk>)
    requires hs != [] && WellFormed(hs, 0, 0) && Plain(hs)
    ensures DiffOf(Written(hs)) == Hunks(hs)
  {
    var lines := HunksText(HeaderText, hs);
    TextSafe(hs, 0, 0);
    forall l | l in lines ensures OneLine(l) && !HasSuffix(l, "\r") { assert Safe(l); }
    LinesOfJoin(lines);
    assert lines[0..] == lines;
    HeaderMarks(hs[0].header);
    assert lines[0] == HeaderText(hs[0].header);
    HeadersReadBack();
    HunksRead(HeaderOf, HeaderText, hs, lines, 0, 0, 0);
  }
}
