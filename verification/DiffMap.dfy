/** The line map of a merge request's diff: its lines, and the strict parse of a unified diff.
    DiffParse holds the parser as it is written and proves it gives this answer. */
module DiffMap {
  import opened Basics
  import opened DiffText

  datatype Op = Context | Added | Removed

  /** old is 0 on an added line, new_ is 0 on a removed one. */
  datatype Line = Line(old_: nat, new_: nat, op: Op, text: string, noEOL: bool)

  datatype Hunk = Hunk(header: HunkHeader, lines: seq<Line>)

  datatype DiffError =
    | TextBeforeHunk | BadHeader | EmptyHunk | StartsAtZero | OutOfOrder | PastMaxLine
    | EndsEarly | ContextPastCount | RemovedPastCount | AddedPastCount | MarkerFirst | UnknownPrefix

  datatype Parsed = Hunks(hunks: seq<Hunk>) | Binary | Malformed(error: DiffError)

  // ---- text as it is shown ----

  /** A line break becomes a space; another control character, or one that reorders text, "?". */
  function ShowChar(c: char): char {
    if c == '\t' then c
    else if c in {'\r', '\n', '\U{b}', '\U{c}', '\U{85}', '\U{2028}', '\U{2029}'} then ' '
    else if c < ' ' || '\U{7f}' <= c <= '\U{9f}' || '\U{202a}' <= c <= '\U{202e}'
      || '\U{2066}' <= c <= '\U{2069}' then '?'
    else c
  }

  function Showable(s: string): (r: string)
    ensures |r| == |s|
  {
    seq(|s|, i requires 0 <= i < |s| => ShowChar(s[i]))
  }

  // ---- before the first hunk ----

  const PREAMBLE := [
    "diff --git ", "index ", "--- ", "+++ ", "new file mode ", "deleted file mode ",
    "old mode ", "new mode ", "similarity index ", "dissimilarity index ", "rename from ", "rename to "]

  predicate IsFileHeader(l: string) { exists i | 0 <= i < |PREAMBLE| :: HasPrefix(l, PREAMBLE[i]) }

  predicate SaysBinary(l: string) {
    l == "GIT binary patch" || (HasPrefix(l, "Binary files ") && HasSuffix(l, " differ"))
  }

  predicate StartsHunk(l: string) { HasPrefix(l, "@@") }

  // ---- a hunk's body ----

  /** Where a walk through a hunk stands. */
  datatype Walk = Walk(oldN: nat, newN: nat, remOld: nat, remNew: nat, lines: seq<Line>)

  function Enter(h: HunkHeader): Walk { Walk(h.oldStart, h.newStart, h.oldLines, h.newLines, []) }

  predicate Complete(w: Walk) { w.remOld == 0 && w.remNew == 0 }

  datatype Stepped = Walked(walk: Walk) | Refused(error: DiffError)

  function MarkLast(lines: seq<Line>): seq<Line>
    requires lines != []
  {
    lines[|lines| - 1 := lines[|lines| - 1].(noEOL := true)]
  }

  predicate IsMarker(raw: string) { HasPrefix(raw, "\\") }

  function StepLine(w: Walk, line: string): Stepped
    requires !Complete(w)
  {
    var raw := if line == "" then " " else line;
    var body := Showable(raw[1..]);
    match raw[0]
    case ' ' =>
      if w.remOld == 0 || w.remNew == 0 then Refused(ContextPastCount)
      else Walked(Walk(w.oldN + 1, w.newN + 1, w.remOld - 1, w.remNew - 1,
                       w.lines + [Line(w.oldN, w.newN, Context, body, false)]))
    case '-' =>
      if w.remOld == 0 then Refused(RemovedPastCount)
      else Walked(w.(oldN := w.oldN + 1, remOld := w.remOld - 1,
                     lines := w.lines + [Line(w.oldN, 0, Removed, body, false)]))
    case '+' =>
      if w.remNew == 0 then Refused(AddedPastCount)
      else Walked(w.(newN := w.newN + 1, remNew := w.remNew - 1,
                     lines := w.lines + [Line(0, w.newN, Added, body, false)]))
    case '\\' =>
      if w.lines == [] then Refused(MarkerFirst) else Walked(w.(lines := MarkLast(w.lines)))
    case _ => Refused(UnknownPrefix)
  }

  /** The lines of a hunk, and the line the text after it starts at. */
  datatype Body = Body(walk: Walk, next: nat) | NoBody(error: DiffError)

  function WalkFrom(w: Walk, lines: seq<string>, i: nat): (b: Body)
    requires i <= |lines|
    ensures b.Body? ==> i <= b.next <= |lines|
    decreases |lines| - i
  {
    if Complete(w) then MarkersFrom(w, lines, i)
    else if i == |lines| then NoBody(EndsEarly)
    else match StepLine(w, lines[i])
      case Refused(e) => NoBody(e)
      case Walked(x) => WalkFrom(x, lines, i + 1)
  }

  /** No-newline markers that follow the last line. */
  function MarkersFrom(w: Walk, lines: seq<string>, i: nat): (b: Body)
    requires i <= |lines|
    ensures b.Body? && i <= b.next <= |lines|
    decreases |lines| - i
  {
    if i == |lines| || !IsMarker(lines[i]) || w.lines == [] then Body(w, i)
    else MarkersFrom(w.(lines := MarkLast(w.lines)), lines, i + 1)
  }

  /** A body read to its end has walked exactly the lines its header counts. */
  lemma {:induction false} WalkCounts(w: Walk, lines: seq<string>, i: nat)
    requires i <= |lines| && WalkFrom(w, lines, i).Body?
    ensures var x := WalkFrom(w, lines, i).walk;
      Complete(x) && x.oldN == w.oldN + w.remOld && x.newN == w.newN + w.remNew
    decreases |lines| - i
  {
    if Complete(w) {
      MarkersCount(w, lines, i);
    } else {
      WalkCounts(StepLine(w, lines[i]).walk, lines, i + 1);
    }
  }

  lemma {:induction false} MarkersCount(w: Walk, lines: seq<string>, i: nat)
    requires i <= |lines|
    ensures MarkersFrom(w, lines, i).Body?
        && MarkersFrom(w, lines, i).walk == w.(lines := MarkersFrom(w, lines, i).walk.lines)
    decreases |lines| - i
  {
    if !(i == |lines| || !IsMarker(lines[i]) || w.lines == []) {
      MarkersCount(w.(lines := MarkLast(w.lines)), lines, i + 1);
    }
  }

  // ---- hunks in order ----

  /** What a header must be, given the last line number of the hunks before it, by side. */
  function HeaderError(h: HunkHeader, lastOld: nat, lastNew: nat): Option<DiffError> {
    if h.oldLines == 0 && h.newLines == 0 then Some(EmptyHunk)
    else if (h.oldLines > 0 && h.oldStart == 0) || (h.newLines > 0 && h.newStart == 0) then Some(StartsAtZero)
    else if (h.oldLines > 0 && h.oldStart <= lastOld) || (h.newLines > 0 && h.newStart <= lastNew) then Some(OutOfOrder)
    else if h.oldStart - 1 > MAX_LINE_NUMBER - h.oldLines || h.newStart - 1 > MAX_LINE_NUMBER - h.newLines
      then Some(PastMaxLine)
    else None
  }

  /** The last line number of a side once the hunk is read. */
  function LastOf(last: nat, start: nat, count: nat): nat { if count > 0 then start + count - 1 else last }

  function LastOld(last: nat, h: HunkHeader): nat { LastOf(last, h.oldStart, h.oldLines) }
  function LastNew(last: nat, h: HunkHeader): nat { LastOf(last, h.newStart, h.newLines) }

  /** One hunk read: the line after it, and the last line numbers so far. */
  datatype Read = ReadHunk(hunk: Hunk, next: nat, lastOld: nat, lastNew: nat) | ReadError(error: DiffError)

  /** The hunk under a header: checked against the hunks before it, then walked. */
  function HunkUnder(h: HunkHeader, lines: seq<string>, i: nat, lastOld: nat, lastNew: nat): (r: Read)
    requires i <= |lines|
    ensures r.ReadHunk? ==> i <= r.next <= |lines|
  {
    if HeaderError(h, lastOld, lastNew).Some? then ReadError(HeaderError(h, lastOld, lastNew).value)
    else match WalkFrom(Enter(h), lines, i)
      case NoBody(e) => ReadError(e)
      case Body(w, next) => ReadHunk(Hunk(h, w.lines), next, LastOld(lastOld, h), LastNew(lastNew, h))
  }

  /** How a header line is read. */
  type Reader = string -> Option<HunkHeader>

  function HunkAt(read: Reader, lines: seq<string>, i: nat, lastOld: nat, lastNew: nat): (r: Read)
    requires i < |lines|
    ensures r.ReadHunk? ==> i < r.next <= |lines|
  {
    match read(lines[i])
    case None => ReadError(BadHeader)
    case Some(h) => HunkUnder(h, lines, i + 1, lastOld, lastNew)
  }

  /** The hunks hs, and then what the rest of the text is. */
  function Onward(hs: seq<Hunk>, rest: Parsed): Parsed {
    match rest
    case Hunks(more) => Hunks(hs + more)
    case other => other
  }

  function HunksFrom(read: Reader, lines: seq<string>, i: nat, lastOld: nat, lastNew: nat): Parsed
    requires i <= |lines|
    decreases |lines| - i
  {
    if i == |lines| then Hunks([])
    else match HunkAt(read, lines, i, lastOld, lastNew)
      case ReadError(e) => Malformed(e)
      case ReadHunk(h, next, old_, new_) => Onward([h], HunksFrom(read, lines, next, old_, new_))
  }

  function AfterPreamble(read: Reader, lines: seq<string>, i: nat): Parsed
    requires i <= |lines|
    decreases |lines| - i
  {
    if i == |lines| || StartsHunk(lines[i]) then HunksFrom(read, lines, i, 0, 0)
    else if SaysBinary(lines[i]) then Binary
    else if IsFileHeader(lines[i]) then AfterPreamble(read, lines, i + 1)
    else Malformed(TextBeforeHunk)
  }

  function DiffOf(text: string): Parsed { if text == "" then Hunks([]) else AfterPreamble(HeaderOf, LinesOf(text), 0) }
}
