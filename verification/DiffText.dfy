/** The text layer of the line map: lines, decimal numbers and hunk headers. */
module DiffText {
  import opened Basics

  const MAX_LINE_NUMBER := 0x7fff_ffff


  function CutPrefix(s: string, p: string): Option<string> { if HasPrefix(s, p) then Some(s[|p|..]) else None }
  function TrimSuffix(s: string, p: string): string { if HasSuffix(s, p) then s[..|s| - |p|] else s }

  lemma CutConcat(p: string, rest: string)
    ensures CutPrefix(p + rest, p) == Some(rest)
  {
    assert (p + rest)[..|p|] == p && (p + rest)[|p|..] == rest;
  }

  // ---- lines ----

  /** strings.Split(s, "\n"). */
  function Split(s: string): (r: seq<string>)
    ensures |r| > 0
  {
    if s == "" then [""] else
      var rest := Split(s[1..]);
      if s[0] == '\n' then [""] + rest else [[s[0]] + rest[0]] + rest[1..]
  }

  function Join(lines: seq<string>): string
    requires lines != []
  {
    if |lines| == 1 then lines[0] else lines[0] + "\n" + Join(lines[1..])
  }

  predicate OneLine(s: string) { '\n' !in s }

  lemma {:induction false} SplitLine(s: string)
    requires OneLine(s)
    ensures Split(s) == [s]
  {
    if s != "" {
      SplitLine(s[1..]);
      assert [s[0]] + s[1..] == s;
    }
  }

  lemma {:induction false} SplitFirst(s: string, rest: string)
    requires OneLine(s)
    ensures Split(s + "\n" + rest) == [s] + Split(rest)
  {
    var t := s + "\n" + rest;
    if s == "" {
      assert t[1..] == rest;
    } else {
      assert t[1..] == s[1..] + "\n" + rest;
      SplitFirst(s[1..], rest);
      assert [s[0]] + s[1..] == s;
    }
  }

  /** Splitting undoes joining. */
  lemma {:induction false} SplitJoin(lines: seq<string>)
    requires lines != [] && forall l | l in lines :: OneLine(l)
    ensures Split(Join(lines)) == lines
  {
    if |lines| == 1 {
      SplitLine(lines[0]);
    } else {
      SplitFirst(lines[0], Join(lines[1..]));
      SplitJoin(lines[1..]);
    }
  }

  function TrimReturns(lines: seq<string>): (r: seq<string>)
    ensures |r| == |lines|
  {
    seq(|lines|, i requires 0 <= i < |lines| => TrimSuffix(lines[i], "\r"))
  }

  /** The lines of a diff: one closing line end is not a line, and a return before a line end is
      not text. */
  function LinesOf(text: string): seq<string> { TrimReturns(Split(TrimSuffix(text, "\n"))) }

  lemma LinesOfJoin(lines: seq<string>)
    requires lines != [] && forall l | l in lines :: OneLine(l) && !HasSuffix(l, "\r")
    ensures LinesOf(Join(lines) + "\n") == lines
  {
    assert (Join(lines) + "\n")[..|Join(lines)|] == Join(lines);
    assert (Join(lines) + "\n")[|Join(lines)|..] == "\n";
    SplitJoin(lines);
    forall i | 0 <= i < |lines| ensures TrimReturns(lines)[i] == lines[i] { assert lines[i] in lines; }
  }

  // ---- numbers ----

  predicate IsDigit(c: char) { '0' <= c <= '9' }

  function DigitOf(c: char): nat
    requires IsDigit(c)
  {
    (c - '0') as int
  }

  function DigitChar(d: nat): (c: char)
    requires d < 10
    ensures IsDigit(c) && DigitOf(c) == d
  {
    ['0', '1', '2', '3', '4', '5', '6', '7', '8', '9'][d]
  }

  predicate AllDigits(s: string) { forall i | 0 <= i < |s| :: IsDigit(s[i]) }

  /** strconv.ParseInt on plain digits. */
  function Value(s: string): nat
    requires AllDigits(s)
  {
    if s == "" then 0 else 10 * Value(s[..|s| - 1]) + DigitOf(s[|s| - 1])
  }

  /** %d of a number that is not negative. */
  function Decimal(n: nat): (s: string)
    ensures AllDigits(s) && s != ""
  {
    if n < 10 then [DigitChar(n)] else Decimal(n / 10) + [DigitChar(n % 10)]
  }

  lemma {:induction false} ValueDecimal(n: nat)
    ensures Value(Decimal(n)) == n
  {
    if n < 10 {
      assert Value([DigitChar(n)]) == 10 * Value([DigitChar(n)][..0]) + DigitOf(DigitChar(n));
    } else {
      var s := Decimal(n);
      assert s[..|s| - 1] == Decimal(n / 10);
      ValueDecimal(n / 10);
    }
  }

  /** The length of the run of digits s starts with. */
  function DigitRun(s: string): (n: nat)
    ensures n <= |s| && AllDigits(s[..n]) && (n < |s| ==> !IsDigit(s[n]))
  {
    if s != "" && IsDigit(s[0]) then
      assert forall i | 0 <= i < 1 + DigitRun(s[1..]) :: i > 0 ==> s[i] == s[1..][i - 1];
      1 + DigitRun(s[1..])
    else 0
  }

  lemma {:induction false} DigitRunUnique(s: string, n: nat)
    requires n <= |s| && AllDigits(s[..n]) && (n < |s| ==> !IsDigit(s[n]))
    ensures DigitRun(s) == n
  {
    if n > 0 {
      assert s[..n][0] == s[0];
      var tail := s[1..][..n - 1];
      forall i | 0 <= i < |tail| ensures IsDigit(tail[i]) { assert tail[i] == s[..n][i + 1]; }
      DigitRunUnique(s[1..], n - 1);
    }
  }

  datatype Scanned<T> = Scanned(value: T, rest: string)

  /** A number at the front of s: one to ten digits, at most MAX_LINE_NUMBER. */
  function NumberOf(s: string): (r: Option<Scanned<nat>>)
    ensures r.Some? ==> r.value.value <= MAX_LINE_NUMBER
  {
    var n := DigitRun(s);
    if n == 0 || n > 10 || Value(s[..n]) > MAX_LINE_NUMBER then None else Some(Scanned(Value(s[..n]), s[n..]))
  }

  method ParseNumber(s: string) returns (r: Option<Scanned<nat>>)
    ensures r == NumberOf(s)
  {
    var i, v := 0, 0;
    while i < |s| && IsDigit(s[i])
      invariant i <= |s| && AllDigits(s[..i]) && v == Value(s[..i])
    {
      assert s[..i + 1][..i] == s[..i];
      v := 10 * v + DigitOf(s[i]);
      i := i + 1;
    }
    DigitRunUnique(s, i);
    if i == 0 || i > 10 || v > MAX_LINE_NUMBER {
      return None;
    }
    return Some(Scanned(v, s[i..]));
  }

  function Pow10(k: nat): nat { if k == 0 then 1 else 10 * Pow10(k - 1) }

  lemma {:induction false} DecimalShort(n: nat, k: nat)
    requires k > 0 && n < Pow10(k)
    ensures |Decimal(n)| <= k
  {
    if n >= 10 {
      assert k > 1;
      DecimalShort(n / 10, k - 1);
    }
  }

  lemma NumberDecimal(n: nat, rest: string)
    requires n <= MAX_LINE_NUMBER && (rest != "" ==> !IsDigit(rest[0]))
    ensures NumberOf(Decimal(n) + rest) == Some(Scanned(n, rest))
  {
    var s := Decimal(n);
    assert (s + rest)[..|s|] == s && (s + rest)[|s|..] == rest;
    DigitRunUnique(s + rest, |s|);
    assert Pow10(10) == 10_000_000_000 by { assert Pow10(5) == 100_000; }
    DecimalShort(n, 10);
    ValueDecimal(n);
  }

  // ---- hunk headers ----

  datatype HunkHeader = HunkHeader(oldStart: nat, oldLines: nat, newStart: nat, newLines: nat, section: string)

  predicate InRange(h: HunkHeader) {
    && h.oldStart <= MAX_LINE_NUMBER && h.oldLines <= MAX_LINE_NUMBER
    && h.newStart <= MAX_LINE_NUMBER && h.newLines <= MAX_LINE_NUMBER
  }

  datatype Range = Range(start: nat, count: nat)

  /** "<start>" or "<start>,<count>"; an omitted count is 1. */
  function RangeOf(s: string): (r: Option<Scanned<Range>>)
    ensures r.Some? ==> r.value.value.start <= MAX_LINE_NUMBER && r.value.value.count <= MAX_LINE_NUMBER
  {
    match NumberOf(s)
    case None => None
    case Some(start) =>
      match CutPrefix(start.rest, ",")
      case None => Some(Scanned(Range(start.value, 1), start.rest))
      case Some(after) =>
        match NumberOf(after)
        case None => None
        case Some(count) => Some(Scanned(Range(start.value, count.value), count.rest))
  }

  function RangeText(r: Range): string { Decimal(r.start) + "," + Decimal(r.count) }

  /** What follows the closing "@@": nothing, or a space and the section. */
  function SectionOf(s: string): Option<string> {
    if s == "" then Some("") else if s[0] != ' ' then None else Some(s[1..])
  }

  function HeaderOf(s: string): (h: Option<HunkHeader>)
    ensures h.Some? ==> InRange(h.value) && HasPrefix(s, "@@")
  {
    match CutPrefix(s, "@@ -")
    case None => None
    case Some(afterMark) =>
      assert s[..4][..2] == s[..2] && "@@ -"[..2] == "@@";
      match RangeOf(afterMark)
      case None => None
      case Some(before) =>
        match CutPrefix(before.rest, " +")
        case None => None
        case Some(afterOld) =>
          match RangeOf(afterOld)
          case None => None
          case Some(after) =>
            match CutPrefix(after.rest, " @@")
            case None => None
            case Some(tail) =>
              match SectionOf(tail)
              case None => None
              case Some(section) =>
                Some(HunkHeader(before.value.start, before.value.count, after.value.start, after.value.count, section))
  }

  function SectionText(section: string): string { if section == "" then "" else " " + section }

  /** The header with its counts written out. */
  function HeaderText(h: HunkHeader): string {
    "@@ -" + (RangeText(Range(h.oldStart, h.oldLines)) +
              (" +" + (RangeText(Range(h.newStart, h.newLines)) + (" @@" + SectionText(h.section)))))
  }

  lemma RangeRoundTrip(r: Range, rest: string)
    requires r.start <= MAX_LINE_NUMBER && r.count <= MAX_LINE_NUMBER && (rest != "" ==> !IsDigit(rest[0]))
    ensures RangeOf(RangeText(r) + rest) == Some(Scanned(r, rest))
  {
    var tail := "," + (Decimal(r.count) + rest);
    assert RangeText(r) + rest == Decimal(r.start) + tail;
    NumberDecimal(r.start, tail);
    CutConcat(",", Decimal(r.count) + rest);
    NumberDecimal(r.count, rest);
  }

  lemma HeaderParts(s: string, afterMark: string, before: Scanned<Range>, afterOld: string, after: Scanned<Range>,
                    tail: string, section: string)
    requires CutPrefix(s, "@@ -") == Some(afterMark) && RangeOf(afterMark) == Some(before)
    requires CutPrefix(before.rest, " +") == Some(afterOld) && RangeOf(afterOld) == Some(after)
    requires CutPrefix(after.rest, " @@") == Some(tail) && SectionOf(tail) == Some(section)
    ensures HeaderOf(s) == Some(HunkHeader(before.value.start, before.value.count, after.value.start,
                                           after.value.count, section))
  {}

  lemma SectionRoundTrip(section: string)
    ensures SectionOf(SectionText(section)) == Some(section)
  {
    if section != "" { assert (" " + section)[1..] == section; }
  }

  /** Reading a written header gives the header back. */
  lemma HeaderRoundTrip(h: HunkHeader)
    requires InRange(h)
    ensures HeaderOf(HeaderText(h)) == Some(h)
  {
    var close := " @@" + SectionText(h.section);
    var afterOld := RangeText(Range(h.newStart, h.newLines)) + close;
    var afterMark := RangeText(Range(h.oldStart, h.oldLines)) + (" +" + afterOld);
    CutConcat("@@ -", afterMark);
    RangeRoundTrip(Range(h.oldStart, h.oldLines), " +" + afterOld);
    CutConcat(" +", afterOld);
    RangeRoundTrip(Range(h.newStart, h.newLines), close);
    CutConcat(" @@", SectionText(h.section));
    SectionRoundTrip(h.section);
    HeaderParts(HeaderText(h), afterMark, Scanned(Range(h.oldStart, h.oldLines), " +" + afterOld), afterOld,
                Scanned(Range(h.newStart, h.newLines), close), SectionText(h.section), h.section);
  }
}
