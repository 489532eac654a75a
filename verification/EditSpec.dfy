/** What a fix's edits make of the files they name (pkg/effects/edit.go): path by path. */
module EditSpec {
  import opened Basics
  import opened Listing
  import opened Ordering

  /** Texts are byte strings, a char standing for a byte. */
  datatype Effect = Edit(path: string, old_: string, new_: string) | OtherEffect

  datatype Rule =
    | FormPath | FormOldEmpty | FormIdentical | FormNul | FormUtf8
    | Missing | Encoding | NoMatch | Ambiguous | Empties | Noop

  datatype Refusal = Refusal(rule: Rule, index: nat, path: string)

  datatype Patched = Patched(path: string, base: string, content: string, edits: nat, newBytes: nat)

  /** Clean paths and valid UTF-8, decided elsewhere. */
  datatype Checks = Checks(clean: string -> bool, utf8: string -> bool)

  const NUL := '\0'

  function FormRule(c: Checks, e: Effect): Option<Rule>
    requires e.Edit?
  {
    if !c.clean(e.path) then Some(FormPath)
    else if e.old_ == "" then Some(FormOldEmpty)
    else if e.old_ == e.new_ then Some(FormIdentical)
    else if NUL in e.old_ || NUL in e.new_ then Some(FormNul)
    else if !c.utf8(e.old_) || !c.utf8(e.new_) then Some(FormUtf8)
    else None
  }

  // ---- occurrences, overlapping ones included ----

  predicate OccursAt(s: string, sub: string, i: nat) { i + |sub| <= |s| && s[i..i + |sub|] == sub }

  /** bytes.Index of sub in s[from..], as a position of s. */
  function IndexFrom(s: string, sub: string, from: nat): (r: Option<nat>)
    ensures r.Some? ==> from <= r.value && OccursAt(s, sub, r.value)
    ensures r.Some? ==> forall j | from <= j < r.value :: !OccursAt(s, sub, j)
    ensures r.None? ==> forall j | from <= j :: !OccursAt(s, sub, j)
    decreases |s| - from
  {
    if from + |sub| > |s| then None
    else if OccursAt(s, sub, from) then Some(from)
    else IndexFrom(s, sub, from + 1)
  }

  /** The only place sub stands in s. */
  ghost predicate OnlyAt(s: string, sub: string, i: nat) {
    OccursAt(s, sub, i) && forall j: nat | OccursAt(s, sub, j) :: j == i
  }

  /** None, one or more: 0, 1 or 2. */
  ghost function OccurrencesIn(s: string, sub: string): nat {
    if !exists i: nat :: OccursAt(s, sub, i) then 0
    else if exists i: nat :: OnlyAt(s, sub, i) then 1
    else 2
  }

  function Replaced(s: string, i: nat, old_: string, new_: string): string
    requires OccursAt(s, old_, i)
  {
    s[..i] + new_ + s[i + |old_|..]
  }

  // ---- one path ----

  datatype Stepped = Good(file: Patched) | Bad(rule: Rule)

  /** The file an edit starts from: as the batch's earlier edits left it, or as it is at the base. */
  function Opened(c: Checks, base: map<string, string>, before: Option<Patched>, path: string): Stepped {
    match before
    case Some(file) => Good(file)
    case None =>
      if path !in base then Bad(Missing)
      else if !c.utf8(base[path]) || NUL in base[path] then Bad(Encoding)
      else Good(Patched(path, base[path], base[path], 0, 0))
  }

  ghost function PathStep(c: Checks, base: map<string, string>, before: Option<Patched>, e: Effect): Stepped
    requires e.Edit?
  {
    if FormRule(c, e).Some? then Bad(FormRule(c, e).value)
    else match Opened(c, base, before, e.path)
      case Bad(r) => Bad(r)
      case Good(f) =>
        if OccurrencesIn(f.content, e.old_) == 0 then Bad(NoMatch)
        else if OccurrencesIn(f.content, e.old_) == 2 then Bad(Ambiguous)
        else
          var i :| OnlyAt(f.content, e.old_, i);
          Good(f.(content := Replaced(f.content, i, e.old_, e.new_), edits := f.edits + 1,
                  newBytes := f.newBytes + |e.new_|))
  }

  /** A path after some edits: untouched, patched, or refused. */
  datatype PathState = Fine(file: Option<Patched>) | Broken(rule: Rule)

  function EditOf(p: string): Effect -> bool { (e: Effect) => e.Edit? && e.path == p }

  /** The edits of one path, in batch order. */
  function OnPath(es: seq<Effect>, p: string): seq<Effect> { Filter(EditOf(p), es) }

  /** The left fold of a path's edits over its file. */
  ghost function FoldPath(c: Checks, base: map<string, string>, es: seq<Effect>, p: string): PathState {
    if es == [] then Fine(None)
    else
      var before, e := FoldPath(c, base, es[..|es| - 1], p), es[|es| - 1];
      if before.Broken? || !EditOf(p)(e) then before
      else match PathStep(c, base, before.file, e)
        case Bad(r) => Broken(r)
        case Good(f) => Fine(Some(f))
  }

  // ---- the batch ----

  datatype Progress = Applied(files: map<string, Patched>) | Stopped(refusal: Refusal)

  function Lookup(files: map<string, Patched>, p: string): Option<Patched> {
    if p in files then Some(files[p]) else None
  }

  /** The batch edit by edit: the first that cannot be applied refuses it. */
  ghost function ProgressOf(c: Checks, base: map<string, string>, es: seq<Effect>): Progress {
    if es == [] then Applied(map[])
    else
      var before, e := ProgressOf(c, base, es[..|es| - 1]), es[|es| - 1];
      if before.Stopped? || !e.Edit? then before
      else match PathStep(c, base, Lookup(before.files, e.path), e)
        case Bad(r) => Stopped(Refusal(r, |es| - 1, e.path))
        case Good(f) => Applied(before.files[e.path := f])
  }

  /** The last edit of a path. */
  function LastEdit(es: seq<Effect>, p: string): nat {
    if es == [] then 0 else if EditOf(p)(es[|es| - 1]) then |es| - 1 else LastEdit(es[..|es| - 1], p)
  }

  /** What a whole batch may not leave behind. */
  function EndRule(f: Patched): Option<Rule> {
    if f.content == "" then Some(Empties) else if f.content == f.base then Some(Noop) else None
  }

  datatype Outcome = Files(files: seq<Patched>) | Refused(refusal: Refusal)

  function InOrder(files: map<string, Patched>, names: seq<string>): (fs: seq<Patched>)
    requires forall n | n in names :: n in files
    ensures |fs| == |names| && forall i | 0 <= i < |names| :: fs[i] == files[names[i]]
  {
    seq(|names|, i requires 0 <= i < |names| => files[names[i]])
  }

  /** The changed files in path order, unless one of them, the first in that order, must not be committed. */
  function Finish(es: seq<Effect>, fs: seq<Patched>, i: nat): Outcome
    requires i <= |fs|
    decreases |fs| - i
  {
    if i == |fs| then Files(fs)
    else if EndRule(fs[i]).Some? then Refused(Refusal(EndRule(fs[i]).value, LastEdit(es, fs[i].path), fs[i].path))
    else Finish(es, fs, i + 1)
  }

  ghost function ApplyOf(c: Checks, base: map<string, string>, es: seq<Effect>): Outcome {
    match ProgressOf(c, base, es)
    case Stopped(r) => Refused(r)
    case Applied(files) => Finish(es, InOrder(files, SortNames(files.Keys)), 0)
  }
}
