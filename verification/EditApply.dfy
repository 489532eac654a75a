/** Applying a batch of edits, effect by effect. */
module EditApply {
  import opened Basics
  import opened Listing
  import opened Ordering
  import opened EditSpec

  /** Counts the places sub stands in s, overlapping ones too, stopping at two. */
  method Occurrences(s: string, sub: string) returns (n: nat, ghost first: nat)
    ensures n == OccurrencesIn(s, sub)
    ensures n == 1 ==> OnlyAt(s, sub, first)
  {
    n, first := 0, 0;
    var from := 0;
    ghost var last := 0;
    while n < 2
      invariant n <= 2
      invariant n == 0 ==> from == 0
      invariant n >= 1 ==> OccursAt(s, sub, first) && first < from
      invariant n == 1 ==> forall j: nat | j < from && OccursAt(s, sub, j) :: j == first
      invariant n == 2 ==> OccursAt(s, sub, last) && last != first
      decreases 2 - n
    {
      var i := IndexFrom(s, sub, from);
      if i.None? {
        break;
      }
      if n == 0 { first := i.value; } else { last := i.value; }
      n := n + 1;
      from := i.value + 1;
    }
    if n == 0 {
      assert forall j: nat :: !OccursAt(s, sub, j);
    } else if n == 1 {
      assert OnlyAt(s, sub, first);
    } else {
      assert forall j: nat :: !(OnlyAt(s, sub, j));
    }
  }

  method ReplaceFirst(s: string, e: Effect, ghost at: nat) returns (r: string)
    requires e.Edit? && OnlyAt(s, e.old_, at)
    ensures r == Replaced(s, at, e.old_, e.new_)
  {
    var i := IndexFrom(s, e.old_, 0);
    r := s[..i.value] + e.new_ + s[i.value + |e.old_|..];
  }

  /** One edit of one file. */
  method ApplyOne(c: Checks, base: map<string, string>, before: Option<Patched>, e: Effect) returns (r: Stepped)
    requires e.Edit?
    ensures r == PathStep(c, base, before, e)
  {
    var form := FormRule(c, e);
    if form.Some? {
      return Bad(form.value);
    }
    var start := Opened(c, base, before, e.path);
    if start.Bad? {
      return start;
    }
    var pf := start.file;
    var n, at := Occurrences(pf.content, e.old_);
    if n == 0 {
      return Bad(NoMatch);
    }
    if n > 1 {
      return Bad(Ambiguous);
    }
    var content := ReplaceFirst(pf.content, e, at);
    return Good(pf.(content := content, edits := pf.edits + 1, newBytes := pf.newBytes + |e.new_|));
  }

  /** The names of a map's keys, met in any order. */
  method KeysOf(files: map<string, Patched>) returns (names: seq<string>)
    ensures forall i, j | 0 <= i < j < |names| :: names[i] != names[j]
    ensures forall n :: n in names <==> n in files
  {
    names := [];
    var left := files.Keys;
    while left != {}
      invariant left <= files.Keys
      invariant forall i, j | 0 <= i < j < |names| :: names[i] != names[j]
      invariant forall n :: n in names <==> n in files && n !in left
      decreases |left|
    {
      var n :| n in left;
      left := left - {n};
      names := names + [n];
    }
  }

  /** The last edit of each path touched. */
  ghost predicate LastEdits(es: seq<Effect>, files: map<string, Patched>, last: map<string, nat>) {
    && files.Keys == last.Keys
    && (forall p | p in last :: last[p] == LastEdit(es, p))
    && (forall p | p in files :: files[p].path == p)
  }

  lemma LastEditsStep(c: Checks, base: map<string, string>, es: seq<Effect>, files: map<string, Patched>,
                      last: map<string, nat>, e: Effect, f: Patched)
    requires LastEdits(es, files, last) && e.Edit? && PathStep(c, base, Lookup(files, e.path), e) == Good(f)
    ensures LastEdits(es + [e], files[e.path := f], last[e.path := |es|])
  {
    assert (es + [e])[..|es|] == es;
  }

  lemma LastEditsSkip(es: seq<Effect>, files: map<string, Patched>, last: map<string, nat>, e: Effect)
    requires LastEdits(es, files, last) && !e.Edit?
    ensures LastEdits(es + [e], files, last)
  {
    assert (es + [e])[..|es|] == es;
  }

  /** Every edit effect, in batch order. */
  method WalkEdits(c: Checks, base: map<string, string>, es: seq<Effect>) returns (r: Progress, last: map<string, nat>)
    ensures r == ProgressOf(c, base, es)
    ensures r.Applied? ==> LastEdits(es, r.files, last)
  {
    var byPath: map<string, Patched> := map[];
    last := map[];
    for i := 0 to |es|
      invariant ProgressOf(c, base, es[..i]) == Applied(byPath) && LastEdits(es[..i], byPath, last)
    {
      PrefixStep(es, i);
      var e := es[i];
      if e.Edit? {
        var stepped := ApplyOne(c, base, Lookup(byPath, e.path), e);
        if stepped.Bad? {
          StoppedStays(c, base, es, i + 1);
          return Stopped(Refusal(stepped.rule, i, e.path)), last;
        }
        LastEditsStep(c, base, es[..i], byPath, last, e, stepped.file);
        byPath := byPath[e.path := stepped.file];
        last := last[e.path := i];
      } else {
        LastEditsSkip(es[..i], byPath, last, e);
      }
    }
    Whole(es);
    r := Applied(byPath);
  }

  /** No file may be left empty, or as it was. */
  method FinishFiles(ghost es: seq<Effect>, out: seq<Patched>, last: map<string, nat>) returns (r: Outcome)
    requires forall i | 0 <= i < |out| :: out[i].path in last && last[out[i].path] == LastEdit(es, out[i].path)
    ensures r == Finish(es, out, 0)
  {
    for i := 0 to |out|
      invariant Finish(es, out, i) == Finish(es, out, 0)
    {
      var pf := out[i];
      if |pf.content| == 0 {
        return Refused(Refusal(Empties, last[pf.path], pf.path));
      }
      if pf.content == pf.base {
        return Refused(Refusal(Noop, last[pf.path], pf.path));
      }
    }
    r := Files(out);
  }

  method ApplyEdits(c: Checks, base: map<string, string>, es: seq<Effect>) returns (r: Outcome)
    ensures r == ApplyOf(c, base, es)
  {
    var walked, last := WalkEdits(c, base, es);
    if walked.Stopped? {
      return Refused(walked.refusal);
    }
    var keys := KeysOf(walked.files);
    SortStringsSound(keys);
    SortStringsIsSortNames(keys, walked.files.Keys);
    var names := SortStrings(keys);
    var out := InOrder(walked.files, names);
    forall i | 0 <= i < |out| ensures out[i].path == names[i] && names[i] in last { assert names[i] in names; }
    r := FinishFiles(es, out, last);
  }

  /** What refuses a batch refuses every longer one. */
  lemma {:induction false} StoppedStays(c: Checks, base: map<string, string>, es: seq<Effect>, n: nat)
    requires n <= |es| && ProgressOf(c, base, es[..n]).Stopped?
    ensures ProgressOf(c, base, es) == ProgressOf(c, base, es[..n])
  {
    if n == |es| {
      assert es[..n] == es;
    } else {
      assert es[..|es| - 1][..n] == es[..n];
      StoppedStays(c, base, es[..|es| - 1], n);
    }
  }
}
