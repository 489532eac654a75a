/** An accepted batch of edits is, path by path, the fold of that path's edits; paths do not meet. */
module EditTheorems {
  import opened Basics
  import opened Ordering
  import opened EditSpec

  ghost predicate Agree(c: Checks, base: map<string, string>, es: seq<Effect>, p: Progress) {
    match p
    case Applied(files) => forall n :: FoldPath(c, base, es, n) == Fine(Lookup(files, n))
    case Stopped(r) => FoldPath(c, base, es, r.path).Broken?
  }

  /** The batch's one walk holds every path's own fold. */
  lemma {:induction false} WalkIsFolds(c: Checks, base: map<string, string>, es: seq<Effect>)
    ensures Agree(c, base, es, ProgressOf(c, base, es))
  {
    if es != [] {
      WalkIsFolds(c, base, es[..|es| - 1]);
    }
  }

  ghost predicate Accepted(s: PathState) { s.Fine? && (s.file.Some? ==> EndRule(s.file.value).None?) }

  lemma {:induction false} FinishExactly(es: seq<Effect>, fs: seq<Patched>, i: nat)
    requires i <= |fs|
    ensures Finish(es, fs, i) == Files(fs) <==> forall k | i <= k < |fs| :: EndRule(fs[k]).None?
    ensures Finish(es, fs, i).Files? ==> Finish(es, fs, i) == Files(fs)
    decreases |fs| - i
  {
    if i < |fs| { FinishExactly(es, fs, i + 1); }
  }

  /** The files of an accepted batch: in path order, each its path's fold, and no other. */
  ghost predicate FilesAreFolds(c: Checks, base: map<string, string>, es: seq<Effect>, fs: seq<Patched>) {
    && (forall i, j | 0 <= i < j < |fs| :: NameLe(fs[i].path, fs[j].path) && fs[i].path != fs[j].path)
    && (forall i | 0 <= i < |fs| :: FoldPath(c, base, es, fs[i].path) == Fine(Some(fs[i])))
    && (forall p :: FoldPath(c, base, es, p) == Fine(None) || exists i :: 0 <= i < |fs| && fs[i].path == p)
  }

  /** A batch is accepted exactly when every path, taken alone, is; and then its files are the folds. */
  lemma AcceptedExactly(c: Checks, base: map<string, string>, es: seq<Effect>)
    ensures ApplyOf(c, base, es).Files? <==> AllAccepted(c, base, es)
    ensures ApplyOf(c, base, es).Files? ==> FilesAreFolds(c, base, es, ApplyOf(c, base, es).files)
  {
    WalkIsFolds(c, base, es);
    var w := ProgressOf(c, base, es);
    if w.Applied? {
      AppliedExactly(c, base, es, w.files);
    } else {
      assert !Accepted(FoldPath(c, base, es, w.refusal.path));
    }
  }

  lemma {:induction false} FoldKeepsPath(c: Checks, base: map<string, string>, es: seq<Effect>, p: string)
    ensures var s := FoldPath(c, base, es, p);
      s.Fine? && s.file.Some? ==> s.file.value.path == p && p in base && s.file.value.base == base[p]
  {
    if es != [] { FoldKeepsPath(c, base, es[..|es| - 1], p); }
  }

  /** The list an applied batch would commit. */
  ghost function Committed(files: map<string, Patched>): seq<Patched> { InOrder(files, SortNames(files.Keys)) }

  lemma CommittedFolds(c: Checks, base: map<string, string>, es: seq<Effect>, files: map<string, Patched>)
    requires forall n :: FoldPath(c, base, es, n) == Fine(Lookup(files, n))
    ensures FilesAreFolds(c, base, es, Committed(files))
  {
    var names, fs := SortNames(files.Keys), Committed(files);
    forall i | 0 <= i < |fs| ensures fs[i].path == names[i] && FoldPath(c, base, es, names[i]) == Fine(Some(fs[i])) {
      assert names[i] in names;
      FoldKeepsPath(c, base, es, names[i]);
    }
    forall p ensures FoldPath(c, base, es, p) == Fine(None) || exists i :: 0 <= i < |fs| && fs[i].path == p {
      if p in files {
        assert p in names;
        var i :| 0 <= i < |names| && names[i] == p;
        assert fs[i].path == p;
      }
    }
  }

  ghost predicate AllAccepted(c: Checks, base: map<string, string>, es: seq<Effect>) {
    forall p :: Accepted(FoldPath(c, base, es, p))
  }

  lemma FoldsAccepted(c: Checks, base: map<string, string>, es: seq<Effect>, fs: seq<Patched>)
    requires FilesAreFolds(c, base, es, fs)
    ensures AllAccepted(c, base, es) <==> forall k | 0 <= k < |fs| :: EndRule(fs[k]).None?
  {
    if AllAccepted(c, base, es) {
      forall k | 0 <= k < |fs| ensures EndRule(fs[k]).None? { assert Accepted(FoldPath(c, base, es, fs[k].path)); }
    } else {
      var p :| !Accepted(FoldPath(c, base, es, p));
      var i :| 0 <= i < |fs| && fs[i].path == p;
      assert FoldPath(c, base, es, fs[i].path) == Fine(Some(fs[i]));
    }
  }

  lemma AppliedExactly(c: Checks, base: map<string, string>, es: seq<Effect>, files: map<string, Patched>)
    requires ProgressOf(c, base, es) == Applied(files) && Agree(c, base, es, Applied(files))
    ensures ApplyOf(c, base, es).Files? <==> AllAccepted(c, base, es)
    ensures ApplyOf(c, base, es).Files? ==> ApplyOf(c, base, es).files == Committed(files)
    ensures FilesAreFolds(c, base, es, Committed(files))
  {
    CommittedFolds(c, base, es, files);
    FoldsAccepted(c, base, es, Committed(files));
    FinishExactly(es, Committed(files), 0);
  }

  // ---- paths do not meet ----

  lemma {:induction false} FoldReadsOwnPath(c: Checks, base: map<string, string>, es: seq<Effect>, p: string)
    ensures FoldPath(c, base, OnPath(es, p), p) == FoldPath(c, base, es, p)
  {
    if es != [] {
      var front, e := es[..|es| - 1], es[|es| - 1];
      FoldReadsOwnPath(c, base, front, p);
      if EditOf(p)(e) {
        assert OnPath(es, p) == OnPath(front, p) + [e];
        assert OnPath(es, p)[..|OnPath(es, p)| - 1] == OnPath(front, p);
      } else {
        assert OnPath(es, p) == OnPath(front, p);
      }
    }
  }

  ghost predicate SameFolds(c: Checks, base: map<string, string>, es: seq<Effect>, others: seq<Effect>) {
    forall p :: FoldPath(c, base, es, p) == FoldPath(c, base, others, p)
  }

  /** Batches that give every path the same edits in the same order come to the same: edits to
      different paths commute. */
  lemma PathsCommute(c: Checks, base: map<string, string>, es: seq<Effect>, others: seq<Effect>)
    requires forall p :: OnPath(es, p) == OnPath(others, p)
    ensures ApplyOf(c, base, es).Files? == ApplyOf(c, base, others).Files?
    ensures ApplyOf(c, base, es).Files? ==> ApplyOf(c, base, es) == ApplyOf(c, base, others)
  {
    forall p ensures FoldPath(c, base, es, p) == FoldPath(c, base, others, p) {
      FoldReadsOwnPath(c, base, es, p);
      FoldReadsOwnPath(c, base, others, p);
    }
    SameAccepted(c, base, es, others);
    WalkIsFolds(c, base, es);
    WalkIsFolds(c, base, others);
    if ApplyOf(c, base, es).Files? {
      var f, g := ProgressOf(c, base, es).files, ProgressOf(c, base, others).files;
      SameFiles(c, base, es, others, f, g);
      AppliedExactly(c, base, es, f);
      AppliedExactly(c, base, others, g);
    }
  }

  lemma SameAccepted(c: Checks, base: map<string, string>, es: seq<Effect>, others: seq<Effect>)
    requires SameFolds(c, base, es, others)
    ensures ApplyOf(c, base, es).Files? == ApplyOf(c, base, others).Files?
  {
    AcceptedExactly(c, base, es);
    AcceptedExactly(c, base, others);
    assert forall p :: Accepted(FoldPath(c, base, es, p)) == Accepted(FoldPath(c, base, others, p));
  }

  lemma SameFiles(c: Checks, base: map<string, string>, es: seq<Effect>, others: seq<Effect>,
                  f: map<string, Patched>, g: map<string, Patched>)
    requires SameFolds(c, base, es, others)
    requires Agree(c, base, es, Applied(f)) && Agree(c, base, others, Applied(g))
    ensures f == g
  {
    forall p ensures Lookup(f, p) == Lookup(g, p) {
      assert FoldPath(c, base, es, p) == Fine(Lookup(f, p));
      assert FoldPath(c, base, others, p) == Fine(Lookup(g, p));
    }
    assert forall p :: (p in f) == Lookup(f, p).Some? && (p in g) == Lookup(g, p).Some?;
    assert f.Keys == g.Keys;
    assert forall p | p in f :: Lookup(f, p) == Some(f[p]) && Lookup(g, p) == Some(g[p]);
  }

  // ---- each edit, and what it weighs ----

  /** The text of a path after some edits: its file's, or what the base has. */
  ghost function TextOf(c: Checks, base: map<string, string>, es: seq<Effect>, p: string): Option<string> {
    match FoldPath(c, base, es, p)
    case Broken(_) => None
    case Fine(Some(f)) => Some(f.content)
    case Fine(None) => if p in base then Some(base[p]) else None
  }

  lemma {:induction false} PrefixFine(c: Checks, base: map<string, string>, es: seq<Effect>, p: string, k: nat)
    requires k <= |es| && FoldPath(c, base, es, p).Fine?
    ensures FoldPath(c, base, es[..k], p).Fine?
  {
    if k < |es| {
      PrefixFine(c, base, es[..|es| - 1], p, k);
      assert es[..|es| - 1][..k] == es[..k];
    } else {
      assert es[..k] == es;
    }
  }

  ghost predicate ReplacesOnly(before: Option<string>, after: Option<string>, e: Effect)
    requires e.Edit?
  {
    before.Some? && exists i: nat ::
      OnlyAt(before.value, e.old_, i) && after == Some(Replaced(before.value, i, e.old_, e.new_))
  }

  /** In an accepted batch, every edit replaces the one place its old text stands in, overlapping ones
      counted, in its file as the batch's earlier edits left it. */
  lemma EditsAreUnique(c: Checks, base: map<string, string>, es: seq<Effect>, k: nat)
    requires ApplyOf(c, base, es).Files? && k < |es| && es[k].Edit?
    ensures ReplacesOnly(TextOf(c, base, es[..k], es[k].path), TextOf(c, base, es[..k + 1], es[k].path), es[k])
  {
    AcceptedFine(c, base, es, es[k].path);
    FineReplaces(c, base, es, k);
  }

  lemma FineReplaces(c: Checks, base: map<string, string>, es: seq<Effect>, k: nat)
    requires k < |es| && es[k].Edit? && FoldPath(c, base, es, es[k].path).Fine?
    ensures ReplacesOnly(TextOf(c, base, es[..k], es[k].path), TextOf(c, base, es[..k + 1], es[k].path), es[k])
  {
    PrefixFine(c, base, es, es[k].path, k + 1);
    PrefixFine(c, base, es, es[k].path, k);
    assert es[..k + 1] == es[..k] + [es[k]];
    NextReplaces(c, base, es[..k], es[k]);
  }

  lemma AcceptedFine(c: Checks, base: map<string, string>, es: seq<Effect>, p: string)
    requires ApplyOf(c, base, es).Files?
    ensures FoldPath(c, base, es, p).Fine?
  {
    AcceptedExactly(c, base, es);
    assert Accepted(FoldPath(c, base, es, p));
  }

  lemma NextReplaces(c: Checks, base: map<string, string>, front: seq<Effect>, e: Effect)
    requires e.Edit?
    requires FoldPath(c, base, front, e.path).Fine? && FoldPath(c, base, front + [e], e.path).Fine?
    ensures ReplacesOnly(TextOf(c, base, front, e.path), TextOf(c, base, front + [e], e.path), e)
  {
    assert (front + [e])[..|front|] == front;
    StepReplaces(c, base, FoldPath(c, base, front, e.path).file, e);
  }

  lemma StepReplaces(c: Checks, base: map<string, string>, before: Option<Patched>, e: Effect)
    requires e.Edit? && PathStep(c, base, before, e).Good?
    ensures var text :=
        if before.Some? then Some(before.value.content) else if e.path in base then Some(base[e.path]) else None;
      ReplacesOnly(text, Some(PathStep(c, base, before, e).file.content), e)
  {}

  function OldTotal(es: seq<Effect>): nat {
    if es == [] then 0 else OldTotal(es[..|es| - 1]) + if es[|es| - 1].Edit? then |es[|es| - 1].old_| else 0
  }

  function NewTotal(es: seq<Effect>): nat {
    if es == [] then 0 else NewTotal(es[..|es| - 1]) + if es[|es| - 1].Edit? then |es[|es| - 1].new_| else 0
  }

  /** A file's weight after these edits of its path. */
  predicate Weighs(base: map<string, string>, own: seq<Effect>, p: string, f: Patched) {
    && p in base && f.base == base[p] && f.path == p
    && |f.content| == |base[p]| + NewTotal(own) - OldTotal(own)
    && f.newBytes == NewTotal(own) && f.edits == |own|
  }

  lemma StepWeighs(c: Checks, base: map<string, string>, own: seq<Effect>, before: Option<Patched>, e: Effect)
    requires e.Edit? && PathStep(c, base, before, e).Good?
    requires if before.Some? then Weighs(base, own, e.path, before.value) else own == []
    ensures Weighs(base, own + [e], e.path, PathStep(c, base, before, e).file)
  {
    StepReplaces(c, base, before, e);
    assert (own + [e])[..|own|] == own;
  }

  /** A patched file weighs its base plus what its edits put in, minus what they took out; base blobs
      stay as they were given. */
  lemma {:induction false} FoldWeighs(c: Checks, base: map<string, string>, es: seq<Effect>, p: string)
    requires FoldPath(c, base, es, p).Fine?
    ensures var f := FoldPath(c, base, es, p).file;
      if f.Some? then Weighs(base, OnPath(es, p), p, f.value) else OnPath(es, p) == []
  {
    if es != [] {
      var front, e := es[..|es| - 1], es[|es| - 1];
      FoldWeighs(c, base, front, p);
      if EditOf(p)(e) {
        StepWeighs(c, base, OnPath(front, p), FoldPath(c, base, front, p).file, e);
        assert OnPath(es, p) == OnPath(front, p) + [e];
      } else {
        assert OnPath(es, p) == OnPath(front, p);
      }
    }
  }
}
