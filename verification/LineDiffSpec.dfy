/** What a line diff is, and how small one can be. */
module LineDiffSpec {
  /** removed and added are the lines a walk from a to b drops and puts in, in order; it keeps the
      other lines of both. */
  predicate Diff(a: seq<string>, b: seq<string>, removed: seq<string>, added: seq<string>)
    decreases |a| + |b|
  {
    || (a == [] && b == [] && removed == [] && added == [])
    || (a != [] && b != [] && a[0] == b[0] && Diff(a[1..], b[1..], removed, added))
    || (a != [] && removed != [] && removed[0] == a[0] && Diff(a[1..], b, removed[1..], added))
    || (b != [] && added != [] && added[0] == b[0] && Diff(a, b[1..], removed, added[1..]))
  }

  function Max(x: nat, y: nat): nat { if x < y then y else x }

  /** The length of a longest common subsequence. */
  function Lcs(a: seq<string>, b: seq<string>): nat
    decreases |a| + |b|
  {
    if a == [] || b == [] then 0
    else if a[0] == b[0] then 1 + Lcs(a[1..], b[1..])
    else Max(Lcs(a[1..], b), Lcs(a, b[1..]))
  }

  /** The fewest lines a diff of a and b can drop and put in together. */
  function Fewest(a: seq<string>, b: seq<string>): int { |a| + |b| - 2 * Lcs(a, b) }

  /** One line more or less on one side changes the longest common subsequence by at most one. */
  lemma {:induction false} LcsStep(a: seq<string>, b: seq<string>)
    ensures a != [] ==> Lcs(a[1..], b) <= Lcs(a, b) <= Lcs(a[1..], b) + 1
    ensures b != [] ==> Lcs(a, b[1..]) <= Lcs(a, b) <= Lcs(a, b[1..]) + 1
    decreases |a| + |b|
  {
    if a != [] && b != [] {
      LcsStep(a[1..], b);
      LcsStep(a, b[1..]);
      LcsStep(a[1..], b[1..]);
    }
  }

  /** Every diff is a diff of the two lengths, and none is smaller than the bound. */
  lemma {:induction false} DiffBounds(a: seq<string>, b: seq<string>, removed: seq<string>, added: seq<string>)
    requires Diff(a, b, removed, added)
    ensures |added| - |removed| == |b| - |a|
    ensures |removed| + |added| >= Fewest(a, b)
    decreases |a| + |b|
  {
    LcsStep(a, b);
    if a != [] && b != [] && a[0] == b[0] && Diff(a[1..], b[1..], removed, added) {
      DiffBounds(a[1..], b[1..], removed, added);
    } else if a != [] && removed != [] && removed[0] == a[0] && Diff(a[1..], b, removed[1..], added) {
      DiffBounds(a[1..], b, removed[1..], added);
    } else if b != [] && added != [] && added[0] == b[0] && Diff(a, b[1..], removed, added[1..]) {
      DiffBounds(a, b[1..], removed, added[1..]);
    }
  }

  /** The bound is met. */
  lemma {:induction false} FewestMet(a: seq<string>, b: seq<string>) returns (removed: seq<string>, added: seq<string>)
    ensures Diff(a, b, removed, added) && |removed| + |added| == Fewest(a, b)
    decreases |a| + |b|
  {
    if a == [] {
      removed, added := [], b;
      AllAdded(b);
    } else if b == [] {
      removed, added := a, [];
      AllRemoved(a);
    } else if a[0] == b[0] {
      removed, added := FewestMet(a[1..], b[1..]);
    } else if Lcs(a[1..], b) >= Lcs(a, b[1..]) {
      var r, p := FewestMet(a[1..], b);
      removed, added := [a[0]] + r, p;
      assert removed[1..] == r;
    } else {
      var r, p := FewestMet(a, b[1..]);
      removed, added := r, [b[0]] + p;
      assert added[1..] == p;
    }
  }

  lemma {:induction false} AllAdded(b: seq<string>)
    ensures Diff([], b, [], b)
  {
    if b != [] { AllAdded(b[1..]); }
  }

  lemma {:induction false} AllRemoved(a: seq<string>)
    ensures Diff(a, [], a, [])
  {
    if a != [] { AllRemoved(a[1..]); }
  }

  /** Dropping everything and putting everything in is a diff. */
  lemma {:induction false} WholeRegion(a: seq<string>, b: seq<string>)
    ensures Diff(a, b, a, b)
    decreases |a|
  {
    if a == [] { AllAdded(b); } else { WholeRegion(a[1..], b); }
  }

  // ---- common heads and tails ----

  lemma {:induction false} DiffPrefix(p: seq<string>, a: seq<string>, b: seq<string>, removed: seq<string>,
                                      added: seq<string>)
    requires Diff(a, b, removed, added)
    ensures Diff(p + a, p + b, removed, added)
  {
    if p == [] {
      assert p + a == a && p + b == b;
    } else {
      DiffPrefix(p[1..], a, b, removed, added);
      assert (p + a)[1..] == p[1..] + a && (p + b)[1..] == p[1..] + b;
    }
  }

  lemma {:induction false} SameDiff(s: seq<string>)
    ensures Diff(s, s, [], [])
  {
    if s != [] { SameDiff(s[1..]); }
  }

  lemma {:induction false} DiffSuffix(s: seq<string>, a: seq<string>, b: seq<string>, removed: seq<string>,
                                      added: seq<string>)
    requires Diff(a, b, removed, added)
    ensures Diff(a + s, b + s, removed, added)
    decreases |a| + |b|
  {
    if a == [] && b == [] && removed == [] && added == [] {
      assert a + s == s && b + s == s;
      SameDiff(s);
    } else if a != [] && b != [] && a[0] == b[0] && Diff(a[1..], b[1..], removed, added) {
      DiffSuffix(s, a[1..], b[1..], removed, added);
      assert (a + s)[1..] == a[1..] + s && (b + s)[1..] == b[1..] + s;
    } else if a != [] && removed != [] && removed[0] == a[0] && Diff(a[1..], b, removed[1..], added) {
      DiffSuffix(s, a[1..], b, removed[1..], added);
      assert (a + s)[1..] == a[1..] + s;
    } else {
      DiffSuffix(s, a, b[1..], removed, added[1..]);
      assert (b + s)[1..] == b[1..] + s;
    }
  }

  lemma {:induction false} LcsPrefix(p: seq<string>, a: seq<string>, b: seq<string>)
    ensures Lcs(p + a, p + b) == |p| + Lcs(a, b)
  {
    if p == [] {
      assert p + a == a && p + b == b;
    } else {
      LcsPrefix(p[1..], a, b);
      assert (p + a)[1..] == p[1..] + a && (p + b)[1..] == p[1..] + b;
    }
  }

  lemma {:induction false} LcsOne(b: seq<string>, c: string)
    ensures Lcs([c], b + [c]) == 1 && Lcs(b + [c], [c]) == 1
  {
    if b != [] {
      LcsOne(b[1..], c);
      assert (b + [c])[1..] == b[1..] + [c];
      assert [c][1..] == [];
    }
  }

  /** A line both end with is kept by a smallest diff. */
  lemma {:induction false} LcsLast(a: seq<string>, b: seq<string>, c: string)
    ensures Lcs(a + [c], b + [c]) == 1 + Lcs(a, b)
    decreases |a| + |b|
  {
    if a == [] || b == [] {
      LcsOne(b, c);
      LcsOne(a, c);
      if a == [] { assert a + [c] == [c]; } else { assert b + [c] == [c]; }
    } else {
      assert (a + [c])[1..] == a[1..] + [c] && (b + [c])[1..] == b[1..] + [c];
      LcsLast(a[1..], b[1..], c);
      LcsLast(a[1..], b, c);
      LcsLast(a, b[1..], c);
    }
  }

  lemma {:induction false} LcsSuffix(s: seq<string>, a: seq<string>, b: seq<string>)
    ensures Lcs(a + s, b + s) == |s| + Lcs(a, b)
  {
    if s == [] {
      assert a + s == a && b + s == b;
    } else {
      var c, rest := s[0], s[1..];
      assert a + s == (a + [c]) + rest && b + s == (b + [c]) + rest;
      LcsSuffix(rest, a + [c], b + [c]);
      LcsLast(a, b, c);
    }
  }
}
