/** List walks in the order a loop makes them: each function's value on a prefix
    is what the loop holds after that prefix. */
module Listing {

  function Filter<T>(keep: T -> bool, s: seq<T>): seq<T> {
    if s == [] then [] else
      Filter(keep, s[..|s| - 1]) + if keep(s[|s| - 1]) then [s[|s| - 1]] else []
  }

  function Count<T>(holds: T -> bool, s: seq<T>): (n: nat)
    ensures n <= |s|
  {
    if s == [] then 0 else Count(holds, s[..|s| - 1]) + if holds(s[|s| - 1]) then 1 else 0
  }

  predicate Any<T>(holds: T -> bool, s: seq<T>) {
    s != [] && (Any(holds, s[..|s| - 1]) || holds(s[|s| - 1]))
  }

  predicate NoRepeats<T(==)>(s: seq<T>) { forall i, j | 0 <= i < j < |s| :: s[i] != s[j] }

  /** b's members not in a, each once, after a. */
  function Joined<T(==,!new)>(a: seq<T>, b: seq<T>): (r: seq<T>)
    ensures forall v :: v in r <==> v in a || v in b
  {
    if b == [] then a else
      var r := Joined(a, b[..|b| - 1]);
      assert b == b[..|b| - 1] + [b[|b| - 1]];
      if b[|b| - 1] in r then r else r + [b[|b| - 1]]
  }

  lemma PrefixStep<T>(s: seq<T>, i: nat)
    requires i < |s|
    ensures s[..i + 1] == s[..i] + [s[i]] && s[..i + 1][..i] == s[..i]
  {}

  lemma FilterStep<T>(keep: T -> bool, s: seq<T>, i: nat)
    requires i < |s|
    ensures Filter(keep, s[..i + 1]) == Filter(keep, s[..i]) + if keep(s[i]) then [s[i]] else []
  {
    PrefixStep(s, i);
  }

  lemma CountStep<T>(holds: T -> bool, s: seq<T>, i: nat)
    requires i < |s|
    ensures Count(holds, s[..i + 1]) == Count(holds, s[..i]) + if holds(s[i]) then 1 else 0
  {
    PrefixStep(s, i);
  }

  lemma AnyStep<T>(holds: T -> bool, s: seq<T>, i: nat)
    requires i < |s|
    ensures Any(holds, s[..i + 1]) == (Any(holds, s[..i]) || holds(s[i]))
  {
    PrefixStep(s, i);
  }

  lemma AnySnoc<T>(holds: T -> bool, s: seq<T>, x: T)
    ensures Any(holds, s + [x]) == (Any(holds, s) || holds(x))
  {
    assert (s + [x])[..|s|] == s;
  }

  lemma {:induction false} AnyMembers<T>(holds: T -> bool, s: seq<T>)
    ensures Any(holds, s) <==> exists x :: x in s && holds(x)
  {
    if s != [] {
      AnyMembers(holds, s[..|s| - 1]);
      assert s == s[..|s| - 1] + [s[|s| - 1]];
      if holds(s[|s| - 1]) { assert s[|s| - 1] in s; }
    }
  }

  lemma Whole<T>(s: seq<T>)
    ensures s[..|s|] == s
  {}

  lemma {:induction false} FilterMembers<T(!new)>(keep: T -> bool, s: seq<T>)
    ensures forall x :: x in Filter(keep, s) <==> x in s && keep(x)
  {
    if s != [] {
      FilterMembers(keep, s[..|s| - 1]);
      assert s == s[..|s| - 1] + [s[|s| - 1]];
    }
  }

  /** What a count says about members: none hold iff it is 0, all hold iff it is the length. */
  lemma {:induction false} CountMembers<T>(holds: T -> bool, s: seq<T>)
    ensures Count(holds, s) == 0 <==> forall x :: x in s ==> !holds(x)
    ensures Count(holds, s) == |s| <==> forall x :: x in s ==> holds(x)
  {
    if s != [] {
      CountMembers(holds, s[..|s| - 1]);
      assert s == s[..|s| - 1] + [s[|s| - 1]];
    }
  }

  /** Of two tests, the narrower holds as often as the wider exactly when it holds wherever that does. */
  lemma {:induction false} CountWithin<T>(narrow: T -> bool, wide: T -> bool, s: seq<T>)
    requires forall x :: x in s && narrow(x) ==> wide(x)
    ensures Count(narrow, s) <= Count(wide, s)
    ensures Count(narrow, s) == Count(wide, s) <==> forall x :: x in s && wide(x) ==> narrow(x)
  {
    if s != [] {
      assert s == s[..|s| - 1] + [s[|s| - 1]];
      CountWithin(narrow, wide, s[..|s| - 1]);
    }
  }

  lemma {:induction false} FilterConcat<T>(keep: T -> bool, s: seq<T>, t: seq<T>)
    ensures Filter(keep, s + t) == Filter(keep, s) + Filter(keep, t)
  {
    if t == [] {
      assert s + t == s;
    } else {
      assert (s + t)[..|s + t| - 1] == s + t[..|t| - 1];
      FilterConcat(keep, s, t[..|t| - 1]);
    }
  }

  /** Take a permutation's copy of the last element out: what is left is a permutation of the rest. */
  lemma TakeOut<T>(s: seq<T>, x: T, left: seq<T>, right: seq<T>)
    requires multiset(s + [x]) == multiset(left + [x] + right)
    ensures multiset(s) == multiset(left + right)
  {
    assert multiset(s + [x]) == multiset(s) + multiset{x};
    assert multiset(left + [x] + right) == multiset(left) + multiset{x} + multiset(right);
    assert multiset(s) == multiset(s + [x]) - multiset{x};
    assert multiset(left + right) == multiset(left) + multiset(right);
  }

  lemma FilterAround<T>(keep: T -> bool, left: seq<T>, x: T, right: seq<T>)
    ensures multiset(Filter(keep, left + [x] + right))
         == multiset(Filter(keep, left + right)) + multiset(if keep(x) then [x] else [])
  {
    FilterConcat(keep, left, right);
    FilterConcat(keep, left + [x], right);
    assert (left + [x])[..|left|] == left;
  }

  lemma {:induction false} FilterPermuted<T>(keep: T -> bool, s: seq<T>, t: seq<T>)
    requires multiset(s) == multiset(t)
    ensures multiset(Filter(keep, s)) == multiset(Filter(keep, t))
  {
    if s == [] {
      assert |multiset(t)| == 0;
    } else {
      var x := s[|s| - 1];
      assert s == s[..|s| - 1] + [x];
      assert x in multiset(s) && x in t;
      var k :| 0 <= k < |t| && t[k] == x;
      assert t == t[..k] + [x] + t[k + 1..];
      TakeOut(s[..|s| - 1], x, t[..k], t[k + 1..]);
      FilterPermuted(keep, s[..|s| - 1], t[..k] + t[k + 1..]);
      FilterAround(keep, t[..k], x, t[k + 1..]);
    }
  }

  lemma {:induction false} CountConcat<T>(holds: T -> bool, s: seq<T>, t: seq<T>)
    ensures Count(holds, s + t) == Count(holds, s) + Count(holds, t)
  {
    if t == [] {
      assert s + t == s;
    } else {
      assert (s + t)[..|s + t| - 1] == s + t[..|t| - 1];
      CountConcat(holds, s, t[..|t| - 1]);
    }
  }

  lemma {:induction false} CountIsFilterLength<T>(holds: T -> bool, s: seq<T>)
    ensures Count(holds, s) == |Filter(holds, s)|
  {
    if s != [] { CountIsFilterLength(holds, s[..|s| - 1]); }
  }

  lemma CountPermuted<T>(holds: T -> bool, s: seq<T>, t: seq<T>)
    requires multiset(s) == multiset(t)
    ensures Count(holds, s) == Count(holds, t)
  {
    FilterPermuted(holds, s, t);
    CountIsFilterLength(holds, s);
    CountIsFilterLength(holds, t);
    assert |multiset(Filter(holds, s))| == |multiset(Filter(holds, t))|;
  }

  lemma PermutedMembers<T>(s: seq<T>, t: seq<T>)
    requires multiset(s) == multiset(t)
    ensures |s| == |t| && forall x :: x in s <==> x in t
  {
    assert |multiset(s)| == |multiset(t)|;
    forall x ensures x in s <==> x in t {
      assert x in s <==> x in multiset(s);
      assert x in t <==> x in multiset(t);
    }
  }

  lemma AllAt<T>(holds: T -> bool, s: seq<T>)
    ensures (forall x :: x in s ==> holds(x)) <==> forall i :: 0 <= i < |s| ==> holds(s[i])
  {
    if forall x :: x in s ==> holds(x) {
      forall i | 0 <= i < |s| ensures holds(s[i]) { assert s[i] in s; }
    }
  }

  lemma AnyPermuted<T>(holds: T -> bool, s: seq<T>, t: seq<T>)
    requires multiset(s) == multiset(t)
    ensures Any(holds, s) == Any(holds, t)
  {
    AnyMembers(holds, s);
    AnyMembers(holds, t);
    PermutedMembers(s, t);
  }

  // ---- lists that correspond entry by entry ----

  ghost predicate Pointwise<T>(r: (T, T) -> bool, s: seq<T>, t: seq<T>) {
    |s| == |t| && forall i :: 0 <= i < |s| ==> r(s[i], t[i])
  }

  lemma {:induction false} FilterPointwise<T>(keep: T -> bool, r: (T, T) -> bool, s: seq<T>, t: seq<T>)
    requires Pointwise(r, s, t)
    requires forall i :: 0 <= i < |s| ==> keep(s[i]) == keep(t[i])
    ensures Pointwise(r, Filter(keep, s), Filter(keep, t))
  {
    if s != [] { FilterPointwise(keep, r, s[..|s| - 1], t[..|t| - 1]); }
  }
}
