/** Orders the judges and the edit apply rely on: sorting records by an integer
    id (Go's sort.Slice over distinct ids) and sorting a set of names (Go's
    sort.Strings over map keys). */
module Ordering {
  import opened Listing

  // ---- sequences sorted by an integer id ----

  ghost predicate Ascending<T>(id: T -> int, s: seq<T>) {
    forall i, j :: 0 <= i < j < |s| ==> id(s[i]) <= id(s[j])
  }

  ghost predicate DistinctIds<T>(id: T -> int, s: seq<T>) {
    forall i, j :: 0 <= i < j < |s| ==> id(s[i]) != id(s[j])
  }

  function Insert<T>(id: T -> int, x: T, s: seq<T>): seq<T> {
    if s == [] || id(x) < id(s[0]) then [x] + s else [s[0]] + Insert(id, x, s[1..])
  }

  /** Insertion sort; stable, where sort.Slice leaves the order of equal ids open. */
  function SortById<T>(id: T -> int, s: seq<T>): seq<T> {
    if s == [] then [] else Insert(id, s[|s| - 1], SortById(id, s[..|s| - 1]))
  }

  lemma {:induction false} InsertKeeps<T>(id: T -> int, x: T, s: seq<T>)
    ensures multiset(Insert(id, x, s)) == multiset(s) + multiset{x}
  {
    if !(s == [] || id(x) < id(s[0])) {
      assert s == [s[0]] + s[1..];
      InsertKeeps(id, x, s[1..]);
    }
  }

  lemma TailAscends<T>(id: T -> int, s: seq<T>)
    requires s != [] && Ascending(id, s)
    ensures Ascending(id, s[1..])
    ensures DistinctIds(id, s) ==> DistinctIds(id, s[1..])
  {
    assert forall i :: 0 <= i < |s[1..]| ==> s[1..][i] == s[i + 1];
  }

  ghost predicate NoneBelow<T>(id: T -> int, least: int, s: seq<T>) {
    forall i | 0 <= i < |s| :: least <= id(s[i])
  }

  lemma {:induction false} InsertAbove<T>(id: T -> int, least: int, x: T, s: seq<T>)
    requires NoneBelow(id, least, s) && least <= id(x)
    ensures NoneBelow(id, least, Insert(id, x, s))
  {
    if !(s == [] || id(x) < id(s[0])) {
      assert forall i :: 0 <= i < |s[1..]| ==> s[1..][i] == s[i + 1];
      InsertAbove(id, least, x, s[1..]);
    }
  }

  lemma ConsAscends<T>(id: T -> int, first: T, rest: seq<T>)
    requires Ascending(id, rest) && NoneBelow(id, id(first), rest)
    ensures Ascending(id, [first] + rest)
  {}

  lemma {:induction false} InsertSound<T>(id: T -> int, x: T, s: seq<T>)
    requires Ascending(id, s)
    ensures multiset(Insert(id, x, s)) == multiset(s) + multiset{x}
    ensures Ascending(id, Insert(id, x, s))
  {
    InsertKeeps(id, x, s);
    if s == [] || id(x) < id(s[0]) {
    } else {
      TailAscends(id, s);
      InsertSound(id, x, s[1..]);
      assert forall i :: 0 <= i < |s[1..]| ==> s[1..][i] == s[i + 1];
      InsertAbove(id, id(s[0]), x, s[1..]);
      ConsAscends(id, s[0], Insert(id, x, s[1..]));
    }
  }

  lemma {:induction false} SortSound<T>(id: T -> int, s: seq<T>)
    ensures multiset(SortById(id, s)) == multiset(s)
    ensures Ascending(id, SortById(id, s))
    ensures |SortById(id, s)| == |s|
  {
    if s == [] {
    } else {
      var front := s[..|s| - 1];
      assert s == front + [s[|s| - 1]];
      SortSound(id, front);
      InsertSound(id, s[|s| - 1], SortById(id, front));
      assert |multiset(SortById(id, s))| == |multiset(s)|;
    }
  }

  lemma SortMembers<T>(id: T -> int, s: seq<T>)
    ensures forall x :: x in SortById(id, s) <==> x in s
  {
    SortSound(id, s);
    forall x ensures x in SortById(id, s) <==> x in s {
      assert x in SortById(id, s) <==> x in multiset(SortById(id, s));
      assert x in s <==> x in multiset(s);
    }
  }

  lemma LeastFirst<T>(id: T -> int, s: seq<T>, t: seq<T>)
    requires s != [] && t != []
    requires multiset(s) == multiset(t)
    requires DistinctIds(id, s)
    requires Ascending(id, s) && Ascending(id, t)
    ensures s[0] == t[0]
  {
    assert s[0] in multiset(t) && t[0] in multiset(s);
    var i :| 0 <= i < |t| && t[i] == s[0];
    var j :| 0 <= j < |s| && s[j] == t[0];
    assert id(t[0]) <= id(s[0]) && id(s[0]) <= id(t[0]);
  }

  lemma DropHead<T>(s: seq<T>)
    requires s != []
    ensures multiset(s[1..]) == multiset(s) - multiset{s[0]}
  {
    assert s == [s[0]] + s[1..];
  }

  lemma TailsAgree<T>(s: seq<T>, t: seq<T>)
    requires s != [] && t != [] && multiset(s) == multiset(t) && s[0] == t[0]
    ensures multiset(s[1..]) == multiset(t[1..])
  {
    DropHead(s);
    DropHead(t);
  }

  /** Two ascending sequences of the same records, with distinct ids, are the same sequence. */
  lemma {:induction false} AscendingUnique<T>(id: T -> int, s: seq<T>, t: seq<T>)
    requires multiset(s) == multiset(t)
    requires DistinctIds(id, s)
    requires Ascending(id, s) && Ascending(id, t)
    ensures s == t
    decreases |s|
  {
    assert |multiset(s)| == |s| && |multiset(t)| == |t|;
    if s != [] {
      LeastFirst(id, s, t);
      TailsAgree(s, t);
      TailAscends(id, s);
      TailAscends(id, t);
      AscendingUnique(id, s[1..], t[1..]);
      assert s == [s[0]] + s[1..] && t == [t[0]] + t[1..];
    }
  }

  lemma DistinctIdsPermuted<T>(id: T -> int, s: seq<T>, t: seq<T>)
    requires multiset(s) == multiset(t)
    requires DistinctIds(id, s)
    ensures DistinctIds(id, t)
  {
    forall i, j | 0 <= i < j < |t| ensures id(t[i]) != id(t[j]) {
      TwoOccurrences(t, i, j);
      CountDistinct(id, s, t[i]);
      assert t[i] in multiset(s) && t[j] in multiset(s);
      var a :| 0 <= a < |s| && s[a] == t[i];
      var b :| 0 <= b < |s| && s[b] == t[j];
      assert a < b || b < a;
    }
  }

  lemma TwoOccurrences<T>(t: seq<T>, i: nat, j: nat)
    requires i < j < |t|
    ensures t[i] == t[j] ==> multiset(t)[t[i]] >= 2
  {
    assert t == t[..i] + [t[i]] + t[i + 1..j] + [t[j]] + t[j + 1..];
  }

  lemma {:induction false} CountDistinct<T>(id: T -> int, s: seq<T>, x: T)
    requires DistinctIds(id, s)
    ensures multiset(s)[x] <= 1
  {
    if s != [] {
      assert s == [s[0]] + s[1..];
      CountDistinct(id, s[1..], x);
      assert forall k :: 0 <= k < |s[1..]| ==> s[1..][k] == s[k + 1];
      assert s[0] !in s[1..];
    }
  }

  lemma {:induction false} FilterDistinct<T(!new)>(id: T -> int, keep: T -> bool, s: seq<T>)
    requires DistinctIds(id, s)
    ensures DistinctIds(id, Filter(keep, s))
  {
    if s != [] {
      var front, last := s[..|s| - 1], s[|s| - 1];
      FilterDistinct(id, keep, front);
      FilterMembers(keep, front);
      var kept := Filter(keep, front);
      forall x | x in kept ensures id(x) != id(last) {
        assert x in front && keep(x);
        var k :| 0 <= k < |front| && front[k] == x;
        assert s[k] == x;
      }
      AppendDistinct(id, kept, last);
    }
  }

  lemma AppendDistinct<T(!new)>(id: T -> int, s: seq<T>, x: T)
    requires DistinctIds(id, s) && forall y :: y in s ==> id(y) != id(x)
    ensures DistinctIds(id, s + [x])
  {
    forall i | 0 <= i < |s| ensures id(s[i]) != id(x) { assert s[i] in s; }
  }

  /** Filtering then sorting forgets the listing order when ids are distinct. */
  lemma SelectForgetsOrder<T(!new)>(id: T -> int, keep: T -> bool, s: seq<T>, t: seq<T>)
    requires multiset(s) == multiset(t) && DistinctIds(id, s)
    ensures SortById(id, Filter(keep, s)) == SortById(id, Filter(keep, t))
  {
    FilterDistinct(id, keep, s);
    FilterPermuted(keep, s, t);
    SortForgetsOrder(id, Filter(keep, s), Filter(keep, t));
  }

  /** Sorting forgets the listing order when ids are distinct. */
  lemma SortForgetsOrder<T>(id: T -> int, s: seq<T>, t: seq<T>)
    requires multiset(s) == multiset(t)
    requires DistinctIds(id, s)
    ensures SortById(id, s) == SortById(id, t)
  {
    SortSound(id, s);
    SortSound(id, t);
    DistinctIdsPermuted(id, s, SortById(id, s));
    AscendingUnique(id, SortById(id, s), SortById(id, t));
  }

  lemma {:induction false} InsertPointwise<T>(id: T -> int, r: (T, T) -> bool, x: T, y: T, s: seq<T>, t: seq<T>)
    requires r(x, y) && id(x) == id(y) && Pointwise(r, s, t)
    requires forall i :: 0 <= i < |s| ==> id(s[i]) == id(t[i])
    ensures Pointwise(r, Insert(id, x, s), Insert(id, y, t))
    ensures forall i :: 0 <= i < |Insert(id, x, s)| ==> id(Insert(id, x, s)[i]) == id(Insert(id, y, t)[i])
  {
    if s != [] && id(s[0]) <= id(x) {
      InsertPointwise(id, r, x, y, s[1..], t[1..]);
    }
  }

  /** Sorting keeps a correspondence that keeps the ids. */
  lemma {:induction false} SortPointwise<T>(id: T -> int, r: (T, T) -> bool, s: seq<T>, t: seq<T>)
    requires Pointwise(r, s, t)
    requires forall i :: 0 <= i < |s| ==> id(s[i]) == id(t[i])
    ensures Pointwise(r, SortById(id, s), SortById(id, t))
    ensures |SortById(id, s)| == |SortById(id, t)|
    ensures forall i :: 0 <= i < |SortById(id, s)| ==> id(SortById(id, s)[i]) == id(SortById(id, t)[i])
  {
    if s != [] {
      SortPointwise(id, r, s[..|s| - 1], t[..|t| - 1]);
      InsertPointwise(id, r, s[|s| - 1], t[|t| - 1], SortById(id, s[..|s| - 1]), SortById(id, t[..|t| - 1]));
    }
  }

  // ---- names, in byte order ----

  predicate NameLe(a: string, b: string) {
    a == [] || (b != [] && (a[0] < b[0] || (a[0] == b[0] && NameLe(a[1..], b[1..]))))
  }

  lemma {:induction a} NameLeTotal(a: string, b: string)
    ensures NameLe(a, b) || NameLe(b, a)
  {
    if a != [] && b != [] && a[0] == b[0] { NameLeTotal(a[1..], b[1..]); }
  }

  lemma {:induction false} NameLeAntisymmetric(a: string, b: string)
    requires NameLe(a, b) && NameLe(b, a)
    ensures a == b
  {
    if a != [] && b != [] {
      NameLeAntisymmetric(a[1..], b[1..]);
      assert a == [a[0]] + a[1..] && b == [b[0]] + b[1..];
    }
  }

  lemma {:induction false} NameLeTransitive(a: string, b: string, c: string)
    requires NameLe(a, b) && NameLe(b, c)
    ensures NameLe(a, c)
  {
    if a != [] && a[0] == b[0] && b[0] == c[0] { NameLeTransitive(a[1..], b[1..], c[1..]); }
  }

  lemma NameLeReflexive(a: string)
    ensures NameLe(a, a)
  {}

  /** Strictly ascending names: every name once. */
  ghost predicate SortedNames(s: seq<string>) {
    forall i, j :: 0 <= i < j < |s| ==> NameLe(s[i], s[j]) && s[i] != s[j]
  }

  lemma {:induction false} LeastName(names: set<string>) returns (least: string)
    requires names != {}
    ensures least in names && forall n :: n in names ==> NameLe(least, n)
    decreases |names|
  {
    var x :| x in names;
    var rest := names - {x};
    NameLeReflexive(x);
    if rest == {} {
      least := x;
      assert names == {x};
    } else {
      var y := LeastName(rest);
      NameLeTotal(x, y);
      if NameLe(x, y) {
        least := x;
        forall n | n in names ensures NameLe(x, n) { if n != x { NameLeTransitive(x, y, n); } }
      } else {
        least := y;
      }
    }
  }

  /** The ascending listing of a finite set of names. */
  ghost function SortNames(names: set<string>): (s: seq<string>)
    ensures SortedNames(s)
    ensures forall n :: n in s <==> n in names
    ensures |s| == |names|
    decreases |names|
  {
    if names == {} then [] else
      assert exists l :: l in names && forall n :: n in names ==> NameLe(l, n) by { var l := LeastName(names); }
      var least :| least in names && forall n :: n in names ==> NameLe(least, n);
      var rest := SortNames(names - {least});
      assert forall i :: 0 <= i < |rest| ==> rest[i] in names - {least};
      [least] + rest
  }

  lemma {:induction false} SortedNamesUnique(s: seq<string>, t: seq<string>)
    requires SortedNames(s) && SortedNames(t)
    requires forall n :: n in s <==> n in t
    ensures s == t
    decreases |s|
  {
    assert (s != [] ==> s[0] in t) && (t != [] ==> t[0] in s);
    if s != [] && t != [] {
      assert s[0] in t && t[0] in s;
      var i :| 0 <= i < |t| && t[i] == s[0];
      var j :| 0 <= j < |s| && s[j] == t[0];
      NameLeReflexive(s[0]);
      assert NameLe(s[0], t[0]) && NameLe(t[0], s[0]);
      NameLeAntisymmetric(s[0], t[0]);
      forall n ensures n in s[1..] <==> n in t[1..] {
        assert n in s <==> n == s[0] || n in s[1..];
        assert n in t <==> n == t[0] || n in t[1..];
        assert forall k :: 0 <= k < |s[1..]| ==> s[1..][k] == s[k + 1];
        assert forall k :: 0 <= k < |t[1..]| ==> t[1..][k] == t[k + 1];
      }
      SortedNamesUnique(s[1..], t[1..]);
    }
  }

  function InsertName(x: string, s: seq<string>): seq<string> {
    if s == [] || NameLe(x, s[0]) then [x] + s else [s[0]] + InsertName(x, s[1..])
  }

  /** sort.Strings over a list without repeats. */
  function SortStrings(s: seq<string>): seq<string> {
    if s == [] then [] else InsertName(s[0], SortStrings(s[1..]))
  }

  lemma {:induction false} InsertNameSound(x: string, s: seq<string>)
    requires SortedNames(s) && x !in s
    ensures SortedNames(InsertName(x, s))
    ensures forall n :: n in InsertName(x, s) <==> n == x || n in s
  {
    if s == [] {
    } else if NameLe(x, s[0]) {
      forall j | 0 <= j < |s| ensures NameLe(x, s[j]) {
        if j > 0 { NameLeTransitive(x, s[0], s[j]); }
      }
    } else {
      assert s == [s[0]] + s[1..];
      InsertNameSound(x, s[1..]);
      var rest := InsertName(x, s[1..]);
      NameLeTotal(x, s[0]);
      assert forall k :: 0 <= k < |s[1..]| ==> s[1..][k] == s[k + 1];
      forall j | 0 <= j < |rest| ensures NameLe(s[0], rest[j]) && s[0] != rest[j] {
        assert rest[j] in rest;
      }
    }
  }

  lemma {:induction false} SortStringsSound(s: seq<string>)
    requires forall i, j :: 0 <= i < j < |s| ==> s[i] != s[j]
    ensures SortedNames(SortStrings(s))
    ensures forall n :: n in SortStrings(s) <==> n in s
  {
    if s != [] {
      assert s == [s[0]] + s[1..];
      SortStringsSound(s[1..]);
      assert forall k :: 0 <= k < |s[1..]| ==> s[1..][k] == s[k + 1];
      InsertNameSound(s[0], SortStrings(s[1..]));
    }
  }

  /** The sorted list depends on the set of names alone, not on the order they were met in. */
  lemma SortStringsIsSortNames(s: seq<string>, names: set<string>)
    requires forall i, j :: 0 <= i < j < |s| ==> s[i] != s[j]
    requires forall n :: n in s <==> n in names
    ensures SortStrings(s) == SortNames(names)
  {
    SortStringsSound(s);
    SortedNamesUnique(SortStrings(s), SortNames(names));
  }
}
