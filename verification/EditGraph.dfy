/** Shortest edit paths over two lists of lines: the distances a furthest-reaching search walks.
    The graph goes on past both lists, with no line in common there, as the search does. */
module EditGraph {
  import opened LineDiffSpec

  predicate Match(a: seq<string>, b: seq<string>, x: nat, y: nat) { x < |a| && y < |b| && a[x] == b[y] }

  function Min(x: nat, y: nat): nat { if x < y then x else y }

  /** The fewest single-line moves from the origin to (x, y), lines in common being free. */
  function Dist(a: seq<string>, b: seq<string>, x: nat, y: nat): nat
    decreases x + y
  {
    if x == 0 then y
    else if y == 0 then x
    else if Match(a, b, x - 1, y - 1) then Dist(a, b, x - 1, y - 1)
    else 1 + Min(Dist(a, b, x - 1, y), Dist(a, b, x, y - 1))
  }

  lemma {:induction false} OneMove(a: seq<string>, b: seq<string>, x: nat, y: nat)
    ensures x > 0 ==> Dist(a, b, x - 1, y) - 1 <= Dist(a, b, x, y) <= Dist(a, b, x - 1, y) + 1
    ensures y > 0 ==> Dist(a, b, x, y - 1) - 1 <= Dist(a, b, x, y) <= Dist(a, b, x, y - 1) + 1
    decreases x + y
  {
    if x > 0 && y > 0 {
      OneMove(a, b, x - 1, y);
      OneMove(a, b, x, y - 1);
      OneMove(a, b, x - 1, y - 1);
    }
  }

  lemma Diagonal(a: seq<string>, b: seq<string>, x: nat, y: nat)
    ensures Dist(a, b, x, y) <= Dist(a, b, x + 1, y + 1)
  {
    OneMove(a, b, x, y + 1);
    OneMove(a, b, x + 1, y);
  }

  /** Distances do not fall along a diagonal. */
  lemma {:induction false} Diagonals(a: seq<string>, b: seq<string>, x: nat, y: nat, t: nat)
    ensures Dist(a, b, x, y) <= Dist(a, b, x + t, y + t)
  {
    if t > 0 {
      Diagonals(a, b, x, y, t - 1);
      Diagonal(a, b, x + t - 1, y + t - 1);
    }
  }

  /** A distance falls short of all moves by two for every line kept. */
  lemma {:induction false} Parity(a: seq<string>, b: seq<string>, x: nat, y: nat) returns (kept: nat)
    ensures Dist(a, b, x, y) + 2 * kept == x + y
    decreases x + y
  {
    if x == 0 || y == 0 {
      kept := 0;
    } else if Match(a, b, x - 1, y - 1) {
      var k := Parity(a, b, x - 1, y - 1);
      kept := k + 1;
    } else if Dist(a, b, x - 1, y) < Dist(a, b, x, y - 1) {
      kept := Parity(a, b, x - 1, y);
    } else {
      kept := Parity(a, b, x, y - 1);
    }
  }

  lemma {:induction false} AtLeastDiagonal(a: seq<string>, b: seq<string>, x: nat, y: nat)
    ensures x - y <= Dist(a, b, x, y) && y - x <= Dist(a, b, x, y)
    decreases x + y
  {
    if x > 0 && y > 0 {
      AtLeastDiagonal(a, b, x - 1, y - 1);
      AtLeastDiagonal(a, b, x - 1, y);
      AtLeastDiagonal(a, b, x, y - 1);
    }
  }

  lemma {:induction false} BeyondRight(a: seq<string>, b: seq<string>, x: nat, y: nat)
    requires x >= |a|
    ensures Dist(a, b, x + 1, y) == Dist(a, b, x, y) + 1
    decreases y
  {
    if y > 0 {
      BeyondRight(a, b, x, y - 1);
      OneMove(a, b, x, y);
    }
  }

  lemma {:induction false} BeyondDown(a: seq<string>, b: seq<string>, x: nat, y: nat)
    requires y >= |b|
    ensures Dist(a, b, x, y + 1) == Dist(a, b, x, y) + 1
    decreases x
  {
    if x > 0 {
      BeyondDown(a, b, x - 1, y);
      OneMove(a, b, x, y);
    }
  }

  /** A point past both ends costs the way there from the corner. */
  lemma {:induction false} Beyond(a: seq<string>, b: seq<string>, x: nat, y: nat)
    requires x >= |a| && y >= |b|
    ensures Dist(a, b, x, y) == Dist(a, b, |a|, |b|) + (x - |a|) + (y - |b|)
    decreases x + y
  {
    if x > |a| {
      BeyondRight(a, b, x - 1, y);
      Beyond(a, b, x - 1, y);
    } else if y > |b| {
      BeyondDown(a, b, x, y - 1);
      Beyond(a, b, x, y - 1);
    }
  }

  // ---- diffs are paths ----

  /** A diff of what is left costs at least what is left to walk. */
  lemma {:induction false} DiffIsPath(a: seq<string>, b: seq<string>, x: nat, y: nat, removed: seq<string>,
                                      added: seq<string>)
    requires x <= |a| && y <= |b| && Diff(a[x..], b[y..], removed, added)
    ensures Dist(a, b, |a|, |b|) <= Dist(a, b, x, y) + |removed| + |added|
    decreases |a| - x + |b| - y
  {
    var p, q := a[x..], b[y..];
    if p == [] && q == [] && removed == [] && added == [] {
    } else if p != [] && q != [] && p[0] == q[0] && Diff(p[1..], q[1..], removed, added) {
      assert a[x + 1..] == p[1..] && b[y + 1..] == q[1..];
      DiffIsPath(a, b, x + 1, y + 1, removed, added);
      MatchIsFree(a, b, x, y);
    } else if p != [] && removed != [] && removed[0] == p[0] && Diff(p[1..], q, removed[1..], added) {
      assert a[x + 1..] == p[1..];
      DiffIsPath(a, b, x + 1, y, removed[1..], added);
      OneMove(a, b, x + 1, y);
    } else {
      assert b[y + 1..] == q[1..];
      DiffIsPath(a, b, x, y + 1, removed, added[1..]);
      OneMove(a, b, x, y + 1);
    }
  }

  lemma MatchIsFree(a: seq<string>, b: seq<string>, x: nat, y: nat)
    requires Match(a, b, x, y)
    ensures Dist(a, b, x + 1, y + 1) == Dist(a, b, x, y)
  {}

  // ---- furthest points ----

  /** x is the furthest point of diagonal k (x - y == k) that d moves reach. */
  predicate Furthest(a: seq<string>, b: seq<string>, d: int, k: int, x: int) {
    x >= 0 && x - k >= 0 && Dist(a, b, x, x - k) <= d && Dist(a, b, x + 1, x + 1 - k) > d
  }

  lemma FurthestReaches(a: seq<string>, b: seq<string>, d: int, k: int, x: int, t: int)
    requires Furthest(a, b, d, k, x) && t >= 0 && t - k >= 0
    ensures t <= x <==> Dist(a, b, t, t - k) <= d
  {
    if t <= x { Diagonals(a, b, t, t - k, x - t); } else { Diagonals(a, b, x + 1, x + 1 - k, t - x - 1); }
  }

  lemma FurthestPasses(a: seq<string>, b: seq<string>, d: int, x: int, p: nat, q: nat)
    requires Furthest(a, b, d, p - q, x) && Dist(a, b, p, q) <= d
    ensures x >= p && x - (p - q) >= q
  {
    FurthestReaches(a, b, d, p - q, x, p);
  }

  /** The corner is the furthest point of its own distance. */
  lemma CornerFurthest(a: seq<string>, b: seq<string>, p: nat, q: nat)
    requires p == |a| && q == |b|
    ensures Furthest(a, b, Dist(a, b, p, q), p - q, p)
  {
    BeyondRight(a, b, p, q);
    BeyondDown(a, b, p + 1, q);
  }

  /** Where a round starts on diagonal k: one move on from the furthest point of a neighbour. */
  predicate StartsAt(a: seq<string>, b: seq<string>, d: int, k: int, x: int, left: int, right: int) {
    && -d <= k <= d && 0 <= d
    && (k > -d ==> Furthest(a, b, d - 1, k - 1, left))
    && (k < d ==> Furthest(a, b, d - 1, k + 1, right))
    && (d == 0 ==> right == 0)
    && x == if k == -d || (k != d && left < right) then right else left + 1
  }

  lemma StartReached(a: seq<string>, b: seq<string>, d: int, k: int, x: int, left: int, right: int)
    requires StartsAt(a, b, d, k, x, left, right)
    ensures x >= 0 && x - k >= 0 && Dist(a, b, x, x - k) <= d
  {
    if d > 0 {
      if k == -d || (k != d && left < right) {
        OneMove(a, b, right, right - k);
      } else {
        OneMove(a, b, left + 1, left + 1 - k);
      }
    }
  }

  /** From a start on, the points beside the diagonal are out of the last round's reach. */
  lemma BesideOutOfReach(a: seq<string>, b: seq<string>, d: int, k: int, x: int, left: int, right: int, t: int)
    requires StartsAt(a, b, d, k, x, left, right) && t >= x && t >= 0 && t - k >= 0
    ensures Dist(a, b, t + 1, t - k) >= d && Dist(a, b, t, t - k + 1) >= d
  {
    if k < d {
      FurthestReaches(a, b, d - 1, k + 1, right, t + 1);
    } else {
      AtLeastDiagonal(a, b, t + 1, t - k);
    }
    if k > -d {
      FurthestReaches(a, b, d - 1, k - 1, left, t);
    } else {
      AtLeastDiagonal(a, b, t, t - k + 1);
    }
  }

  /** Where the lines stop matching, d moves end. */
  lemma StopsAtMismatch(a: seq<string>, b: seq<string>, d: int, k: int, x: int, left: int, right: int, t: int)
    requires StartsAt(a, b, d, k, x, left, right) && t >= x && t >= 0 && t - k >= 0 && !Match(a, b, t, t - k)
    ensures Dist(a, b, t + 1, t + 1 - k) > d
  {
    BesideOutOfReach(a, b, d, k, x, left, right, t);
  }

  /** Everything between a start and the furthest point matches. */
  lemma SlideMatches(a: seq<string>, b: seq<string>, d: int, k: int, x: int, left: int, right: int, end: int, t: int)
    requires StartsAt(a, b, d, k, x, left, right) && Furthest(a, b, d, k, end) && x <= t < end && t >= 0 && t - k >= 0
    ensures Match(a, b, t, t - k)
  {
    if !Match(a, b, t, t - k) {
      StopsAtMismatch(a, b, d, k, x, left, right, t);
      FurthestReaches(a, b, d, k, end, t + 1);
      assert false;
    }
  }
}
