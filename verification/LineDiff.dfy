/** The line diff of a fix: trimmed, searched round by round for a shortest edit path up to a bound,
    and read back from the recorded rounds. */
module LineDiff {
  import opened LineDiffSpec
  import opened EditGraph

  const MAX_EXACT_DIFF_LINES := 1000

  /** The diagonals a round visits. */
  predicate Visits(d: int, k: int) { -d <= k <= d && (k + d) % 2 == 0 }

  /** v[off + k] is the furthest point of round d on diagonal k. */
  predicate Holds(a: seq<string>, b: seq<string>, v: seq<int>, off: int, d: int, k: int) {
    0 <= off + k < |v| && Furthest(a, b, d, k, v[off + k])
  }

  predicate PastBoth(a: seq<string>, b: seq<string>, x: int, k: int) { x >= |a| && x - k >= |b| }

  /** The diagonals below upTo hold round d's furthest points. */
  ghost predicate Frontier(a: seq<string>, b: seq<string>, v: seq<int>, off: int, d: int, upTo: int) {
    forall k | Visits(d, k) && k < upTo :: Holds(a, b, v, off, d, k)
  }

  /** None of them is past both ends. */
  ghost predicate NotThere(a: seq<string>, b: seq<string>, v: seq<int>, off: int, d: int, upTo: int) {
    forall k | Visits(d, k) && k < upTo :: Holds(a, b, v, off, d, k) && !PastBoth(a, b, v[off + k], k)
  }

  /** window is [-d, d] of the furthest points as they were before round d. */
  ghost predicate Window(a: seq<string>, b: seq<string>, window: seq<int>, d: int) {
    |window| == 2 * d + 1 && Frontier(a, b, window, d, d - 1, d) && (d == 0 ==> window == [0])
  }

  ghost predicate Recorded(a: seq<string>, b: seq<string>, trace: seq<seq<int>>) {
    forall j | 0 <= j < |trace| :: Window(a, b, trace[j], j)
  }

  lemma WindowRecords(a: seq<string>, b: seq<string>, v: seq<int>, off: int, d: int)
    requires 0 <= d && 0 <= off - d && off + d < |v| && Frontier(a, b, v, off, d - 1, d)
    requires d == 0 ==> v[off] == 0
    ensures Window(a, b, v[off - d..off + d + 1], d)
  {
    var last := d - 1;
    forall k | Visits(last, k) && k < d ensures Holds(a, b, v[off - d..off + d + 1], d, last, k) {
      assert Holds(a, b, v, off, d - 1, k);
    }
  }

  lemma DistVisits(a: seq<string>, b: seq<string>, p: nat, q: nat)
    ensures Visits(Dist(a, b, p, q), p - q)
  {
    var kept := Parity(a, b, p, q);
    AtLeastDiagonal(a, b, p, q);
    assert p - q + Dist(a, b, p, q) == 2 * (p - kept);
  }

  /** A round that passes a point at its own distance without seeing it does not exist. */
  lemma SeenInRound(a: seq<string>, b: seq<string>, v: seq<int>, off: int, d: int, p: nat, q: nat)
    requires Dist(a, b, p, q) == d && NotThere(a, b, v, off, d, d + 1)
    ensures 0 <= off + (p - q) < |v| && !PastBoth(a, b, v[off + (p - q)], p - q)
    ensures v[off + (p - q)] >= p && v[off + (p - q)] - (p - q) >= q
  {
    DistVisits(a, b, p, q);
    assert Holds(a, b, v, off, d, p - q);
    FurthestPasses(a, b, d, v[off + (p - q)], p, q);
  }

  /** A round that ends nowhere leaves the end further than its moves. */
  lemma NotThisRound(a: seq<string>, b: seq<string>, v: seq<int>, off: int, d: int)
    requires d >= 0 && Dist(a, b, |a|, |b|) >= d && NotThere(a, b, v, off, d, d + 1)
    ensures Dist(a, b, |a|, |b|) > d
  {
    if Dist(a, b, |a|, |b|) == d {
      SeenInRound(a, b, v, off, d, |a|, |b|);
      assert false;
    }
  }

  /** The first furthest point past both ends is the corner, and the corner is d moves away. */
  lemma CornerFound(a: seq<string>, b: seq<string>, d: int, k: int, x: int)
    requires Dist(a, b, |a|, |b|) >= d && Furthest(a, b, d, k, x) && x >= |a| && x - k >= |b|
    ensures x == |a| && x - k == |b| && Dist(a, b, |a|, |b|) == d
  {
    Beyond(a, b, x, x - k);
  }

  /** One diagonal of a round: the start, and the lines in common after it. */
  method Extend(a: seq<string>, b: seq<string>, d: int, k: int, left: int, right: int) returns (x: int)
    requires k > -d ==> Furthest(a, b, d - 1, k - 1, left)
    requires k < d ==> Furthest(a, b, d - 1, k + 1, right)
    requires -d <= k <= d && 0 <= d && (d == 0 ==> right == 0)
    ensures Furthest(a, b, d, k, x)
  {
    if k == -d || (k != d && left < right) {
      x := right;
    } else {
      x := left + 1;
    }
    ghost var start := x;
    StartReached(a, b, d, k, start, left, right);
    var y := x - k;
    while x < |a| && y < |b| && a[x] == b[y]
      invariant start <= x && y == x - k && x >= 0 && y >= 0
      invariant Dist(a, b, x, y) <= d
      decreases |a| - x
    {
      MatchIsFree(a, b, x, y);
      x, y := x + 1, y + 1;
    }
    StopsAtMismatch(a, b, d, k, start, left, right, x);
  }

  /** Round d: every diagonal it can reach, until the corner is found. */
  method Round(a: seq<string>, b: seq<string>, v: array<int>, off: int, d: int) returns (done: bool)
    requires 0 <= d && 1 <= off - d && off + d + 1 < v.Length
    requires Frontier(a, b, v[..], off, d - 1, d) && (d == 0 ==> v[off + 1] == 0)
    requires Dist(a, b, |a|, |b|) >= d
    modifies v
    ensures done ==> Dist(a, b, |a|, |b|) == d
    ensures !done ==> Dist(a, b, |a|, |b|) > d && Frontier(a, b, v[..], off, d, d + 1)
  {
    var k := -d;
    while k <= d
      invariant -d <= k <= d + 2 && (k + d) % 2 == 0
      invariant Frontier(a, b, v[..], off, d - 1, d) && (d == 0 ==> v[off + 1] == 0)
      invariant NotThere(a, b, v[..], off, d, k)
    {
      if k > -d { assert Visits(d - 1, k - 1) && Holds(a, b, v[..], off, d - 1, k - 1); }
      if k < d { assert Visits(d - 1, k + 1) && Holds(a, b, v[..], off, d - 1, k + 1); }
      var x := Extend(a, b, d, k, v[off + k - 1], v[off + k + 1]);
      ghost var was := v[..];
      v[off + k] := x;
      if x >= |a| && x - k >= |b| {
        CornerFound(a, b, d, k, x);
        return true;
      }
      ThereNext(a, b, was, off, d, k, x);
      LastRoundKept(a, b, was, off, d, k, x);
      assert v[..] == was[off + k := x];
      k := k + 2;
    }
    NotThisRound(a, b, v[..], off, d);
    forall j | Visits(d, j) && j < d + 1 ensures Holds(a, b, v[..], off, d, j) {}
    done := false;
  }

  /** A round writes none of the last round's points. */
  lemma LastRoundKept(a: seq<string>, b: seq<string>, v: seq<int>, off: int, d: int, k: int, x: int)
    requires Frontier(a, b, v, off, d - 1, d) && Visits(d, k) && 0 <= off + k < |v|
    ensures Frontier(a, b, v[off + k := x], off, d - 1, d)
  {
    var last := d - 1;
    forall j | Visits(last, j) && j < d ensures Holds(a, b, v[off + k := x], off, last, j) {
      assert Holds(a, b, v, off, last, j);
      assert j != k;
    }
  }

  lemma ThereNext(a: seq<string>, b: seq<string>, v: seq<int>, off: int, d: int, k: int, x: int)
    requires NotThere(a, b, v, off, d, k) && Visits(d, k) && 0 <= off + k < |v|
    requires Furthest(a, b, d, k, x) && !PastBoth(a, b, x, k)
    ensures NotThere(a, b, v[off + k := x], off, d, k + 2)
  {
    forall j | Visits(d, j) && j < k + 2
      ensures Holds(a, b, v[off + k := x], off, d, j) && !PastBoth(a, b, v[off + k := x][off + j], j)
    {
      if j != k { assert Holds(a, b, v, off, d, j); }
    }
  }

  // ---- reading the rounds back ----

  function Rev(s: seq<string>): (r: seq<string>)
    ensures |r| == |s|
  {
    if s == [] then [] else [s[|s| - 1]] + Rev(s[..|s| - 1])
  }

  lemma RevAppend(s: seq<string>, l: string)
    ensures Rev(s + [l]) == [l] + Rev(s)
  {
    assert (s + [l])[..|s|] == s;
  }

  lemma {:induction false} RevAt(s: seq<string>, i: nat)
    requires i < |s|
    ensures Rev(s)[i] == s[|s| - 1 - i]
  {
    if i > 0 { RevAt(s[..|s| - 1], i - 1); }
  }

  method Reverse(s: seq<string>) returns (r: seq<string>)
    ensures r == Rev(s)
  {
    r := s;
    var i, j := 0, |s| - 1;
    while i < j
      invariant 0 <= i <= |s| && j == |s| - 1 - i && |r| == |s|
      invariant forall k | 0 <= k < i :: r[k] == s[|s| - 1 - k] && r[|s| - 1 - k] == s[k]
      invariant forall k | i <= k <= j :: r[k] == s[k]
    {
      r := r[i := r[j]][j := r[i]];
      i, j := i + 1, j - 1;
    }
    forall k | 0 <= k < |s| ensures r[k] == Rev(s)[k] { RevAt(s, k); }
  }

  /** A diff after lines in common is a diff before them. */
  lemma {:induction false} SlideDiff(a: seq<string>, b: seq<string>, k: int, x: nat, end: nat, removed: seq<string>,
                                     added: seq<string>)
    requires x <= end <= |a| && 0 <= x - k && end - k <= |b|
    requires forall t | x <= t < end :: a[t] == b[t - k]
    requires Diff(a[end..], b[end - k..], removed, added)
    ensures Diff(a[x..], b[x - k..], removed, added)
    decreases end - x
  {
    if x < end {
      SlideDiff(a, b, k, x + 1, end, removed, added);
      assert a[x..][1..] == a[x + 1..] && b[x - k..][1..] == b[x + 1 - k..];
    }
  }

  lemma SlideBack(a: seq<string>, b: seq<string>, d: int, k: int, start: int, left: int, right: int, end: int,
                  removed: seq<string>, added: seq<string>)
    requires StartsAt(a, b, d, k, start, left, right) && Furthest(a, b, d, k, end)
    requires end <= |a| && end - k <= |b| && Diff(a[end..], b[end - k..], removed, added)
    ensures 0 <= start <= end && 0 <= start - k && Diff(a[start..], b[start - k..], removed, added)
  {
    StartReached(a, b, d, k, start, left, right);
    FurthestReaches(a, b, d, k, end, start);
    forall t | start <= t < end ensures a[t] == b[t - k] {
      SlideMatches(a, b, d, k, start, left, right, end, t);
    }
    SlideDiff(a, b, k, start, end, removed, added);
  }

  lemma Removal(a: seq<string>, b: seq<string>, x: nat, y: nat, removed: seq<string>, added: seq<string>)
    requires x < |a| && y <= |b| && Diff(a[x + 1..], b[y..], removed, added)
    ensures Diff(a[x..], b[y..], [a[x]] + removed, added)
  {
    assert a[x..][1..] == a[x + 1..] && ([a[x]] + removed)[1..] == removed;
  }

  lemma Addition(a: seq<string>, b: seq<string>, x: nat, y: nat, removed: seq<string>, added: seq<string>)
    requires x <= |a| && y < |b| && Diff(a[x..], b[y + 1..], removed, added)
    ensures Diff(a[x..], b[y..], removed, [b[y]] + added)
  {
    assert b[y..][1..] == b[y + 1..] && ([b[y]] + added)[1..] == added;
  }

  /** The walk back stands at (x, y), the furthest point of its diagonal in round d, with the rest
      of both lists explained. */
  ghost predicate Explained(a: seq<string>, b: seq<string>, d: int, x: int, y: int, removed: seq<string>,
                            added: seq<string>) {
    && 0 <= x <= |a| && 0 <= y <= |b| && Visits(d, x - y) && Furthest(a, b, d, x - y, x)
    && Diff(a[x..], b[y..], Rev(removed), Rev(added))
  }

  lemma NothingLeft(a: seq<string>, b: seq<string>)
    ensures Diff(a[|a|..], b[|b|..], Rev([]), Rev([]))
  {}

  lemma AtTheCorner(a: seq<string>, b: seq<string>, p: nat, q: nat, d: int)
    requires p == |a| && q == |b| && Visits(d, p - q) && Furthest(a, b, d, p - q, p)
    ensures Explained(a, b, d, p, q, [], [])
  {
    NothingLeft(a, b);
  }

  lemma AtTheOrigin(a: seq<string>, b: seq<string>, x: int, y: int, removed: seq<string>, added: seq<string>)
    requires Explained(a, b, 0, x, y, removed, added)
    ensures Diff(a, b, Rev(removed), Rev(added))
  {
    SlideBack(a, b, 0, 0, 0, 0, 0, x, Rev(removed), Rev(added));
    assert a[0..] == a && b[0..] == b;
  }

  /** A move down, walked back: the line of b it put in. */
  lemma BackDown(a: seq<string>, b: seq<string>, d: int, x: int, y: int, removed: seq<string>, added: seq<string>,
                 left: int, right: int)
    requires d > 0 && Explained(a, b, d, x, y, removed, added) && StartsAt(a, b, d, x - y, right, left, right)
    requires x - y < d
    ensures 0 <= right - (x - y) - 1 < |b|
    ensures Explained(a, b, d - 1, right, right - (x - y) - 1, removed, added + [b[right - (x - y) - 1]])
  {
    var k := x - y;
    SlideBack(a, b, d, k, right, left, right, x, Rev(removed), Rev(added));
    Addition(a, b, right, right - k - 1, Rev(removed), Rev(added));
    RevAppend(added, b[right - k - 1]);
  }

  lemma FromTheLeft(a: seq<string>, b: seq<string>, d: int, k: int, x: int, left: int, right: int)
    requires d > 0 && k > -d && Visits(d, k) && StartsAt(a, b, d, k, left + 1, left, right) && left + 1 <= x <= |a|
        && x - k <= |b|
    ensures 0 <= left < |a| && 0 <= left - k + 1 <= |b| && Visits(d - 1, k - 1) && Furthest(a, b, d - 1, k - 1, left)
  {}

  lemma RightDropped(a: seq<string>, b: seq<string>, d: int, k: int, x: nat, y: nat, removed: seq<string>,
                     added: seq<string>)
    requires x < |a| && y <= |b| && k == x - y && Visits(d, k) && Furthest(a, b, d, k, x)
    requires Diff(a[x + 1..], b[y..], Rev(removed), Rev(added))
    ensures Explained(a, b, d, x, y, removed + [a[x]], added)
  {
    Removal(a, b, x, y, Rev(removed), Rev(added));
    RevAppend(removed, a[x]);
  }

  /** A move right, walked back: the line of a it dropped. */
  lemma BackRight(a: seq<string>, b: seq<string>, d: int, x: int, y: int, removed: seq<string>, added: seq<string>,
                  left: int, right: int)
    requires d > 0 && Explained(a, b, d, x, y, removed, added) && StartsAt(a, b, d, x - y, left + 1, left, right)
    requires x - y > -d
    ensures 0 <= left < |a| && 0 <= left - (x - y) + 1
    ensures Explained(a, b, d - 1, left, left - (x - y) + 1, removed + [a[left]], added)
  {
    var k := x - y;
    var py := left - k + 1;
    SlideBack(a, b, d, k, left + 1, left, right, x, Rev(removed), Rev(added));
    FromTheLeft(a, b, d, k, x, left, right);
    assert a[left + 1..] == a[left..][1..];
    RightDropped(a, b, d - 1, k - 1, left, py, removed, added);
  }

  lemma Neighbours(a: seq<string>, b: seq<string>, prev: seq<int>, d: int, k: int)
    requires d > 0 && Window(a, b, prev, d) && Visits(d, k)
    ensures k > -d ==> 0 <= k - 1 + d < |prev| && Furthest(a, b, d - 1, k - 1, prev[k - 1 + d])
    ensures k < d ==> 0 <= k + 1 + d < |prev| && Furthest(a, b, d - 1, k + 1, prev[k + 1 + d])
  {
    if k > -d { assert Visits(d - 1, k - 1) && Holds(a, b, prev, d, d - 1, k - 1); }
    if k < d { assert Visits(d - 1, k + 1) && Holds(a, b, prev, d, d - 1, k + 1); }
  }

  ghost predicate DownTaken(prev: seq<int>, d: int, k: int) {
    |prev| == 2 * d + 1 && -d <= k <= d && (k == -d || (k != d && prev[k - 1 + d] < prev[k + 1 + d]))
  }

  lemma DownFrom(a: seq<string>, b: seq<string>, prev: seq<int>, d: int, k: int, x: int, y: int,
                 removed: seq<string>, added: seq<string>, px: int, py: int)
    requires d > 0 && Window(a, b, prev, d) && Explained(a, b, d, x, y, removed, added) && k == x - y
    requires DownTaken(prev, d, k) && px == prev[k + 1 + d] && py == px - (k + 1)
    ensures 0 <= py < |b| && Explained(a, b, d - 1, px, py, removed, added + [b[py]])
  {
    Neighbours(a, b, prev, d, k);
    BackDown(a, b, d, x, y, removed, added, if k > -d then prev[k - 1 + d] else 0, px);
  }

  lemma RightFrom(a: seq<string>, b: seq<string>, prev: seq<int>, d: int, k: int, x: int, y: int,
                  removed: seq<string>, added: seq<string>, px: int, py: int)
    requires d > 0 && Window(a, b, prev, d) && Explained(a, b, d, x, y, removed, added) && k == x - y
    requires !DownTaken(prev, d, k) && px == prev[k - 1 + d] && py == px - (k - 1)
    ensures 0 <= px < |a| && Explained(a, b, d - 1, px, py, removed + [a[px]], added)
  {
    Neighbours(a, b, prev, d, k);
    BackRight(a, b, d, x, y, removed, added, px, if k < d then prev[k + 1 + d] else 0);
  }

  /** One recorded round walked back: the line its move dropped or put in. */
  method StepBack(a: seq<string>, b: seq<string>, prev: seq<int>, d: int, x: int, y: int,
                  removed: seq<string>, added: seq<string>)
    returns (px: int, py: int, removed': seq<string>, added': seq<string>)
    requires d > 0 && Window(a, b, prev, d) && Explained(a, b, d, x, y, removed, added)
    ensures Explained(a, b, d - 1, px, py, removed', added')
    ensures |removed'| + |added'| == |removed| + |added| + 1
  {
    var k := x - y;
    removed', added' := removed, added;
    if k == -d || (k != d && prev[k - 1 + d] < prev[k + 1 + d]) {
      px := prev[k + 1 + d];
      py := px - (k + 1);
      DownFrom(a, b, prev, d, k, x, y, removed, added, px, py);
      added' := added + [b[py]];
    } else {
      px := prev[k - 1 + d];
      py := px - (k - 1);
      RightFrom(a, b, prev, d, k, x, y, removed, added, px, py);
      removed' := removed + [a[px]];
    }
  }

  /** Walks the recorded rounds from the end to the start and collects the dropped and added lines. */
  method Backtrack(a: seq<string>, b: seq<string>, trace: seq<seq<int>>, d: nat)
    returns (removed: seq<string>, added: seq<string>)
    requires Dist(a, b, |a|, |b|) == d && |trace| == d + 1 && Recorded(a, b, trace)
    ensures Diff(a, b, removed, added) && |removed| + |added| == d
  {
    var x, y := |a|, |b|;
    removed, added := [], [];
    DistVisits(a, b, |a|, |b|);
    CornerFurthest(a, b, |a|, |b|);
    AtTheCorner(a, b, |a|, |b|, d);
    var i := d;
    while i > 0
      invariant 0 <= i <= d && Explained(a, b, i, x, y, removed, added) && |removed| + |added| == d - i
    {
      assert Window(a, b, trace[i], i);
      x, y, removed, added := StepBack(a, b, trace[i], i, x, y, removed, added);
      i := i - 1;
    }
    AtTheOrigin(a, b, x, y, removed, added);
    removed := Reverse(removed);
    added := Reverse(added);
  }

  // ---- the search ----

  lemma {:induction false} AtMostAll(a: seq<string>, b: seq<string>, x: nat, y: nat)
    ensures Dist(a, b, x, y) <= x + y
    decreases x + y
  {
    if x > 0 && y > 0 {
      AtMostAll(a, b, x - 1, y - 1);
      AtMostAll(a, b, x - 1, y);
      AtMostAll(a, b, x, y - 1);
    }
  }

  /** Rounds 0, 1, ... up to limit, each recorded before it is walked. */
  method Search(a: seq<string>, b: seq<string>, limit: nat) returns (found: bool, d: nat, trace: seq<seq<int>>)
    ensures found ==> Dist(a, b, |a|, |b|) == d <= limit && |trace| == d + 1 && Recorded(a, b, trace)
    ensures !found ==> Dist(a, b, |a|, |b|) > limit
  {
    var v := new int[2 * limit + 3](_ => 0);
    var off := limit + 1;
    trace := [];
    d := 0;
    while d <= limit
      invariant 0 <= d <= limit + 1 && |trace| == d && Recorded(a, b, trace)
      invariant Frontier(a, b, v[..], off, d - 1, d) && Dist(a, b, |a|, |b|) >= d
      invariant d == 0 ==> v[off] == 0 && v[off + 1] == 0
    {
      WindowRecords(a, b, v[..], off, d);
      assert v[off - d..off + d + 1] == v[..][off - d..off + d + 1];
      trace := trace + [v[off - d..off + d + 1]];
      var done := Round(a, b, v, off, d);
      if done {
        return true, d, trace;
      }
      d := d + 1;
    }
    found := false;
  }

  lemma TrimKeeps(p: seq<string>, a: seq<string>, b: seq<string>, s: seq<string>)
    ensures Fewest(p + a + s, p + b + s) == Fewest(a, b)
  {
    LcsSuffix(s, p + a, p + b);
    LcsPrefix(p, a, b);
  }

  lemma TrimDiff(p: seq<string>, a: seq<string>, b: seq<string>, s: seq<string>, removed: seq<string>,
                 added: seq<string>)
    requires Diff(a, b, removed, added)
    ensures Diff(p + a + s, p + b + s, removed, added)
  {
    DiffPrefix(p, a, b, removed, added);
    DiffSuffix(s, p + a, p + b, removed, added);
  }

  /** The distance to the corner is the size of a smallest diff. */
  lemma DistIsFewest(a: seq<string>, b: seq<string>)
    ensures Dist(a, b, |a|, |b|) <= Fewest(a, b)
  {
    var removed, added := FewestMet(a, b);
    assert a[0..] == a && b[0..] == b;
    DiffIsPath(a, b, 0, 0, removed, added);
  }

  predicate Between(a: seq<string>, b: seq<string>, p: seq<string>, x: seq<string>, y: seq<string>, s: seq<string>) {
    a == p + x + s && b == p + y + s
  }

  /** Neither begins nor ends with a line they share. */
  predicate Apart(x: seq<string>, y: seq<string>) {
    x != [] && y != [] ==> x[0] != y[0] && x[|x| - 1] != y[|y| - 1]
  }

  /** x and y are what is left of a and b between the lines they share at the front and at the back. */
  ghost predicate Region(a: seq<string>, b: seq<string>, x: seq<string>, y: seq<string>) {
    Apart(x, y) && exists p, s :: Between(a, b, p, x, y, s)
  }

  /** The middles the two lists differ in. */
  method Trim(a: seq<string>, b: seq<string>)
    returns (x: seq<string>, y: seq<string>, ghost p: seq<string>, ghost s: seq<string>)
    ensures Between(a, b, p, x, y, s) && Apart(x, y)
  {
    x, y, p, s := a, b, [], [];
    while |x| > 0 && |y| > 0 && x[0] == y[0]
      invariant a == p + x && b == p + y
    {
      assert p + x == p + [x[0]] + x[1..] && p + y == p + [x[0]] + y[1..];
      p := p + [x[0]];
      x, y := x[1..], y[1..];
    }
    while |x| > 0 && |y| > 0 && x[|x| - 1] == y[|y| - 1]
      invariant Between(a, b, p, x, y, s)
      invariant |x| > 0 && |y| > 0 ==> x[0] != y[0]
    {
      TrimLast(a, b, p, x, y, s);
      s := [x[|x| - 1]] + s;
      x, y := x[..|x| - 1], y[..|y| - 1];
    }
  }

  lemma TrimLast(a: seq<string>, b: seq<string>, p: seq<string>, x: seq<string>, y: seq<string>, s: seq<string>)
    requires Between(a, b, p, x, y, s) && x != [] && y != [] && x[|x| - 1] == y[|y| - 1]
    ensures Between(a, b, p, x[..|x| - 1], y[..|y| - 1], [x[|x| - 1]] + s)
  {
    var c := x[|x| - 1];
    assert x == x[..|x| - 1] + [c] && y == y[..|y| - 1] + [c];
    assert p + x + s == p + x[..|x| - 1] + ([c] + s) && p + y + s == p + y[..|y| - 1] + ([c] + s);
  }

  /** The lines of a smallest diff when one is searched out; otherwise the whole differing region,
      which is a diff too, and then the smallest one is past the bound. */
  method LineDiff(a: seq<string>, b: seq<string>) returns (removed: seq<string>, added: seq<string>, exact: bool)
    ensures Diff(a, b, removed, added)
    ensures exact ==> |removed| + |added| == Fewest(a, b)
    ensures exact <==> Fewest(a, b) <= MAX_EXACT_DIFF_LINES || removed == [] || added == []
    ensures !exact ==> Region(a, b, removed, added)
  {
    var x, y, p, s := Trim(a, b);
    TrimKeeps(p, x, y, s);
    if |x| == 0 || |y| == 0 {
      WholeRegion(x, y);
      TrimDiff(p, x, y, s, x, y);
      DiffBounds(x, y, x, y);
      return x, y, true;
    }
    var limit := |x| + |y|;
    if limit > MAX_EXACT_DIFF_LINES {
      limit := MAX_EXACT_DIFF_LINES;
    }
    DistIsFewest(x, y);
    AtMostAll(x, y, |x|, |y|);
    var found, d, trace := Search(x, y, limit);
    if found {
      removed, added := Backtrack(x, y, trace, d);
      DiffBounds(x, y, removed, added);
      TrimDiff(p, x, y, s, removed, added);
      exact := true;
    } else {
      WholeRegion(x, y);
      TrimDiff(p, x, y, s, x, y);
      removed, added, exact := x, y, false;
    }
  }
}
