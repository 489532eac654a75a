/** The automatic-merge rate cap (pkg/mergepolicy): no day ever holds more merges than the cap. */
module MergeRate {
  import opened Basics

  const RATE_WINDOW := 24 * 3_600_000_000_000

  /** Every doubt counts: the window is closed, a merge dated after now counts, and so does an undated one. */
  predicate Counts(m: Time, now: Time) { m == ZERO_TIME || m >= now - RATE_WINDOW }

  function InWindow(merges: seq<Time>, now: Time): nat {
    if merges == [] then 0
    else InWindow(merges[..|merges| - 1], now) + if Counts(merges[|merges| - 1], now) then 1 else 0
  }

  method MergesInWindow(merges: seq<Time>, now: Time) returns (n: nat)
    ensures n == InWindow(merges, now)
  {
    var start := now - RATE_WINDOW;
    n := 0;
    for i := 0 to |merges|
      invariant n == InWindow(merges[..i], now)
    {
      assert merges[..i + 1][..i] == merges[..i];
      var m := merges[i];
      if m == ZERO_TIME || !(m < start) {
        n := n + 1;
      }
    }
    assert merges[..|merges|] == merges;
  }

  /** The merges of a project, in the order they were made: when each was decided, and when it is
      dated. A merge is dated once it was decided, or not at all. */
  datatype Merge = Merge(decided: Time, dated: Time)

  predicate Dated(m: Merge) { m.dated == ZERO_TIME || m.decided <= m.dated }

  function Dates(ms: seq<Merge>): (ds: seq<Time>)
    ensures |ds| == |ms| && forall i | 0 <= i < |ms| :: ds[i] == ms[i].dated
  {
    seq(|ms|, i requires 0 <= i < |ms| => ms[i].dated)
  }

  /** Each merge was allowed by the cap, counting every merge before it. */
  predicate EachAllowed(ms: seq<Merge>, maxPerDay: int) {
    forall i | 0 <= i < |ms| :: Dated(ms[i]) && InWindow(Dates(ms[..i]), ms[i].decided) < maxPerDay
  }

  /** The merges dated in the closed day that starts at start. */
  predicate InDay(d: Time, start: Time) { d != ZERO_TIME && start <= d <= start + RATE_WINDOW }

  function DayCount(ds: seq<Time>, start: Time): nat {
    if ds == [] then 0 else DayCount(ds[..|ds| - 1], start) + if InDay(ds[|ds| - 1], start) then 1 else 0
  }

  lemma {:induction false} DayIsCounted(ds: seq<Time>, start: Time, now: Time)
    requires now <= start + RATE_WINDOW
    ensures DayCount(ds, start) <= InWindow(ds, now)
  {
    if ds != [] { DayIsCounted(ds[..|ds| - 1], start, now); }
  }

  /** Whatever the clocks read, no closed 24 hours holds more merges than the cap. */
  lemma {:induction false} CapHoldsEveryDay(ms: seq<Merge>, maxPerDay: int, start: Time)
    requires EachAllowed(ms, maxPerDay)
    ensures DayCount(Dates(ms), start) <= if maxPerDay < 0 then 0 else maxPerDay
  {
    if ms != [] {
      var n := |ms| - 1;
      assert Dates(ms)[..n] == Dates(ms[..n]);
      forall i | 0 <= i < n ensures Dated(ms[..n][i]) && InWindow(Dates(ms[..n][..i]), ms[..n][i].decided) < maxPerDay {
        assert ms[..n][..i] == ms[..i];
      }
      CapHoldsEveryDay(ms[..n], maxPerDay, start);
      if InDay(ms[n].dated, start) { DayIsCounted(Dates(ms[..n]), start, ms[n].decided); }
    }
  }
}
