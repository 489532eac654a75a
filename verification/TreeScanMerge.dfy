/** Closing parallel scans of disjoint parts of one tree as one scan. */
module TreeScanMerge {
  import opened Listing
  import opened Ordering
  import opened TreeScan

  // ---- what the parts add up to ----

  function Scans(parts: seq<seq<FileScan>>): (ss: seq<Scan>)
    ensures |ss| == |parts| && forall i | 0 <= i < |parts| :: ss[i] == Walked(parts[i])
  {
    seq(|parts|, i requires 0 <= i < |parts| => Walked(parts[i]))
  }

  /** The parts' findings, problems and counts, one part after the other. */
  function Gathered(scans: seq<Scan>): Scan {
    if scans == [] then EMPTY else
      var x, s := Gathered(scans[..|scans| - 1]), scans[|scans| - 1];
      Scan(x.findings + s.findings, x.problems + s.problems, x.dangling + s.dangling, x.files + s.files,
           x.used + s.used)
  }

  lemma {:induction false} GatheredIsWalk(parts: seq<seq<FileScan>>)
    ensures Gathered(Scans(parts)) == Walked(Flat(parts))
  {
    if parts != [] {
      var front := parts[..|parts| - 1];
      GatheredIsWalk(front);
      assert Scans(parts)[..|parts| - 1] == Scans(front);
      WalkedConcat(Flat(front), parts[|parts| - 1]);
    }
  }

  lemma {:induction false} UsedSomewhere(scans: seq<Scan>, e: nat)
    ensures e in Gathered(scans).used <==> exists s :: s in scans && e in s.used
  {
    if scans != [] {
      var front, last := scans[..|scans| - 1], scans[|scans| - 1];
      assert scans == front + [last];
      UsedSomewhere(front, e);
    }
  }

  // ---- the merge, as it is written ----

  /** Counting one more part's stale entries: each once more, the new ones last. */
  ghost predicate Counts(stale: seq<nat>, counts: map<nat, nat>, order: seq<nat>, counts': map<nat, nat>,
                         order': seq<nat>) {
    && NoRepeats(order') && (forall e :: e in counts' <==> e in order')
    && (forall e :: e in order' <==> e in order || e in stale)
    && order <= order' && (order == [] ==> order' == stale)
    && (forall e | e in order' :: counts'[e] == (if e in counts then counts[e] else 0) + if e in stale then 1 else 0)
  }

  method CountStale(stale: seq<nat>, counts: map<nat, nat>, order: seq<nat>)
    returns (counts': map<nat, nat>, order': seq<nat>)
    requires NoRepeats(stale) && NoRepeats(order) && forall e :: e in counts <==> e in order
    ensures Counts(stale, counts, order, counts', order')
  {
    counts', order' := counts, order;
    for i := 0 to |stale|
      invariant Counts(stale[..i], counts, order, counts', order')
    {
      var st := stale[i];
      assert stale[..i + 1] == stale[..i] + [st];
      assert st !in stale[..i];
      if st !in counts' {
        order' := order' + [st];
        counts' := counts'[st := 1];
      } else {
        counts' := counts'[st := counts'[st] + 1];
      }
    }
    assert stale[..|stale|] == stale;
  }

  /** The counts so far: an entry's is the number of parts that left it unused; the first part's
      stale entries stand first. */
  ghost predicate Tally(scans: seq<Scan>, entries: nat, counts: map<nat, nat>, order: seq<nat>) {
    && NoRepeats(order) && (forall e :: e in counts <==> e in order)
    && (if scans == [] then order == [] else Stale(entries, scans[0].used) <= order)
    && (forall e | e in order :: counts[e] == StaleCount(scans, entries, e))
    && (forall e: nat | e !in order :: StaleCount(scans, entries, e) == 0)
  }

  lemma TallyStep(scans: seq<Scan>, p: Scan, entries: nat, counts: map<nat, nat>, order: seq<nat>,
                  counts': map<nat, nat>, order': seq<nat>)
    requires Tally(scans, entries, counts, order) && Counts(Stale(entries, p.used), counts, order, counts', order')
    ensures Tally(scans + [p], entries, counts', order')
  {
    var more := scans + [p];
    assert more[..|more| - 1] == scans && more[|more| - 1] == p;
    forall e: nat
      ensures StaleCount(more, entries, e)
           == StaleCount(scans, entries, e) + if e in Stale(entries, p.used) then 1 else 0 {}
  }

  lemma {:induction false} StaleNoRepeats(entries: nat, used: set<nat>)
    ensures NoRepeats(Stale(entries, used))
  {
    if entries > 0 { StaleNoRepeats(entries - 1, used); }
  }

  /** The members of order that hold, in its order. */
  function Kept(holds: nat -> bool, order: seq<nat>): (r: seq<nat>)
    ensures forall e :: e in r <==> e in order && holds(e)
  {
    if order == [] then [] else
      var front, last := order[..|order| - 1], order[|order| - 1];
      assert order == front + [last];
      if holds(last) then Kept(holds, front) + [last] else Kept(holds, front)
  }

  function StaleEverywhere(scans: seq<Scan>, entries: nat): nat -> bool {
    (e: nat) => StaleCount(scans, entries, e) == |scans|
  }

  lemma TallyKeeps(scans: seq<Scan>, entries: nat, counts: map<nat, nat>, order: seq<nat>)
    requires Tally(scans, entries, counts, order) && scans != []
    ensures Kept(StaleEverywhere(scans, entries), order) ==
        Kept(StaleEverywhere(scans, entries), Stale(entries, scans[0].used))
  {
    forall e | e in order && e !in Stale(entries, scans[0].used) ensures !StaleEverywhere(scans, entries)(e) {
      StaleInAll(scans, entries, e);
      assert scans[0] in scans;
    }
    KeptPrefix(StaleEverywhere(scans, entries), Stale(entries, scans[0].used), order);
  }

  /** The stale entries of every part, counted part by part. */
  method StaleOfAll(scans: seq<Scan>, entries: nat) returns (stale: seq<nat>)
    ensures scans == [] ==> stale == []
    ensures scans != [] ==> stale == Kept(StaleEverywhere(scans, entries), Stale(entries, scans[0].used))
  {
    var staleIn: map<nat, nat>, order: seq<nat> := map[], [];
    for i := 0 to |scans|
      invariant Tally(scans[..i], entries, staleIn, order)
    {
      PrefixStep(scans, i);
      StaleNoRepeats(entries, scans[i].used);
      var counts', order' := CountStale(Stale(entries, scans[i].used), staleIn, order);
      TallyStep(scans[..i], scans[i], entries, staleIn, order, counts', order');
      staleIn, order := counts', order';
    }
    Whole(scans);
    stale := [];
    for i := 0 to |order|
      invariant stale == Kept(StaleEverywhere(scans, entries), order[..i])
    {
      PrefixStep(order, i);
      var st := order[i];
      if staleIn[st] == |scans| {
        stale := stale + [st];
      }
    }
    Whole(order);
    if scans != [] { TallyKeeps(scans, entries, staleIn, order); }
  }

  /** The report of the parts as merged: everything gathered, sorted, and the entries stale in each. */
  ghost predicate MergedFrom(r: Report, scans: seq<Scan>, entries: nat) {
    var all := Gathered(scans);
    && r.findings == SortFindings(all.findings) && r.problems == SortProblems(all.problems)
    && r.dangling == all.dangling && r.files == all.files
    && r.stale == if scans == [] then [] else Kept(StaleEverywhere(scans, entries), Stale(entries, scans[0].used))
  }

  /** One report of the parts: an entry is stale only if no part used it. */
  method MergeScans(scans: seq<Scan>, entries: nat) returns (r: Report)
    ensures MergedFrom(r, scans, entries)
  {
    var out := EMPTY;
    for i := 0 to |scans|
      invariant Gathered(scans[..i]) == out.(used := Gathered(scans[..i]).used)
    {
      PrefixStep(scans, i);
      var p := scans[i];
      out := Scan(out.findings + p.findings, out.problems + p.problems, out.dangling + p.dangling,
                  out.files + p.files, {});
    }
    Whole(scans);
    var stale := StaleOfAll(scans, entries);
    r := Report(SortFindings(out.findings), SortProblems(out.problems), stale, out.dangling, out.files);
  }

  lemma {:induction false} KeptPrefix(holds: nat -> bool, s: seq<nat>, t: seq<nat>)
    requires s <= t && NoRepeats(t) && forall e | e in t && e !in s :: !holds(e)
    ensures Kept(holds, t) == Kept(holds, s)
    decreases |t|
  {
    if |s| < |t| {
      var front, last := t[..|t| - 1], t[|t| - 1];
      assert t == front + [last];
      assert forall i | 0 <= i < |s| :: s[i] == t[i] && t[i] != last;
      KeptPrefix(holds, s, front);
    } else {
      assert s == t;
    }
  }

  // ---- texts in order ----

  function InsertText(x: string, s: seq<string>): (r: seq<string>)
    ensures multiset(r) == multiset(s) + multiset{x}
  {
    if s == [] || NameLe(x, s[0]) then
      assert multiset([x] + s) == multiset(s) + multiset{x};
      [x] + s
    else
      assert s == [s[0]] + s[1..];
      [s[0]] + InsertText(x, s[1..])
  }

  /** sort.Strings. */
  function SortProblems(s: seq<string>): (r: seq<string>)
    ensures multiset(r) == multiset(s)
  {
    if s == [] then [] else
      assert s == [s[0]] + s[1..];
      InsertText(s[0], SortProblems(s[1..]))
  }

  // ---- parts as one walk ----

  /** Kept of an ascending list is the ascending list of what is kept. */
  lemma {:induction false} KeptStale(holds: nat -> bool, entries: nat, used: set<nat>, first: set<nat>)
    requires forall e: nat | e < entries :: (e !in used) == (e !in first && holds(e))
    ensures Kept(holds, Stale(entries, first)) == Stale(entries, used)
  {
    if entries > 0 {
      KeptStale(holds, entries - 1, used, first);
      var front := Stale(entries - 1, first);
      if entries - 1 !in first { assert (front + [entries - 1])[..|front|] == front; }
    }
  }

  lemma StaleOfWhole(scans: seq<Scan>, entries: nat)
    requires scans != []
    ensures Kept(StaleEverywhere(scans, entries), Stale(entries, scans[0].used)) == Stale(entries, Gathered(scans).used)
  {
    forall e: nat | e < entries
      ensures (e !in Gathered(scans).used) == (e !in scans[0].used && StaleEverywhere(scans, entries)(e))
    {
      UsedSomewhere(scans, e);
      StaleInAll(scans, entries, e);
      assert scans[0] in scans;
    }
    KeptStale(StaleEverywhere(scans, entries), entries, Gathered(scans).used, scans[0].used);
  }

  predicate OnePerPath(files: seq<FileScan>) {
    && (forall f | f in files :: OwnFindings(f))
    && forall i, j | 0 <= i < j < |files| :: files[i].path != files[j].path
  }

  lemma {:induction false} OtherPaths(files: seq<FileScan>, k: Key)
    requires forall f | f in files :: OwnFindings(f) && f.path != k.path
    ensures Filter(AtKey(k), Walked(files).findings) == []
  {
    if files != [] {
      var front, last := files[..|files| - 1], files[|files| - 1];
      assert files == front + [last];
      OtherPaths(front, k);
      FilterConcat(AtKey(k), Walked(front).findings, last.findings);
      NoneAtKey(k, last.findings);
    }
  }

  /** The findings at a key are those of the one file with its path, in that file's order. */
  lemma {:induction false} FindingsOfFile(files: seq<FileScan>, f: FileScan, k: Key)
    requires OnePerPath(files) && f in files && f.path == k.path
    ensures Filter(AtKey(k), Walked(files).findings) == Filter(AtKey(k), f.findings)
  {
    var front, last := files[..|files| - 1], files[|files| - 1];
    assert files == front + [last];
    FilterConcat(AtKey(k), Walked(front).findings, last.findings);
    if f == last {
      forall g | g in front ensures OwnFindings(g) && g.path != k.path {
        var i :| 0 <= i < |front| && front[i] == g;
        assert files[i] == g;
      }
      OtherPaths(front, k);
    } else {
      FindingsOfFile(front, f, k);
      var i :| 0 <= i < |front| && front[i] == f;
      assert files[i] == f && files[|files| - 1] == last && last.path != k.path;
      assert OwnFindings(last);
      NoneAtKey(k, last.findings);
    }
  }

  lemma SameFindings(files: seq<FileScan>, others: seq<FileScan>)
    requires OnePerPath(files) && OnePerPath(others) && multiset(files) == multiset(others)
    ensures SortFindings(Walked(files).findings) == SortFindings(Walked(others).findings)
  {
    PermutedMembers(files, others);
    var s, t := SortFindings(Walked(files).findings), SortFindings(Walked(others).findings);
    forall k ensures Filter(AtKey(k), s) == Filter(AtKey(k), t) {
      SortKeeps(Walked(files).findings, k);
      SortKeeps(Walked(others).findings, k);
      if f :| f in files && f.path == k.path {
        FindingsOfFile(files, f, k);
        FindingsOfFile(others, f, k);
      } else {
        OtherPaths(files, k);
        OtherPaths(others, k);
      }
    }
    SortKeeps(Walked(files).findings, Key("", 0));
    SortKeeps(Walked(others).findings, Key("", 0));
    SameAtEveryKey(s, t);
  }

  lemma WalkedOne(a: seq<FileScan>, f: FileScan, b: seq<FileScan>)
    ensures var s, x := Walked(a + [f] + b), Walked(a + b);
      && multiset(s.problems) == multiset(x.problems) + multiset(f.problems) && s.used == x.used + f.uses
      && s.dangling == x.dangling + (if f.dangling then 1 else 0) && s.files == x.files + 1
  {
    WalkedConcat(a + [f], b);
    WalkedConcat(a, b);
    assert (a + [f])[..|a|] == a;
  }

  lemma PullOut(files: seq<FileScan>, others: seq<FileScan>) returns (a: seq<FileScan>, b: seq<FileScan>)
    requires multiset(files) == multiset(others) && files != []
    ensures others == a + [files[|files| - 1]] + b && multiset(files[..|files| - 1]) == multiset(a + b)
  {
    var front, last := files[..|files| - 1], files[|files| - 1];
    assert files == front + [last];
    assert last in multiset(files) && last in others;
    var i :| 0 <= i < |others| && others[i] == last;
    a, b := others[..i], others[i + 1..];
    assert others == a + [last] + b;
    assert multiset(front) == multiset(files) - multiset{last};
    assert multiset(a + b) == multiset(others) - multiset{last};
  }

  lemma {:induction false} SameRest(files: seq<FileScan>, others: seq<FileScan>)
    requires multiset(files) == multiset(others)
    ensures var s, t := Walked(files), Walked(others);
      multiset(s.problems) == multiset(t.problems) && s.used == t.used && s.dangling == t.dangling && s.files == t.files
    decreases |files|
  {
    if files == [] {
      assert |multiset(others)| == |others|;
    } else {
      var front, last := files[..|files| - 1], files[|files| - 1];
      var a, b := PullOut(files, others);
      SameRest(front, a + b);
      WalkedOne(a, last, b);
    }
  }

  /** However the files of a tree are shared out, the merged report is the report of one walk over
      them in any order: the same findings in the same order, the same counts, the same stale entries,
      and the same problems. */
  lemma MergedIsWhole(parts: seq<seq<FileScan>>, files: seq<FileScan>, entries: nat, r: Report)
    requires OnePerPath(files) && OnePerPath(Flat(parts)) && multiset(Flat(parts)) == multiset(files)
    requires MergedFrom(r, Scans(parts), entries)
    ensures var whole := Finished(Walked(files), entries);
      && r.findings == whole.findings && multiset(r.problems) == multiset(whole.problems)
      && r.dangling == whole.dangling && r.files == whole.files
      && (r.stale == whole.stale <==> parts != [] || entries == 0)
  {
    GatheredIsWalk(parts);
    SameFindings(Flat(parts), files);
    SameRest(Flat(parts), files);
    if parts != [] {
      StaleOfWhole(Scans(parts), entries);
    } else if entries > 0 {
      assert files == [];
      assert 0 in Stale(entries, Walked(files).used);
    }
  }
}
