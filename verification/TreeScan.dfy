/** The export guard's scan of a tree, in one walk or in parallel parts (internal/exportguard). */
module TreeScan {
  import opened Listing
  import opened Ordering

  datatype Finding = Finding(path: string, offset: nat, rule: string)

  /** What the rules say of one file: its findings and problems, whether it mentions an internal-only
      path, and the allow-list entries that excused something in it. */
  datatype FileScan = FileScan(path: string, findings: seq<Finding>, problems: seq<string>, dangling: bool,
                               uses: set<nat>)

  predicate OwnFindings(f: FileScan) { forall x | x in f.findings :: x.path == f.path }

  // ---- findings in path order ----

  datatype Key = Key(path: string, offset: nat)

  function KeyOf(x: Finding): Key { Key(x.path, x.offset) }

  predicate KeyLe(a: Key, b: Key) { if a.path == b.path then a.offset <= b.offset else NameLe(a.path, b.path) }

  lemma KeyOrder(a: Key, b: Key, c: Key)
    ensures KeyLe(a, b) || KeyLe(b, a)
    ensures KeyLe(a, b) && KeyLe(b, a) ==> a == b
    ensures KeyLe(a, b) && KeyLe(b, c) ==> KeyLe(a, c)
  {
    NameLeTotal(a.path, b.path);
    if NameLe(a.path, b.path) && NameLe(b.path, a.path) { NameLeAntisymmetric(a.path, b.path); }
    if NameLe(a.path, b.path) && NameLe(b.path, c.path) { NameLeTransitive(a.path, b.path, c.path); }
    if NameLe(a.path, b.path) && NameLe(b.path, c.path) && a.path == c.path { NameLeAntisymmetric(a.path, b.path); }
  }

  function InsertFinding(x: Finding, s: seq<Finding>): seq<Finding> {
    if s == [] || KeyLe(KeyOf(x), KeyOf(s[0])) then [x] + s else [s[0]] + InsertFinding(x, s[1..])
  }

  /** A stable sort by path, then offset. */
  function SortFindings(s: seq<Finding>): seq<Finding> {
    if s == [] then [] else InsertFinding(s[0], SortFindings(s[1..]))
  }

  ghost predicate InKeyOrder(s: seq<Finding>) {
    forall i, j | 0 <= i < j < |s| :: KeyLe(KeyOf(s[i]), KeyOf(s[j]))
  }

  function AtKey(k: Key): Finding -> bool { (x: Finding) => KeyOf(x) == k }

  lemma FilterHead(k: Key, x: Finding, s: seq<Finding>)
    ensures Filter(AtKey(k), [x] + s) == (if KeyOf(x) == k then [x] else []) + Filter(AtKey(k), s)
  {
    FilterConcat(AtKey(k), [x], s);
    assert [x][..0] == [];
  }

  lemma {:induction false} NoneAtKey(k: Key, s: seq<Finding>)
    requires forall x | x in s :: KeyOf(x) != k
    ensures Filter(AtKey(k), s) == []
  {
    if s != [] {
      assert s == s[..|s| - 1] + [s[|s| - 1]];
      NoneAtKey(k, s[..|s| - 1]);
    }
  }

  lemma {:induction false} InsertMembers(x: Finding, s: seq<Finding>)
    ensures forall y :: y in InsertFinding(x, s) <==> y == x || y in s
  {
    if s != [] {
      InsertMembers(x, s[1..]);
      assert s == [s[0]] + s[1..];
    }
  }

  lemma TailInOrder(s: seq<Finding>)
    requires s != [] && InKeyOrder(s)
    ensures InKeyOrder(s[1..]) && forall y | y in s[1..] :: KeyLe(KeyOf(s[0]), KeyOf(y))
  {
    forall i | 0 <= i < |s[1..]| ensures s[1..][i] == s[i + 1] && KeyLe(KeyOf(s[0]), KeyOf(s[1..][i])) {}
  }

  lemma HeadInOrder(x: Finding, s: seq<Finding>)
    requires InKeyOrder(s) && forall y | y in s :: KeyLe(KeyOf(x), KeyOf(y))
    ensures InKeyOrder([x] + s)
  {
    forall i, j | 0 <= i < j < |[x] + s| ensures KeyLe(KeyOf(([x] + s)[i]), KeyOf(([x] + s)[j])) {
      assert s[j - 1] in s;
    }
  }

  lemma {:induction false} InsertOrder(x: Finding, s: seq<Finding>)
    requires InKeyOrder(s)
    ensures InKeyOrder(InsertFinding(x, s))
  {
    if s != [] {
      TailInOrder(s);
      assert s == [s[0]] + s[1..];
      if KeyLe(KeyOf(x), KeyOf(s[0])) {
        forall y | y in s ensures KeyLe(KeyOf(x), KeyOf(y)) { KeyOrder(KeyOf(x), KeyOf(s[0]), KeyOf(y)); }
        HeadInOrder(x, s);
      } else {
        InsertOrder(x, s[1..]);
        InsertMembers(x, s[1..]);
        KeyOrder(KeyOf(x), KeyOf(s[0]), KeyOf(x));
        HeadInOrder(s[0], InsertFinding(x, s[1..]));
      }
    }
  }

  /** Findings at different keys may change places. */
  lemma FilterSwap(k: Key, x: Finding, y: Finding, s: seq<Finding>)
    requires KeyOf(x) != KeyOf(y)
    ensures Filter(AtKey(k), [y] + ([x] + s)) == Filter(AtKey(k), [x] + ([y] + s))
  {
    FilterHead(k, y, [x] + s);
    FilterHead(k, x, s);
    FilterHead(k, x, [y] + s);
    FilterHead(k, y, s);
  }

  lemma {:induction false} InsertFilters(x: Finding, s: seq<Finding>, k: Key)
    ensures Filter(AtKey(k), InsertFinding(x, s)) == Filter(AtKey(k), [x] + s)
  {
    if s != [] && !KeyLe(KeyOf(x), KeyOf(s[0])) {
      InsertFilters(x, s[1..], k);
      KeyOrder(KeyOf(x), KeyOf(x), KeyOf(x));
      FilterHead(k, s[0], InsertFinding(x, s[1..]));
      FilterHead(k, s[0], [x] + s[1..]);
      FilterSwap(k, x, s[0], s[1..]);
      assert s == [s[0]] + s[1..];
    }
  }

  lemma {:induction false} SortKeeps(s: seq<Finding>, k: Key)
    ensures InKeyOrder(SortFindings(s))
    ensures Filter(AtKey(k), SortFindings(s)) == Filter(AtKey(k), s)
  {
    if s != [] {
      SortKeeps(s[1..], k);
      InsertOrder(s[0], SortFindings(s[1..]));
      InsertFilters(s[0], SortFindings(s[1..]), k);
      FilterHead(k, s[0], SortFindings(s[1..]));
      FilterHead(k, s[0], s[1..]);
      assert s == [s[0]] + s[1..];
    }
  }

  ghost predicate SameKeys(s: seq<Finding>, t: seq<Finding>) {
    forall k :: Filter(AtKey(k), s) == Filter(AtKey(k), t)
  }

  lemma SameMember(s: seq<Finding>, t: seq<Finding>, x: Finding)
    requires SameKeys(s, t) && x in s
    ensures x in t
  {
    FilterMembers(AtKey(KeyOf(x)), s);
    assert x in Filter(AtKey(KeyOf(x)), s);
    FilterMembers(AtKey(KeyOf(x)), t);
  }

  lemma FirstIsLeast(s: seq<Finding>, x: Finding)
    requires InKeyOrder(s) && x in s
    ensures KeyLe(KeyOf(s[0]), KeyOf(x))
  {
    KeyOrder(KeyOf(x), KeyOf(x), KeyOf(x));
    var i :| 0 <= i < |s| && s[i] == x;
    if i > 0 { assert KeyLe(KeyOf(s[0]), KeyOf(s[i])); }
  }

  lemma FirstKeys(s: seq<Finding>, t: seq<Finding>)
    requires InKeyOrder(s) && InKeyOrder(t) && s != [] && SameKeys(s, t)
    ensures t != [] && s[0] == t[0]
  {
    SameMember(s, t, s[0]);
    SameMember(t, s, t[0]);
    FirstIsLeast(t, s[0]);
    FirstIsLeast(s, t[0]);
    var k := KeyOf(s[0]);
    KeyOrder(k, KeyOf(t[0]), k);
    FilterFirst(s);
    FilterFirst(t);
  }

  lemma FilterFirst(s: seq<Finding>)
    requires s != []
    ensures Filter(AtKey(KeyOf(s[0])), s) != [] && Filter(AtKey(KeyOf(s[0])), s)[0] == s[0]
  {
    assert s == [s[0]] + s[1..];
    FilterHead(KeyOf(s[0]), s[0], s[1..]);
  }

  /** Ordered lists with the same findings, in the same order, at every key are one list. */
  lemma {:induction false} SameAtEveryKey(s: seq<Finding>, t: seq<Finding>)
    requires InKeyOrder(s) && InKeyOrder(t) && SameKeys(s, t)
    ensures s == t
    decreases |s|
  {
    if s == [] {
      if t != [] { FirstKeys(t, s); }
    } else {
      FirstKeys(s, t);
      TailInOrder(s);
      TailInOrder(t);
      assert s == [s[0]] + s[1..] && t == [t[0]] + t[1..];
      forall k ensures Filter(AtKey(k), s[1..]) == Filter(AtKey(k), t[1..]) { SameTail(k, s[0], s[1..], t[1..]); }
      SameAtEveryKey(s[1..], t[1..]);
    }
  }

  lemma SameTail(k: Key, x: Finding, s: seq<Finding>, t: seq<Finding>)
    requires Filter(AtKey(k), [x] + s) == Filter(AtKey(k), [x] + t)
    ensures Filter(AtKey(k), s) == Filter(AtKey(k), t)
  {
    FilterHead(k, x, s);
    FilterHead(k, x, t);
    var a, b, head := Filter(AtKey(k), s), Filter(AtKey(k), t), if KeyOf(x) == k then [x] else [];
    assert a == (head + a)[|head|..] && b == (head + b)[|head|..];
  }

  // ---- one walk ----

  /** What a walk over files has gathered. */
  datatype Scan = Scan(findings: seq<Finding>, problems: seq<string>, dangling: nat, files: nat, used: set<nat>)

  const EMPTY := Scan([], [], 0, 0, {})

  function AddFile(s: Scan, f: FileScan): Scan {
    Scan(s.findings + f.findings, s.problems + f.problems, s.dangling + if f.dangling then 1 else 0,
         s.files + 1, s.used + f.uses)
  }

  function Walked(files: seq<FileScan>): Scan {
    if files == [] then EMPTY else AddFile(Walked(files[..|files| - 1]), files[|files| - 1])
  }

  lemma WalkedSnoc(files: seq<FileScan>, f: FileScan)
    ensures Walked(files + [f]) == AddFile(Walked(files), f)
  {
    assert (files + [f])[..|files|] == files;
  }

  method Walk(files: seq<FileScan>) returns (s: Scan)
    ensures s == Walked(files)
  {
    s := EMPTY;
    for i := 0 to |files|
      invariant s == Walked(files[..i])
    {
      PrefixStep(files, i);
      var f := files[i];
      WalkedSnoc(files[..i], f);
      var dangling := s.dangling;
      if f.dangling {
        dangling := dangling + 1;
      }
      s := Scan(s.findings + f.findings, s.problems + f.problems, dangling, s.files + 1, s.used + f.uses);
    }
    Whole(files);
  }

  /** The allow-list entries that excused nothing, in the list's order. */
  function Stale(entries: nat, used: set<nat>): (r: seq<nat>)
    ensures forall e: nat :: e in r <==> e < entries && e !in used
  {
    if entries == 0 then [] else
      var front := Stale(entries - 1, used);
      if entries - 1 in used then front else front + [entries - 1]
  }

  /** A closed scan. stale lists entries; the rest of the problems are texts. */
  datatype Report = Report(findings: seq<Finding>, problems: seq<string>, stale: seq<nat>, dangling: nat, files: nat)

  function Finished(s: Scan, entries: nat): Report {
    Report(SortFindings(s.findings), s.problems, Stale(entries, s.used), s.dangling, s.files)
  }

  // ---- several parts as one ----

  function Flat(parts: seq<seq<FileScan>>): seq<FileScan> {
    if parts == [] then [] else Flat(parts[..|parts| - 1]) + parts[|parts| - 1]
  }

  /** Two scans, one after the other. */
  function Both(x: Scan, y: Scan): Scan {
    Scan(x.findings + y.findings, x.problems + y.problems, x.dangling + y.dangling, x.files + y.files, x.used + y.used)
  }

  lemma AddBoth(x: Scan, y: Scan, f: FileScan)
    ensures AddFile(Both(x, y), f) == Both(x, AddFile(y, f))
  {}

  lemma {:induction false} WalkedConcat(a: seq<FileScan>, b: seq<FileScan>)
    ensures Walked(a + b) == Both(Walked(a), Walked(b))
  {
    if b == [] {
      assert a + b == a;
    } else {
      var front, last := b[..|b| - 1], b[|b| - 1];
      assert a + b == (a + front) + [last] && b == front + [last];
      WalkedConcat(a, front);
      WalkedSnoc(a + front, last);
      AddBoth(Walked(a), Walked(front), last);
    }
  }

  /** How many of the parts left the entry unused. */
  function StaleCount(parts: seq<Scan>, entries: nat, e: nat): nat {
    if parts == [] then 0
    else StaleCount(parts[..|parts| - 1], entries, e) + if e in Stale(entries, parts[|parts| - 1].used) then 1 else 0
  }

  lemma {:induction false} StaleInAll(parts: seq<Scan>, entries: nat, e: nat)
    ensures StaleCount(parts, entries, e) <= |parts|
    ensures StaleCount(parts, entries, e) == |parts| <==> forall p | p in parts :: e in Stale(entries, p.used)
  {
    if parts != [] {
      assert parts == parts[..|parts| - 1] + [parts[|parts| - 1]];
      StaleInAll(parts[..|parts| - 1], entries, e);
    }
  }
}
