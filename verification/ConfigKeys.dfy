/** How two configuration layers combine, key by key (pkg/gonkcfg). A key a layer does not write is
    silent; an empty list is not silence, it allows nothing. */
module ConfigKeys {
  import opened Basics
  import opened Listing

  type List = Option<seq<string>>

  // ---- lists that intersect ----

  /** The members of a that b has too, in a's order. */
  function Common(a: seq<string>, b: seq<string>): (r: seq<string>)
    ensures forall v :: v in r <==> v in a && v in b
  {
    if a == [] then [] else Common(a[..|a| - 1], b) + if a[|a| - 1] in b then [a[|a| - 1]] else []
  }

  function Intersect(a: List, b: List): List {
    if a.None? then b else if b.None? then a else Some(Common(a.value, b.value))
  }

  method IntersectLists(a: List, b: List) returns (r: List)
    ensures r == Intersect(a, b)
  {
    if a.None? {
      return b;
    }
    if b.None? {
      return a;
    }
    var out: seq<string> := [];
    for i := 0 to |a.value|
      invariant out == Common(a.value[..i], b.value)
    {
      assert a.value[..i + 1][..i] == a.value[..i];
      if a.value[i] in b.value {
        out := out + [a.value[i]];
      }
    }
    assert a.value[..|a.value|] == a.value;
    return Some(out);
  }

  lemma {:induction false} CommonAgain(a: seq<string>, b: seq<string>, c: seq<string>)
    ensures Common(Common(a, b), c) == Common(a, Common(b, c))
  {
    if a != [] {
      var front, last := a[..|a| - 1], a[|a| - 1];
      CommonAgain(front, b, c);
      var r := Common(front, b);
      if last in b {
        assert Common(a, b) == r + [last];
        assert (r + [last])[..|r|] == r && (r + [last])[|r|] == last;
      } else {
        assert Common(a, b) == r;
      }
    }
  }

  lemma IntersectAssociates(a: List, b: List, c: List)
    ensures Intersect(Intersect(a, b), c) == Intersect(a, Intersect(b, c))
  {
    if a.Some? && b.Some? && c.Some? { CommonAgain(a.value, b.value, c.value); }
  }

  /** Every value x allows, y allows; silence allows everything. */
  ghost predicate ListWithin(x: List, y: List) {
    y.Some? ==> x.Some? && forall v | v in x.value :: v in y.value
  }

  // ---- lists that add up ----

  function Items(a: List): seq<string> { if a.None? then [] else a.value }

  function Union(a: List, b: List): List {
    if a.None? && b.None? then None else Some(Joined(Items(a), Items(b)))
  }

  method UnionLists(a: List, b: List) returns (r: List)
    ensures r == Union(a, b)
  {
    if a.None? && b.None? {
      return None;
    }
    var out, add := Items(a), Items(b);
    for i := 0 to |add|
      invariant out == Joined(Items(a), add[..i])
    {
      assert add[..i + 1][..i] == add[..i];
      if add[i] !in out {
        out := out + [add[i]];
      }
    }
    assert add[..|add|] == add;
    return Some(out);
  }

  lemma {:induction false} JoinedAgain(a: seq<string>, b: seq<string>, c: seq<string>)
    ensures Joined(Joined(a, b), c) == Joined(a, Joined(b, c))
  {
    if c != [] {
      var front, last := c[..|c| - 1], c[|c| - 1];
      JoinedAgain(a, b, front);
      var r := Joined(b, front);
      if last !in r { assert (r + [last])[..|r|] == r; }
    }
  }

  lemma UnionAssociates(a: List, b: List, c: List)
    ensures Union(Union(a, b), c) == Union(a, Union(b, c))
  {
    JoinedAgain(Items(a), Items(b), Items(c));
  }

  lemma {:induction false} JoinedFromNothing(b: seq<string>)
    ensures NoRepeats(Joined([], b))
    ensures NoRepeats(b) ==> Joined([], b) == b
  {
    if b != [] {
      var front, last := b[..|b| - 1], b[|b| - 1];
      assert b == front + [last];
      JoinedFromNothing(front);
      if NoRepeats(b) { assert forall i | 0 <= i < |front| :: b[i] == front[i] && b[i] != b[|b| - 1]; }
    }
  }

  // ---- numbers, durations ----

  function Least(a: Option<int>, b: Option<int>): Option<int> {
    if a.None? then b else if b.None? then a else if b.value < a.value then b else a
  }

  ghost predicate NumberWithin(x: Option<int>, y: Option<int>) { y.Some? ==> x.Some? && x.value <= y.value }

  function Clamp(v: int, ceiling: int): int { if v < 0 then 0 else if v > ceiling then ceiling else v }

  /** The project's number or the default, an operator's when that is smaller, inside the ceiling. */
  function ResolveNumber(def: int, ceiling: int, project: Option<int>, operator: Option<int>): int {
    var v := if project.Some? then project.value else def;
    Clamp(if operator.Some? && operator.value < v then operator.value else v, ceiling)
  }

  // ---- switches ----

  /** An explicit false sticks. */
  function Veto(a: Option<bool>, b: Option<bool>): Option<bool> {
    if a == Some(false) then a else if b.Some? then b else a
  }

  ghost predicate VetoWithin(x: Option<bool>, y: Option<bool>) { y == Some(false) ==> x == Some(false) }

  /** An explicit true sticks. */
  function Sticky(a: Option<bool>, b: Option<bool>): Option<bool> {
    if a == Some(true) then a else if b.Some? then b else a
  }

  ghost predicate StickyWithin(x: Option<bool>, y: Option<bool>) { y == Some(true) ==> x == Some(true) }

  predicate On(b: Option<bool>) { b == Some(true) }

  // ---- choices in an order ----

  const EXEC_DENY := "deny"
  const EXEC_MANUAL := "manual-run"
  const EXEC_AUTO := "auto"

  /** Strictest first; a value nobody knows is the strictest of all. */
  function ExecRank(s: string): int {
    if s == EXEC_AUTO then 2 else if s == EXEC_MANUAL then 1 else if s == EXEC_DENY then 0 else -1
  }

  function StricterExec(a: Option<string>, b: Option<string>): Option<string> {
    if a.None? then b else if b.None? then a else if ExecRank(b.value) < ExecRank(a.value) then b else a
  }

  ghost predicate ExecWithin(x: Option<string>, y: Option<string>) {
    y.Some? ==> x.Some? && ExecRank(x.value) <= ExecRank(y.value)
  }

  const DOCS_NEVER := "never"
  const DOCS_LABELLED := "when-labelled"
  const DOCS_ALWAYS := "always"

  /** Loosest first; a value nobody knows is the strictest of all. */
  function DocsRank(s: string): int {
    if s == DOCS_NEVER then 0 else if s == DOCS_LABELLED then 1 else if s == DOCS_ALWAYS then 2 else 99
  }

  function StricterDocs(a: Option<string>, b: Option<string>): Option<string> {
    if a.None? then b else if b.None? then a else if DocsRank(b.value) > DocsRank(a.value) then b else a
  }

  lemma DocsAssociates(a: Option<string>, b: Option<string>, c: Option<string>)
    ensures StricterDocs(StricterDocs(a, b), c) == StricterDocs(a, StricterDocs(b, c))
  {}

  ghost predicate DocsWithin(x: Option<string>, y: Option<string>) {
    y.Some? ==> x.Some? && DocsRank(x.value) >= DocsRank(y.value)
  }

  // ---- flat choices ----

  /** Layers that name the same value keep it; layers that differ come to none. */
  function Agreed(none: string, a: Option<string>, b: Option<string>): Option<string> {
    if a.None? then b else if b.None? then a else if a.value == b.value then a else Some(none)
  }

  lemma AgreedAssociates(none: string, a: Option<string>, b: Option<string>, c: Option<string>)
    ensures Agreed(none, Agreed(none, a, b), c) == Agreed(none, a, Agreed(none, b, c))
  {}

  ghost predicate FlatWithin(none: string, x: Option<string>, y: Option<string>) {
    y.Some? ==> x == y || x == Some(none)
  }

  // ---- resolved lists ----

  function ListBase(def: seq<string>, project: List, operator: List): seq<string> {
    var base := if project.Some? then project.value else def;
    if operator.Some? then Common(base, operator.value) else base
  }

  /** The known members, in the known order. */
  function ResolveList(order: seq<string>, def: seq<string>, project: List, operator: List): seq<string> {
    Common(order, ListBase(def, project, operator))
  }

  method ResolveListLoop(order: seq<string>, def: seq<string>, project: List, operator: List) returns (out: seq<string>)
    ensures out == ResolveList(order, def, project, operator)
  {
    var base := def;
    if project.Some? {
      base := project.value;
    }
    if operator.Some? {
      var both := IntersectLists(Some(base), operator);
      base := both.value;
    }
    out := [];
    for i := 0 to |order|
      invariant out == Common(order[..i], base)
    {
      assert order[..i + 1][..i] == order[..i];
      if order[i] in base {
        out := out + [order[i]];
      }
    }
    assert order[..|order|] == order;
  }
}
