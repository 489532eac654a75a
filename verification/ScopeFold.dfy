/** A workflow's scope: the pack row folded with every layer, and the lifts a dispatch may be
    granted (pkg/scope). */
module ScopeFold {
  import opened Basics
  import opened Listing

  datatype Class =
    | Control | Secret | Ci | Deploy | TestConfig | Deps | AgentContext | Generated | Test | Docs | Source | Other
    | UnknownClass(text: string)

  const CLASS_ORDER := [Control, Secret, Ci, Deploy, TestConfig, Deps, AgentContext, Generated, Test, Docs,
                        Source, Other]

  predicate ValidClass(c: Class) { !c.UnknownClass? }
  predicate Protected(c: Class) { c !in {Test, Docs, Source, Deploy, TestConfig, Deps, AgentContext, Generated, Other} }
  predicate Liftable(c: Class) { c == Ci }

  /** max_files, max_lines, max_deletes, max_file_bytes, max_patch_bytes. */
  const CAPS := 5
  type Caps = seq<int>
  type CapsPolicy = seq<Option<int>>

  /** One layer; patterns says its path patterns and profile names are well formed. */
  datatype Policy = Policy(classes: Option<seq<Class>>, caps: CapsPolicy, denyLift: seq<Class>, patterns: bool)

  datatype Row = Row(classes: seq<Class>, liftable: seq<Class>, caps: Caps)

  datatype Effective = Effective(enabled: bool, classes: seq<Class>, caps: Caps, liftable: set<Class>)

  predicate PlainClasses(cs: seq<Class>) { forall c | c in cs :: ValidClass(c) && !Protected(c) }

  predicate ValidPolicy(p: Policy) {
    && (p.classes.Some? ==> PlainClasses(p.classes.value))
    && |p.caps| == CAPS && (forall v | v in p.caps && v.Some? :: v.value >= 0)
    && (forall c | c in p.denyLift :: Liftable(c)) && p.patterns
  }

  predicate ValidRow(r: Row) {
    && PlainClasses(r.classes) && (forall c | c in r.liftable :: Liftable(c))
    && |r.caps| == CAPS && forall v | v in r.caps :: v >= 0
  }

  // ---- what a fold comes to ----

  predicate InEvery(c: Class, layers: seq<Policy>) {
    forall p | p in layers :: p.classes.Some? ==> c in p.classes.value
  }

  predicate Vetoed(c: Class, layers: seq<Policy>) { exists p :: p in layers && c in p.denyLift }

  /** v is the row's cap k and no layer's is smaller; and it is one of them. */
  predicate LeastCap(v: int, k: nat, r: Row, layers: seq<Policy>)
    requires k < |r.caps|
  {
    && v <= r.caps[k] && (forall p | p in layers && CapOf(p, k).Some? :: v <= CapOf(p, k).value)
    && (v == r.caps[k] || exists p :: p in layers && CapOf(p, k) == Some(v))
  }

  function CapOf(p: Policy, k: nat): Option<int> { if k < |p.caps| then p.caps[k] else None }

  predicate AllValid(r: Row, layers: seq<Policy>, optIn: seq<Class>) {
    ValidRow(r) && (forall p | p in layers :: ValidPolicy(p)) && forall c | c in optIn :: Liftable(c)
  }

  /** The workflow's own maximum, and every layer's say. */
  ghost predicate FoldOf(e: Effective, r: Row, layers: seq<Policy>, enabled: bool, optIn: seq<Class>)
    requires AllValid(r, layers, optIn)
  {
    && e.enabled == enabled
    && (forall c :: c in e.classes <==> c in r.classes && InEvery(c, layers))
    && |e.caps| == CAPS && (forall k | 0 <= k < CAPS :: LeastCap(e.caps[k], k, r, layers))
    && (forall c :: c in e.liftable <==> c in r.liftable && c in optIn && !Vetoed(c, layers))
  }

  // ---- the fold, layer by layer ----

  method LowerCaps(have: Caps, p: Policy) returns (caps: Caps)
    requires |have| == CAPS && ValidPolicy(p)
    ensures |caps| == CAPS
    ensures forall k | 0 <= k < CAPS ::
      caps[k] == if p.caps[k].Some? && p.caps[k].value < have[k] then p.caps[k].value else have[k]
  {
    caps := have;
    for k := 0 to CAPS
      invariant |caps| == CAPS && forall j | k <= j < CAPS :: caps[j] == have[j]
      invariant forall j | 0 <= j < k ::
        caps[j] == if p.caps[j].Some? && p.caps[j].value < have[j] then p.caps[j].value else have[j]
    {
      if p.caps[k].Some? && p.caps[k].value < caps[k] {
        caps := caps[k := p.caps[k].value];
      }
    }
  }

  lemma CapStep(have: int, v: int, k: nat, r: Row, layers: seq<Policy>, p: Policy)
    requires k < |r.caps| && LeastCap(have, k, r, layers)
    requires v == if CapOf(p, k).Some? && CapOf(p, k).value < have then CapOf(p, k).value else have
    ensures LeastCap(v, k, r, layers + [p])
  {
    assert p in layers + [p];
    if v == have && have != r.caps[k] {
      var q :| q in layers && CapOf(q, k) == Some(have);
      assert q in layers + [p];
    }
  }

  function Ordered(order: seq<Class>, s: set<Class>): (cs: seq<Class>)
    ensures forall c :: c in cs <==> c in order && c in s
  {
    if order == [] then []
    else Ordered(order[..|order| - 1], s) + if order[|order| - 1] in s then [order[|order| - 1]] else []
  }

  lemma InOrder(c: Class)
    requires ValidClass(c)
    ensures c in CLASS_ORDER
  {
    match c
    case Control => assert CLASS_ORDER[0] == c;
    case Secret => assert CLASS_ORDER[1] == c;
    case Ci => assert CLASS_ORDER[2] == c;
    case Deploy => assert CLASS_ORDER[3] == c;
    case TestConfig => assert CLASS_ORDER[4] == c;
    case Deps => assert CLASS_ORDER[5] == c;
    case AgentContext => assert CLASS_ORDER[6] == c;
    case Generated => assert CLASS_ORDER[7] == c;
    case Test => assert CLASS_ORDER[8] == c;
    case Docs => assert CLASS_ORDER[9] == c;
    case Source => assert CLASS_ORDER[10] == c;
    case Other => assert CLASS_ORDER[11] == c;
  }

  method CheckPlain(cs: seq<Class>) returns (ok: bool)
    ensures ok <==> PlainClasses(cs)
  {
    for i := 0 to |cs|
      invariant forall j | 0 <= j < i :: ValidClass(cs[j]) && !Protected(cs[j])
    {
      if !ValidClass(cs[i]) || Protected(cs[i]) {
        assert cs[i] in cs;
        return false;
      }
    }
    ok := true;
  }

  method CheckLiftable(cs: seq<Class>) returns (ok: bool)
    ensures ok <==> forall c | c in cs :: Liftable(c)
  {
    for i := 0 to |cs|
      invariant forall j | 0 <= j < i :: Liftable(cs[j])
    {
      if !Liftable(cs[i]) {
        assert cs[i] in cs;
        return false;
      }
    }
    ok := true;
  }

  /** The pack row's own checks. */
  method CheckRow(r: Row) returns (ok: bool)
    ensures ok <==> ValidRow(r)
  {
    var plain := CheckPlain(r.classes);
    var liftable := CheckLiftable(r.liftable);
    if !plain || !liftable || |r.caps| != CAPS {
      return false;
    }
    for k := 0 to CAPS
      invariant forall j | 0 <= j < k :: r.caps[j] >= 0
    {
      if r.caps[k] < 0 {
        assert r.caps[k] in r.caps;
        return false;
      }
    }
    ok := true;
  }

  /** One layer's checks, its patterns and profiles aside. */
  method CheckPolicy(p: Policy) returns (ok: bool)
    ensures ok <==> ValidPolicy(p)
  {
    if p.classes.Some? {
      var plain := CheckPlain(p.classes.value);
      if !plain {
        return false;
      }
    }
    if |p.caps| != CAPS {
      return false;
    }
    for k := 0 to CAPS
      invariant forall j | 0 <= j < k :: p.caps[j].Some? ==> p.caps[j].value >= 0
    {
      if p.caps[k].Some? && p.caps[k].value < 0 {
        assert p.caps[k] in p.caps;
        return false;
      }
    }
    var liftable := CheckLiftable(p.denyLift);
    ok := liftable && p.patterns;
  }

  /** The first layer that does not validate refuses them all. */
  method CheckAll(r: Row, layers: seq<Policy>, optIn: seq<Class>) returns (ok: bool)
    ensures ok <==> AllValid(r, layers, optIn)
  {
    ok := CheckRow(r);
    if !ok {
      return;
    }
    for i := 0 to |layers|
      invariant forall j | 0 <= j < i :: ValidPolicy(layers[j])
    {
      ok := CheckPolicy(layers[i]);
      if !ok {
        assert layers[i] in layers;
        return;
      }
    }
    ok := CheckLiftable(optIn);
  }

  /** Refuses a layer that does not validate; otherwise every layer tightens what the row allows. */
  method Fold(sha: bool, r: Row, layers: seq<Policy>, enabled: bool, optIn: seq<Class>) returns (e: Option<Effective>)
    ensures e.Some? <==> sha && AllValid(r, layers, optIn)
    ensures e.Some? ==> FoldOf(e.value, r, layers, enabled, optIn)
  {
    if !sha {
      return None;
    }
    var valid := CheckAll(r, layers, optIn);
    if !valid {
      return None;
    }
    var allowed := set c | c in r.classes;
    var lift := set c | c in r.liftable && c in optIn;
    var caps := r.caps;
    for i := 0 to |layers|
      invariant forall p | p in layers[..i] :: ValidPolicy(p)
      invariant forall c :: c in allowed <==> c in r.classes && InEvery(c, layers[..i])
      invariant forall c :: c in lift <==> c in r.liftable && c in optIn && !Vetoed(c, layers[..i])
      invariant |caps| == CAPS && forall k | 0 <= k < CAPS :: LeastCap(caps[k], k, r, layers[..i])
    {
      var p := layers[i];
      ghost var seen := layers[..i];
      assert layers[..i + 1] == seen + [p] && p in layers;
      EveryStep(seen, p);
      if p.classes.Some? {
        allowed := set c | c in p.classes.value && c in allowed;
      }
      ghost var before := caps;
      caps := LowerCaps(caps, p);
      forall k | 0 <= k < CAPS ensures LeastCap(caps[k], k, r, seen + [p]) {
        CapStep(before[k], caps[k], k, r, seen, p);
      }
      lift := lift - set c | c in p.denyLift;
    }
    assert layers[..|layers|] == layers;
    forall c | c in r.classes ensures c in CLASS_ORDER { InOrder(c); }
    return Some(Effective(enabled, Ordered(CLASS_ORDER, allowed), caps, lift));
  }

  lemma EveryStep(layers: seq<Policy>, p: Policy)
    ensures forall c :: InEvery(c, layers + [p]) <==> InEvery(c, layers) && (p.classes.Some? ==> c in p.classes.value)
    ensures forall c :: Vetoed(c, layers + [p]) <==> Vetoed(c, layers) || c in p.denyLift
    ensures forall q :: q in layers + [p] <==> q in layers || q == p
  {
    assert p in layers + [p];
    forall c | Vetoed(c, layers) ensures Vetoed(c, layers + [p]) {
      var q :| q in layers && c in q.denyLift;
      assert q in layers + [p];
    }
    forall c | c in p.denyLift ensures Vetoed(c, layers + [p]) {}
  }

  // ---- what may be written ----

  datatype Lift = Lift(classes: set<Class>)

  predicate Has(l: Lift, c: Class) { Liftable(c) && c in l.classes }

  predicate Allows(e: Effective, c: Class, l: Lift) {
    if !e.enabled || !ValidClass(c) then false
    else if Protected(c) then Liftable(c) && Has(l, c) && c in e.liftable
    else c in e.classes
  }

  /** A lift for one dispatch, or a refusal. named says the grant names its trigger and workflow. */
  function GrantLift(e: Effective, named: bool, wanted: seq<Class>): Option<Lift> {
    if !named || wanted == [] || !e.enabled then None
    else if exists c :: c in wanted && (!ValidClass(c) || !Liftable(c) || c !in e.liftable) then None
    else Some(Lift(set c | c in wanted))
  }

  /** A path may be written exactly when the workflow is on and its class is in the row and in every
      layer's list; a protected class only if it is `ci`, the lift carries it, the row lists it, the
      project opted in and no layer vetoes. The floor is never writable. */
  lemma WritableExactly(e: Effective, r: Row, layers: seq<Policy>, enabled: bool, optIn: seq<Class>, c: Class, l: Lift)
    requires AllValid(r, layers, optIn) && FoldOf(e, r, layers, enabled, optIn)
    ensures Allows(e, c, l) <==>
      && enabled && ValidClass(c)
      && if Protected(c) then c == Ci && c in l.classes && c in r.liftable && c in optIn && !Vetoed(c, layers)
         else c in r.classes && InEvery(c, layers)
    ensures c in {Control, Secret} ==> !Allows(e, c, l)
  {}

  /** A granted lift opens `ci` and nothing else, and is granted only where it does. */
  lemma GrantsOpenCi(e: Effective, named: bool, wanted: seq<Class>, c: Class)
    ensures GrantLift(e, named, wanted).Some? ==> Allows(e, Ci, GrantLift(e, named, wanted).value)
    ensures GrantLift(e, named, wanted).Some? <==>
      named && e.enabled && wanted != [] && Ci in e.liftable && forall w | w in wanted :: w == Ci
    ensures
      GrantLift(e, named, wanted).Some? && Protected(c) && Allows(e, c, GrantLift(e, named, wanted).value) ==> c == Ci
  {
    if wanted != [] { assert wanted[0] in wanted; }
  }

  // ---- nested groups ----

  function FoldClasses(a: Option<seq<Class>>, b: Option<seq<Class>>): Option<seq<Class>> {
    if a.None? then b else if b.None? then a else Some(Both(a.value, b.value))
  }

  /** The members of a that b has too, each once. */
  function Both(a: seq<Class>, b: seq<Class>): (r: seq<Class>)
    ensures forall c :: c in r <==> c in a && c in b
  {
    if a == [] then [] else
      var front, last := a[..|a| - 1], a[|a| - 1];
      assert a == front + [last];
      var r := Both(front, b);
      if last in b && last !in r then r + [last] else r
  }

  function MinCap(a: Option<int>, b: Option<int>): Option<int> {
    if a.None? then b else if b.None? || a.value <= b.value then a else b
  }

  function FoldCaps(a: CapsPolicy, b: CapsPolicy): CapsPolicy
    requires |a| == CAPS && |b| == CAPS
  {
    seq(CAPS, k requires 0 <= k < CAPS => MinCap(a[k], b[k]))
  }

  /** Two layers of one kind as one. */
  function FoldPolicies(base: Policy, next: Policy): Policy
    requires |base.caps| == CAPS && |next.caps| == CAPS
  {
    Policy(FoldClasses(base.classes, next.classes), FoldCaps(base.caps, next.caps),
           Joined([], base.denyLift + next.denyLift), base.patterns && next.patterns)
  }

  lemma FoldedIsValid(a: Policy, b: Policy)
    requires ValidPolicy(a) && ValidPolicy(b)
    ensures ValidPolicy(FoldPolicies(a, b))
  {
    forall v | v in FoldPolicies(a, b).caps && v.Some? ensures v.value >= 0 {
      var k :| 0 <= k < CAPS && FoldPolicies(a, b).caps[k] == v;
      assert a.caps[k] in a.caps && b.caps[k] in b.caps;
    }
  }

  /** Folding two nested groups into one layer gives what folding them as two layers gives: nothing
      either says is dropped or loosened. */
  lemma NestedGroupsAddUp(e: Effective, r: Row, before: seq<Policy>, a: Policy, b: Policy, after: seq<Policy>,
                          enabled: bool, optIn: seq<Class>)
    requires AllValid(r, before + [a, b] + after, optIn) && ValidPolicy(a) && ValidPolicy(b)
    ensures AllValid(r, before + [FoldPolicies(a, b)] + after, optIn)
    ensures FoldOf(e, r, before + [a, b] + after, enabled, optIn) <==>
        FoldOf(e, r, before + [FoldPolicies(a, b)] + after, enabled, optIn)
  {
    var two, one, ab := before + [a, b] + after, before + [FoldPolicies(a, b)] + after, FoldPolicies(a, b);
    assert two[|before|] == a && two[|before| + 1] == b && one[|before|] == ab;
    assert forall p :: p in two <==> p in before || p == a || p == b || p in after;
    assert forall p :: p in one <==> p in before || p == ab || p in after;
    FoldedIsValid(a, b);
    forall p | p in one ensures ValidPolicy(p) { if p != ab { assert p in two; } }
    forall c ensures InEvery(c, two) == InEvery(c, one) && Vetoed(c, two) == Vetoed(c, one) {
      NestedClass(c, two, one, before, a, b, after);
    }
    forall k, v | 0 <= k < CAPS ensures LeastCap(v, k, r, two) == LeastCap(v, k, r, one) {
      NestedCap(v, k, r, two, one, before, a, b, after);
    }
  }

  lemma NestedClass(c: Class, two: seq<Policy>, one: seq<Policy>, before: seq<Policy>, a: Policy, b: Policy,
                    after: seq<Policy>)
    requires |a.caps| == CAPS && |b.caps| == CAPS
    requires forall p :: p in two <==> p in before || p == a || p == b || p in after
    requires forall p :: p in one <==> p in before || p == FoldPolicies(a, b) || p in after
    ensures InEvery(c, two) == InEvery(c, one) && Vetoed(c, two) == Vetoed(c, one)
  {
    assert a in two && b in two && FoldPolicies(a, b) in one;
  }

  lemma NestedCap(v: int, k: nat, r: Row, two: seq<Policy>, one: seq<Policy>, before: seq<Policy>, a: Policy,
                  b: Policy, after: seq<Policy>)
    requires k < CAPS == |r.caps| && |a.caps| == CAPS && |b.caps| == CAPS
    requires forall p :: p in two <==> p in before || p == a || p == b || p in after
    requires forall p :: p in one <==> p in before || p == FoldPolicies(a, b) || p in after
    ensures LeastCap(v, k, r, two) == LeastCap(v, k, r, one)
  {
    var ab := FoldPolicies(a, b);
    assert a in two && b in two && ab in one && CapOf(ab, k) == MinCap(CapOf(a, k), CapOf(b, k));
  }
}
