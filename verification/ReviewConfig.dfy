/** The review: section: folding operator layers, and resolving them with the project's. */
module ReviewConfig {
  import opened Basics
  import opened ConfigKeys
  import opened ConfigLayers

  const TARGET_ORDER := ["gonk"]
  const DEFAULT_TARGETS := ["gonk"]
  const NO_RUNG := ""
  const MAX_NOTES := 20
  const MAX_REVIEWS := 3

  /** One layer's section. rung is an operator's key: which model reviews. */
  datatype Policy = Policy(targets: List, rung: Option<string>, maxNotes: Option<int>, maxReviews: Option<int>)

  const SILENT := Policy(None, None, None, None)

  /** One operator layer onto another: two that name different rungs name none. */
  function Fold(base: Policy, next: Policy): Policy {
    Policy(Intersect(base.targets, next.targets), Agreed(NO_RUNG, base.rung, next.rung),
           Least(base.maxNotes, next.maxNotes), Least(base.maxReviews, next.maxReviews))
  }

  lemma FoldAssociates(a: Policy, b: Policy, c: Policy)
    ensures Fold(Fold(a, b), c) == Fold(a, Fold(b, c))
  {
    IntersectAssociates(a.targets, b.targets, c.targets);
    AgreedAssociates(NO_RUNG, a.rung, b.rung, c.rung);
  }

  // ---- resolving ----

  datatype Effective = Effective(targets: seq<string>, rung: string, maxNotes: int, maxReviews: int)

  /** The operators' rung, if they agree on a well-formed one; the project's is ignored. */
  function ResolveWith(valid: string -> bool, op: Policy, project: Policy): Effective {
    Effective(
      ResolveList(TARGET_ORDER, DEFAULT_TARGETS, project.targets, op.targets),
      if op.rung.Some? && valid(op.rung.value) then op.rung.value else NO_RUNG,
      ResolveNumber(MAX_NOTES, MAX_NOTES, project.maxNotes, op.maxNotes),
      ResolveNumber(MAX_REVIEWS, MAX_REVIEWS, project.maxReviews, op.maxReviews))
  }

  function Resolve(valid: string -> bool, instance: Policy, group: Policy, project: Policy): Effective {
    ResolveWith(valid, Fold(instance, group), project)
  }

  method FoldLayers(base: Policy, next: Policy) returns (p: Policy)
    ensures p == Fold(base, next)
  {
    var targets := IntersectLists(base.targets, next.targets);
    p := Policy(targets, Agreed(NO_RUNG, base.rung, next.rung), Least(base.maxNotes, next.maxNotes),
                Least(base.maxReviews, next.maxReviews));
  }

  method ResolveLayers(valid: string -> bool, instance: Policy, group: Policy, project: Policy)
    returns (e: Effective)
    ensures e == Resolve(valid, instance, group, project)
  {
    var op := FoldLayers(instance, group);
    var targets := ResolveListLoop(TARGET_ORDER, DEFAULT_TARGETS, project.targets, op.targets);
    e := Effective(targets, NO_RUNG, ResolveNumber(MAX_NOTES, MAX_NOTES, project.maxNotes, op.maxNotes),
                   ResolveNumber(MAX_REVIEWS, MAX_REVIEWS, project.maxReviews, op.maxReviews));
    if op.rung.Some? && valid(op.rung.value) {
      e := e.(rung := op.rung.value);
    }
  }

  // ---- tightness ----

  /** x allows nothing, in any key, that y does not. */
  ghost predicate Within(x: Policy, y: Policy) {
    && ListWithin(x.targets, y.targets) && FlatWithin(NO_RUNG, x.rung, y.rung)
    && NumberWithin(x.maxNotes, y.maxNotes) && NumberWithin(x.maxReviews, y.maxReviews)
  }

  lemma FoldTightens(p: Policy, q: Policy)
    ensures Within(Fold(p, q), p)
  {}

  lemma FoldKeepsWithin(p: Policy, q: Policy, r: Policy)
    requires Within(p, q)
    ensures Within(Fold(p, r), Fold(q, r))
  {}

  /** No more is reviewed, and no other model takes the place of the one there was. */
  ghost predicate Tighter(x: Effective, y: Effective) {
    && (forall v | v in x.targets :: v in y.targets) && x.maxNotes <= y.maxNotes && x.maxReviews <= y.maxReviews
    && (y.rung != NO_RUNG ==> x.rung == y.rung || x.rung == NO_RUNG)
  }

  lemma ResolveTightens(valid: string -> bool, x: Policy, y: Policy, project: Policy)
    requires Within(x, y)
    ensures Tighter(ResolveWith(valid, x, project), ResolveWith(valid, y, project))
  {}

  /** Adding an operator layer anywhere, whatever it says, widens nothing, and changes the reviewer to no
      other: at most it leaves none. */
  lemma OperatorsOnlyTighten(valid: string -> bool, base: Policy, before: seq<Policy>, x: Policy, after: seq<Policy>,
                             project: Policy)
    ensures Tighter(ResolveWith(valid, FoldAll(Fold, base, before + [x] + after), project),
                    ResolveWith(valid, FoldAll(Fold, base, before + after), project))
  {
    forall p, q ensures Within(Fold(p, q), p) { FoldTightens(p, q); }
    forall p, q, r | Within(p, q) ensures Within(Fold(p, r), Fold(q, r)) { FoldKeepsWithin(p, q, r); }
    LayersTighten(Fold, Within, base, before, x, after);
    ResolveTightens(valid, FoldAll(Fold, base, before + [x] + after), FoldAll(Fold, base, before + after), project);
  }

  // ---- what the layers come to, key by key ----

  function Or<T>(o: Option<T>, def: T): T { if o.Some? then o.value else def }

  lemma AllSilent(layers: seq<Policy>)
    ensures FoldAll(Fold, SILENT, layers).rung.None? <==> forall p :: p in layers ==> p.rung.None?
  {
    var allows := (p: Policy) => p.rung.None?;
    AllowedByAll(Fold, SILENT, layers, allows);
  }

  /** A well-formed rung reviews exactly when some operator layer names it and none names another; the
      project has no say. */
  lemma RungExactly(valid: string -> bool, layers: seq<Policy>, project: Policy, rung: string)
    requires valid(rung) && !valid(NO_RUNG)
    ensures ResolveWith(valid, FoldAll(Fold, SILENT, layers), project).rung == rung <==>
      && (exists p :: p in layers && p.rung == Some(rung))
      && forall p :: p in layers ==> FlatAllows(p.rung, rung)
  {
    AgreedExactly(Fold, SILENT, NO_RUNG, (p: Policy) => p.rung, layers, rung);
    AllSilent(layers);
  }

  /** A target gets through exactly when it is known, the project (or the default) lists it, and every
      layer that speaks lists it; a number reaches n exactly when its ceiling, the project and every
      layer that speaks let it. */
  lemma KeysExactly(valid: string -> bool, layers: seq<Policy>, project: Policy, v: string, n: int)
    requires 0 < n
    ensures var e := ResolveWith(valid, FoldAll(Fold, SILENT, layers), project);
      && (v in e.targets <==>
            v in TARGET_ORDER && v in Or(project.targets, DEFAULT_TARGETS)
            && forall p :: p in layers ==> ListAllows(p.targets, v))
      && (n <= e.maxNotes <==>
            n <= 20 && n <= Or(project.maxNotes, 20) && forall p :: p in layers ==> NumberAllows(p.maxNotes, n))
      && (n <= e.maxReviews <==>
            n <= 3 && n <= Or(project.maxReviews, 3) && forall p :: p in layers ==> NumberAllows(p.maxReviews, n))
  {
    ListExactly(Fold, SILENT, (p: Policy) => p.targets, layers, TARGET_ORDER, DEFAULT_TARGETS, project.targets, v);
    NumberExactly(Fold, SILENT, (p: Policy) => p.maxNotes, layers, MAX_NOTES, MAX_NOTES, project.maxNotes, n);
    NumberExactly(Fold, SILENT, (p: Policy) => p.maxReviews, layers, MAX_REVIEWS, MAX_REVIEWS, project.maxReviews, n);
  }
}
