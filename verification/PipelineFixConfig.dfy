/** The pipeline_fix: section: folding operator layers, and resolving them with the project's. */
module PipelineFixConfig {
  import opened Basics
  import opened ConfigKeys
  import opened ConfigLayers

  const HOUR := 3_600_000_000_000

  const CLASS_ORDER := ["code", "test", "configuration"]
  const TARGET_ORDER := ["ref", "mr"]
  const MERGE_CLASS_ORDER := ["docs", "ci"]
  const MODE_OFF := "off"
  const MODES := {MODE_OFF, "after-human-approval", "after-agentic-review"}

  const DEFAULT_CLASSES := ["code", "test"]
  const DEFAULT_TARGETS := ["ref"]
  const DEFAULT_MERGE_CLASSES := ["docs"]
  const DEFAULT_MAX_PER_DAY := 3
  const MAX_PER_DAY_CEILING := 3

  datatype AutoMerge = AutoMerge(mode: Option<string>, classes: List, maxPerDay: Option<int>)

  /** One layer's section. */
  datatype Policy = Policy(
    classes: List, targets: List, allowCI: Option<bool>, ciExec: Option<string>,
    maxAttempts: Option<int>, maxChain: Option<int>, verifyTimeout: Option<int>,
    maxFiles: Option<int>, maxChangedLines: Option<int>, paths: seq<string>, autoMerge: AutoMerge)

  const SILENT := Policy(None, None, None, None, None, None, None, None, None, [], AutoMerge(None, None, None))

  function FoldMerge(a: AutoMerge, b: AutoMerge): AutoMerge {
    AutoMerge(Agreed(MODE_OFF, a.mode, b.mode), Intersect(a.classes, b.classes), Least(a.maxPerDay, b.maxPerDay))
  }

  lemma MergeAssociates(a: AutoMerge, b: AutoMerge, c: AutoMerge)
    ensures FoldMerge(FoldMerge(a, b), c) == FoldMerge(a, FoldMerge(b, c))
  {
    AgreedAssociates(MODE_OFF, a.mode, b.mode, c.mode);
    IntersectAssociates(a.classes, b.classes, c.classes);
  }

  /** One operator layer onto another. paths is a project's key, and is not carried. */
  function Fold(base: Policy, next: Policy): Policy {
    Policy(
      Intersect(base.classes, next.classes), Intersect(base.targets, next.targets),
      Veto(base.allowCI, next.allowCI), StricterExec(base.ciExec, next.ciExec),
      Least(base.maxAttempts, next.maxAttempts), Least(base.maxChain, next.maxChain),
      Least(base.verifyTimeout, next.verifyTimeout), Least(base.maxFiles, next.maxFiles),
      Least(base.maxChangedLines, next.maxChangedLines), [], FoldMerge(base.autoMerge, next.autoMerge))
  }

  lemma FoldAssociates(a: Policy, b: Policy, c: Policy)
    ensures Fold(Fold(a, b), c) == Fold(a, Fold(b, c))
  {
    IntersectAssociates(a.classes, b.classes, c.classes);
    IntersectAssociates(a.targets, b.targets, c.targets);
    MergeAssociates(a.autoMerge, b.autoMerge, c.autoMerge);
  }

  /** A silent layer changes nothing, on either side, of a layer an operator may write (one that
      names no paths), and of no other. */
  lemma SilenceChangesNothing(p: Policy)
    ensures Fold(p, SILENT) == p <==> p.paths == []
    ensures Fold(SILENT, p) == p <==> p.paths == []
  {}

  // ---- resolving ----

  datatype EffectiveMerge = EffectiveMerge(mode: string, classes: seq<string>, maxPerDay: int)

  datatype Effective = Effective(
    classes: seq<string>, targets: seq<string>, allowCI: bool, ciExec: string,
    maxAttempts: int, maxChain: int, verifyTimeout: int, maxFiles: int, maxChangedLines: int,
    paths: seq<string>, autoMerge: EffectiveMerge)

  function ResolveExec(project: Option<string>, operator: Option<string>): string {
    var exec := StricterExec(Some(if project.Some? then project.value else EXEC_MANUAL), operator).value;
    if ExecRank(exec) < 0 then EXEC_DENY else exec
  }

  function ResolveMode(project: Option<string>, operator: Option<string>): string {
    var mode := Agreed(MODE_OFF, Some(if project.Some? then project.value else MODE_OFF), operator).value;
    if mode in MODES then mode else MODE_OFF
  }

  function ResolveMerge(project: AutoMerge, operator: AutoMerge): EffectiveMerge {
    EffectiveMerge(
      ResolveMode(project.mode, operator.mode),
      ResolveList(MERGE_CLASS_ORDER, DEFAULT_MERGE_CLASSES, project.classes, operator.classes),
      ResolveNumber(DEFAULT_MAX_PER_DAY, MAX_PER_DAY_CEILING, project.maxPerDay, operator.maxPerDay))
  }

  /** The project's value or the default, tightened by what the operator layers come to. */
  function ResolveWith(op: Policy, project: Policy): Effective {
    Effective(
      ResolveList(CLASS_ORDER, DEFAULT_CLASSES, project.classes, op.classes),
      ResolveList(TARGET_ORDER, DEFAULT_TARGETS, project.targets, op.targets),
      On(project.allowCI) && op.allowCI != Some(false),
      ResolveExec(project.ciExec, op.ciExec),
      ResolveNumber(2, 3, project.maxAttempts, op.maxAttempts),
      ResolveNumber(5, 10, project.maxChain, op.maxChain),
      ResolveNumber(2 * HOUR, 6 * HOUR, project.verifyTimeout, op.verifyTimeout),
      ResolveNumber(3, 3, project.maxFiles, op.maxFiles),
      ResolveNumber(40, 40, project.maxChangedLines, op.maxChangedLines),
      project.paths,
      ResolveMerge(project.autoMerge, op.autoMerge))
  }

  function Resolve(instance: Policy, group: Policy, project: Policy): Effective {
    ResolveWith(Fold(instance, group), project)
  }

  method FoldLayers(base: Policy, next: Policy) returns (p: Policy)
    ensures p == Fold(base, next)
  {
    var classes := IntersectLists(base.classes, next.classes);
    var targets := IntersectLists(base.targets, next.targets);
    var merge := IntersectLists(base.autoMerge.classes, next.autoMerge.classes);
    p := Policy(
      classes, targets, Veto(base.allowCI, next.allowCI), StricterExec(base.ciExec, next.ciExec),
      Least(base.maxAttempts, next.maxAttempts), Least(base.maxChain, next.maxChain),
      Least(base.verifyTimeout, next.verifyTimeout), Least(base.maxFiles, next.maxFiles),
      Least(base.maxChangedLines, next.maxChangedLines), [],
      AutoMerge(Agreed(MODE_OFF, base.autoMerge.mode, next.autoMerge.mode), merge,
                Least(base.autoMerge.maxPerDay, next.autoMerge.maxPerDay)));
  }

  method ResolveLayers(instance: Policy, group: Policy, project: Policy) returns (e: Effective)
    ensures e == Resolve(instance, group, project)
  {
    var op := FoldLayers(instance, group);
    var classes := ResolveListLoop(CLASS_ORDER, DEFAULT_CLASSES, project.classes, op.classes);
    var targets := ResolveListLoop(TARGET_ORDER, DEFAULT_TARGETS, project.targets, op.targets);
    var merge := ResolveListLoop(MERGE_CLASS_ORDER, DEFAULT_MERGE_CLASSES, project.autoMerge.classes,
                                 op.autoMerge.classes);
    var exec := StricterExec(Some(if project.ciExec.Some? then project.ciExec.value else EXEC_MANUAL), op.ciExec).value;
    if ExecRank(exec) < 0 {
      exec := EXEC_DENY;
    }
    var mode := Agreed(MODE_OFF, Some(if project.autoMerge.mode.Some? then project.autoMerge.mode.value else MODE_OFF),
                       op.autoMerge.mode).value;
    if mode !in MODES {
      mode := MODE_OFF;
    }
    e := Effective(
      classes, targets, On(project.allowCI) && op.allowCI != Some(false), exec,
      ResolveNumber(2, 3, project.maxAttempts, op.maxAttempts),
      ResolveNumber(5, 10, project.maxChain, op.maxChain),
      ResolveNumber(2 * HOUR, 6 * HOUR, project.verifyTimeout, op.verifyTimeout),
      ResolveNumber(3, 3, project.maxFiles, op.maxFiles),
      ResolveNumber(40, 40, project.maxChangedLines, op.maxChangedLines),
      project.paths,
      EffectiveMerge(mode, merge, ResolveNumber(DEFAULT_MAX_PER_DAY, MAX_PER_DAY_CEILING, project.autoMerge.maxPerDay,
                                                op.autoMerge.maxPerDay)));
  }

  // ---- tightness ----

  ghost predicate MergeWithin(x: AutoMerge, y: AutoMerge) {
    FlatWithin(MODE_OFF, x.mode, y.mode) && ListWithin(x.classes, y.classes) && NumberWithin(x.maxPerDay, y.maxPerDay)
  }

  /** x allows nothing, in any key, that y does not. */
  ghost predicate Within(x: Policy, y: Policy) {
    && ListWithin(x.classes, y.classes) && ListWithin(x.targets, y.targets)
    && VetoWithin(x.allowCI, y.allowCI) && ExecWithin(x.ciExec, y.ciExec)
    && NumberWithin(x.maxAttempts, y.maxAttempts) && NumberWithin(x.maxChain, y.maxChain)
    && NumberWithin(x.verifyTimeout, y.verifyTimeout) && NumberWithin(x.maxFiles, y.maxFiles)
    && NumberWithin(x.maxChangedLines, y.maxChangedLines) && MergeWithin(x.autoMerge, y.autoMerge)
  }

  ghost predicate Subset(x: seq<string>, y: seq<string>) { forall v | v in x :: v in y }

  /** No key of x is looser than y's. */
  ghost predicate Tighter(x: Effective, y: Effective) {
    && Subset(x.classes, y.classes) && Subset(x.targets, y.targets) && (x.allowCI ==> y.allowCI)
    && ExecRank(x.ciExec) <= ExecRank(y.ciExec)
    && x.maxAttempts <= y.maxAttempts && x.maxChain <= y.maxChain && x.verifyTimeout <= y.verifyTimeout
    && x.maxFiles <= y.maxFiles && x.maxChangedLines <= y.maxChangedLines && x.paths == y.paths
    && (x.autoMerge.mode == y.autoMerge.mode || x.autoMerge.mode == MODE_OFF)
    && Subset(x.autoMerge.classes, y.autoMerge.classes) && x.autoMerge.maxPerDay <= y.autoMerge.maxPerDay
  }

  lemma FoldTightens(p: Policy, x: Policy)
    ensures Within(Fold(p, x), p)
  {}

  lemma FoldKeepsWithin(x: Policy, y: Policy, r: Policy)
    requires Within(x, y)
    ensures Within(Fold(x, r), Fold(y, r))
  {}

  lemma ResolveTightens(x: Policy, y: Policy, project: Policy)
    requires Within(x, y)
    ensures Tighter(ResolveWith(x, project), ResolveWith(y, project))
  {}

  /** Adding an operator layer anywhere, whatever it says, loosens no key of what a project gets. */
  lemma OperatorsOnlyTighten(base: Policy, before: seq<Policy>, x: Policy, after: seq<Policy>, project: Policy)
    ensures Tighter(ResolveWith(FoldAll(Fold, base, before + [x] + after), project),
                    ResolveWith(FoldAll(Fold, base, before + after), project))
  {
    forall p, q ensures Within(Fold(p, q), p) { FoldTightens(p, q); }
    forall p, q, r | Within(p, q) ensures Within(Fold(p, r), Fold(q, r)) { FoldKeepsWithin(p, q, r); }
    LayersTighten(Fold, Within, base, before, x, after);
    ResolveTightens(FoldAll(Fold, base, before + [x] + after), FoldAll(Fold, base, before + after), project);
  }

  // ---- what the layers come to, key by key ----

  function Or<T>(o: Option<T>, def: T): T { if o.Some? then o.value else def }

  /** A class, a target or a merge class gets through exactly when it is known, the project (or the
      default) lists it, and every layer that speaks lists it. */
  lemma ListsExactly(layers: seq<Policy>, project: Policy, v: string)
    ensures var e := ResolveWith(FoldAll(Fold, SILENT, layers), project);
      && (v in e.classes <==>
            v in CLASS_ORDER && v in Or(project.classes, DEFAULT_CLASSES)
            && forall p :: p in layers ==> ListAllows(p.classes, v))
      && (v in e.targets <==>
            v in TARGET_ORDER && v in Or(project.targets, DEFAULT_TARGETS)
            && forall p :: p in layers ==> ListAllows(p.targets, v))
      && (v in e.autoMerge.classes <==>
            v in MERGE_CLASS_ORDER && v in Or(project.autoMerge.classes, DEFAULT_MERGE_CLASSES)
            && forall p :: p in layers ==> ListAllows(p.autoMerge.classes, v))
  {
    ListExactly(Fold, SILENT, (p: Policy) => p.classes, layers, CLASS_ORDER, DEFAULT_CLASSES, project.classes, v);
    ListExactly(Fold, SILENT, (p: Policy) => p.targets, layers, TARGET_ORDER, DEFAULT_TARGETS, project.targets, v);
    ListExactly(Fold, SILENT, (p: Policy) => p.autoMerge.classes, layers, MERGE_CLASS_ORDER, DEFAULT_MERGE_CLASSES,
                project.autoMerge.classes, v);
  }

  /** A number reaches n exactly when its ceiling, the project (or the default) and every layer that
      speaks let it. */
  lemma NumbersExactly(layers: seq<Policy>, project: Policy, n: int)
    requires 0 < n
    ensures var e := ResolveWith(FoldAll(Fold, SILENT, layers), project);
      && (n <= e.maxAttempts <==>
            n <= 3 && n <= Or(project.maxAttempts, 2) && forall p :: p in layers ==> NumberAllows(p.maxAttempts, n))
      && (n <= e.maxChain <==>
            n <= 10 && n <= Or(project.maxChain, 5) && forall p :: p in layers ==> NumberAllows(p.maxChain, n))
      && (n <= e.verifyTimeout <==>
            n <= 6 * HOUR && n <= Or(project.verifyTimeout, 2 * HOUR)
            && forall p :: p in layers ==> NumberAllows(p.verifyTimeout, n))
      && (n <= e.maxFiles <==>
            n <= 3 && n <= Or(project.maxFiles, 3) && forall p :: p in layers ==> NumberAllows(p.maxFiles, n))
      && (n <= e.maxChangedLines <==>
            n <= 40 && n <= Or(project.maxChangedLines, 40)
            && forall p :: p in layers ==> NumberAllows(p.maxChangedLines, n))
      && (n <= e.autoMerge.maxPerDay <==>
            n <= 3 && n <= Or(project.autoMerge.maxPerDay, 3)
            && forall p :: p in layers ==> NumberAllows(p.autoMerge.maxPerDay, n))
  {
    NumberExactly(Fold, SILENT, (p: Policy) => p.maxAttempts, layers, 2, 3, project.maxAttempts, n);
    NumberExactly(Fold, SILENT, (p: Policy) => p.maxChain, layers, 5, 10, project.maxChain, n);
    NumberExactly(Fold, SILENT, (p: Policy) => p.verifyTimeout, layers, 2 * HOUR, 6 * HOUR, project.verifyTimeout, n);
    NumberExactly(Fold, SILENT, (p: Policy) => p.maxFiles, layers, 3, 3, project.maxFiles, n);
    NumberExactly(Fold, SILENT, (p: Policy) => p.maxChangedLines, layers, 40, 40, project.maxChangedLines, n);
    NumberExactly(Fold, SILENT, (p: Policy) => p.autoMerge.maxPerDay, layers, DEFAULT_MAX_PER_DAY, MAX_PER_DAY_CEILING,
                  project.autoMerge.maxPerDay, n);
  }

  lemma ExecResolved(project: Option<string>, operator: Option<string>, rank: int)
    requires 0 < rank
    ensures rank <= ExecRank(ResolveExec(project, operator)) <==>
      rank <= ExecRank(Or(project, EXEC_MANUAL)) && ExecAllows(operator, rank)
  {}

  lemma ModeResolved(project: Option<string>, operator: Option<string>, mode: string)
    requires mode in MODES && mode != MODE_OFF
    ensures ResolveMode(project, operator) == mode <==> project == Some(mode) && FlatAllows(operator, mode)
  {}

  /** CI files may be changed exactly when the project says so and no layer says no; the more a CI
      change may do, and a merge mode, exactly when the project and every layer that speaks let it. */
  lemma ChoicesExactly(layers: seq<Policy>, project: Policy, rank: int, mode: string)
    requires 0 < rank && mode in MODES && mode != MODE_OFF
    ensures var e := ResolveWith(FoldAll(Fold, SILENT, layers), project);
      && (e.allowCI <==> On(project.allowCI) && forall p :: p in layers ==> p.allowCI != Some(false))
      && (rank <= ExecRank(e.ciExec) <==>
            rank <= ExecRank(Or(project.ciExec, EXEC_MANUAL)) && forall p :: p in layers ==> ExecAllows(p.ciExec, rank))
      && (e.autoMerge.mode == mode <==>
            project.autoMerge.mode == Some(mode) && forall p :: p in layers ==> FlatAllows(p.autoMerge.mode, mode))
  {
    var op := FoldAll(Fold, SILENT, layers);
    VetoExactly(Fold, SILENT, (p: Policy) => p.allowCI, layers);
    ExecExactly(Fold, SILENT, (p: Policy) => p.ciExec, layers, rank);
    AgreedExactly(Fold, SILENT, MODE_OFF, (p: Policy) => p.autoMerge.mode, layers, mode);
    ExecResolved(project.ciExec, op.ciExec, rank);
    ModeResolved(project.autoMerge.mode, op.autoMerge.mode, mode);
  }

  /** Whatever the layers hold, the outcome is inside the ceilings and the known values. */
  lemma CeilingsHold(instance: Policy, group: Policy, project: Policy)
    ensures var e := Resolve(instance, group, project);
      && Subset(e.classes, CLASS_ORDER) && Subset(e.targets, TARGET_ORDER)
      && Subset(e.autoMerge.classes, MERGE_CLASS_ORDER)
      && e.ciExec in {EXEC_DENY, EXEC_MANUAL, EXEC_AUTO} && e.autoMerge.mode in MODES
      && 0 <= e.maxAttempts <= 3 && 0 <= e.maxChain <= 10 && 0 <= e.verifyTimeout <= 6 * HOUR
      && 0 <= e.maxFiles <= 3 && 0 <= e.maxChangedLines <= 40 && 0 <= e.autoMerge.maxPerDay <= 3
  {}

  /** No operator layer opts a project in: what a project gets is never wider than what it asked for. */
  lemma NothingBeyondTheProject(instance: Policy, group: Policy, project: Policy)
    ensures Tighter(Resolve(instance, group, project), ResolveWith(SILENT, project))
    ensures !On(project.allowCI) ==> !Resolve(instance, group, project).allowCI
    ensures project.autoMerge.mode.None? ==> Resolve(instance, group, project).autoMerge.mode == MODE_OFF
  {
    assert Within(Fold(instance, group), SILENT);
    ResolveTightens(Fold(instance, group), SILENT, project);
  }
}
