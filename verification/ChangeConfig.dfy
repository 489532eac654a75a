/** The change: section: folding operator layers, and resolving them with the project's. */
module ChangeConfig {
  import opened Basics
  import opened ConfigKeys
  import opened ConfigLayers
  import opened Listing
  import Fix = PipelineFixConfig

  const TRIGGER_ORDER := ["label", "command", "mention"]
  const CREATE_ORDER := ["source", "test", "docs"]
  const MERGE_ORDER := ["docs"]
  const DEFAULT_TRIGGERS := ["label"]
  const DEFAULT_CREATE := ["test", "docs"]
  const DEFAULT_LABELS := ["feature", "enhancement", "type::feature"]

  datatype Policy = Policy(
    triggers: List, createClasses: List, requireDocs: Option<string>, docsLabels: List,
    requireTestReport: Option<bool>, maxAttempts: Option<int>, maxOpen: Option<int>,
    verifyTimeout: Option<int>, maxFiles: Option<int>, maxChangedLines: Option<int>,
    paths: seq<string>, autoMerge: Fix.AutoMerge)

  const SILENT := Policy(None, None, None, None, None, None, None, None, None, None, [],
                         Fix.AutoMerge(None, None, None))

  function Fold(base: Policy, next: Policy): Policy {
    Policy(
      Intersect(base.triggers, next.triggers), Intersect(base.createClasses, next.createClasses),
      StricterDocs(base.requireDocs, next.requireDocs), Union(base.docsLabels, next.docsLabels),
      Sticky(base.requireTestReport, next.requireTestReport),
      Least(base.maxAttempts, next.maxAttempts), Least(base.maxOpen, next.maxOpen),
      Least(base.verifyTimeout, next.verifyTimeout), Least(base.maxFiles, next.maxFiles),
      Least(base.maxChangedLines, next.maxChangedLines), [], Fix.FoldMerge(base.autoMerge, next.autoMerge))
  }

  lemma FoldAssociates(a: Policy, b: Policy, c: Policy)
    ensures Fold(Fold(a, b), c) == Fold(a, Fold(b, c))
  {
    IntersectAssociates(a.triggers, b.triggers, c.triggers);
    IntersectAssociates(a.createClasses, b.createClasses, c.createClasses);
    UnionAssociates(a.docsLabels, b.docsLabels, c.docsLabels);
    DocsAssociates(a.requireDocs, b.requireDocs, c.requireDocs);
    Fix.MergeAssociates(a.autoMerge, b.autoMerge, c.autoMerge);
  }

  /** A silent layer before p changes nothing exactly when p names no paths and no label twice; a
      silent layer after it, when p names no paths. */
  lemma SilenceChangesNothing(p: Policy)
    ensures Fold(SILENT, p) == p <==> p.paths == [] && NoRepeats(Items(p.docsLabels))
    ensures Fold(p, SILENT) == p <==> p.paths == []
  {
    JoinedFromNothing(Items(p.docsLabels));
  }

  // ---- resolving ----

  datatype Effective = Effective(
    triggers: seq<string>, createClasses: seq<string>, requireDocs: string, docsLabels: seq<string>,
    requireTestReport: bool, maxAttempts: int, maxOpen: int, verifyTimeout: int, maxFiles: int,
    maxChangedLines: int, paths: seq<string>, autoMerge: Fix.EffectiveMerge)

  function ResolveDocs(project: Option<string>, operator: Option<string>): string {
    var docs := StricterDocs(Some(if project.Some? then project.value else DOCS_LABELLED), operator).value;
    if DocsRank(docs) == 99 then DOCS_ALWAYS else docs
  }

  /** The well-formed labels, each once, in the order they are met. */
  function Usable(valid: string -> bool, labels: seq<string>): (r: seq<string>)
    ensures NoRepeats(r)
    ensures forall l :: l in r <==> l in labels && valid(l)
  {
    if labels == [] then [] else
      var front, last := labels[..|labels| - 1], labels[|labels| - 1];
      assert labels == front + [last];
      var r := Usable(valid, front);
      if valid(last) && last !in r then r + [last] else r
  }

  function ResolveLabels(valid: string -> bool, project: List, operator: List): seq<string> {
    Usable(valid, Items(Union(Some(if project.Some? then project.value else DEFAULT_LABELS), operator)))
  }

  method ResolveLabelsLoop(valid: string -> bool, project: List, operator: List) returns (out: seq<string>)
    ensures out == ResolveLabels(valid, project, operator)
  {
    var labels := if project.Some? then project.value else DEFAULT_LABELS;
    var all := UnionLists(Some(labels), operator);
    out := [];
    for i := 0 to |all.value|
      invariant out == Usable(valid, all.value[..i])
    {
      assert all.value[..i + 1][..i] == all.value[..i];
      var l := all.value[i];
      if valid(l) && l !in out {
        out := out + [l];
      }
    }
    assert all.value[..|all.value|] == all.value;
  }

  function ResolveMerge(project: Fix.AutoMerge, operator: Fix.AutoMerge): Fix.EffectiveMerge {
    Fix.EffectiveMerge(
      Fix.ResolveMode(project.mode, operator.mode),
      ResolveList(MERGE_ORDER, ["docs"], project.classes, operator.classes),
      ResolveNumber(Fix.DEFAULT_MAX_PER_DAY, Fix.MAX_PER_DAY_CEILING, project.maxPerDay, operator.maxPerDay))
  }

  function ResolveWith(valid: string -> bool, op: Policy, project: Policy): Effective {
    Effective(
      ResolveList(TRIGGER_ORDER, DEFAULT_TRIGGERS, project.triggers, op.triggers),
      ResolveList(CREATE_ORDER, DEFAULT_CREATE, project.createClasses, op.createClasses),
      ResolveDocs(project.requireDocs, op.requireDocs),
      ResolveLabels(valid, project.docsLabels, op.docsLabels),
      On(project.requireTestReport) || On(op.requireTestReport),
      ResolveNumber(2, 3, project.maxAttempts, op.maxAttempts),
      ResolveNumber(1, 3, project.maxOpen, op.maxOpen),
      ResolveNumber(2 * Fix.HOUR, 6 * Fix.HOUR, project.verifyTimeout, op.verifyTimeout),
      ResolveNumber(6, 8, project.maxFiles, op.maxFiles),
      ResolveNumber(200, 300, project.maxChangedLines, op.maxChangedLines),
      project.paths,
      ResolveMerge(project.autoMerge, op.autoMerge))
  }

  function Resolve(valid: string -> bool, instance: Policy, group: Policy, project: Policy): Effective {
    ResolveWith(valid, Fold(instance, group), project)
  }

  method FoldLayers(base: Policy, next: Policy) returns (p: Policy)
    ensures p == Fold(base, next)
  {
    var triggers := IntersectLists(base.triggers, next.triggers);
    var classes := IntersectLists(base.createClasses, next.createClasses);
    var labels := UnionLists(base.docsLabels, next.docsLabels);
    var merge := IntersectLists(base.autoMerge.classes, next.autoMerge.classes);
    p := Policy(
      triggers, classes, StricterDocs(base.requireDocs, next.requireDocs), labels,
      Sticky(base.requireTestReport, next.requireTestReport),
      Least(base.maxAttempts, next.maxAttempts), Least(base.maxOpen, next.maxOpen),
      Least(base.verifyTimeout, next.verifyTimeout), Least(base.maxFiles, next.maxFiles),
      Least(base.maxChangedLines, next.maxChangedLines), [],
      Fix.AutoMerge(Agreed(Fix.MODE_OFF, base.autoMerge.mode, next.autoMerge.mode), merge,
                    Least(base.autoMerge.maxPerDay, next.autoMerge.maxPerDay)));
  }

  method ResolveLayers(valid: string -> bool, instance: Policy, group: Policy, project: Policy)
    returns (e: Effective)
    ensures e == Resolve(valid, instance, group, project)
  {
    var op := FoldLayers(instance, group);
    var triggers := ResolveListLoop(TRIGGER_ORDER, DEFAULT_TRIGGERS, project.triggers, op.triggers);
    var classes := ResolveListLoop(CREATE_ORDER, DEFAULT_CREATE, project.createClasses, op.createClasses);
    var labels := ResolveLabelsLoop(valid, project.docsLabels, op.docsLabels);
    var merge := ResolveListLoop(MERGE_ORDER, ["docs"], project.autoMerge.classes, op.autoMerge.classes);
    var docs := StricterDocs(Some(if project.requireDocs.Some? then project.requireDocs.value else DOCS_LABELLED),
                             op.requireDocs).value;
    if DocsRank(docs) == 99 {
      docs := DOCS_ALWAYS;
    }
    e := Effective(
      triggers, classes, docs, labels, On(project.requireTestReport) || On(op.requireTestReport),
      ResolveNumber(2, 3, project.maxAttempts, op.maxAttempts),
      ResolveNumber(1, 3, project.maxOpen, op.maxOpen),
      ResolveNumber(2 * Fix.HOUR, 6 * Fix.HOUR, project.verifyTimeout, op.verifyTimeout),
      ResolveNumber(6, 8, project.maxFiles, op.maxFiles),
      ResolveNumber(200, 300, project.maxChangedLines, op.maxChangedLines),
      project.paths,
      Fix.EffectiveMerge(
        Fix.ResolveMode(project.autoMerge.mode, op.autoMerge.mode), merge,
        ResolveNumber(Fix.DEFAULT_MAX_PER_DAY, Fix.MAX_PER_DAY_CEILING, project.autoMerge.maxPerDay,
                      op.autoMerge.maxPerDay)));
  }

  /** Whether a change for an issue with these labels must come with documentation. */
  predicate DocsRequired(e: Effective, issueLabels: seq<string>) {
    if e.requireDocs == DOCS_NEVER then false
    else if e.requireDocs == DOCS_LABELLED then exists l :: l in issueLabels && l in e.docsLabels
    else true
  }

  // ---- tightness ----

  ghost predicate LabelsWithin(x: List, y: List) { forall l | l in Items(y) :: l in Items(x) }

  ghost predicate Within(x: Policy, y: Policy) {
    && ListWithin(x.triggers, y.triggers) && ListWithin(x.createClasses, y.createClasses)
    && DocsWithin(x.requireDocs, y.requireDocs) && LabelsWithin(x.docsLabels, y.docsLabels)
    && StickyWithin(x.requireTestReport, y.requireTestReport)
    && NumberWithin(x.maxAttempts, y.maxAttempts) && NumberWithin(x.maxOpen, y.maxOpen)
    && NumberWithin(x.verifyTimeout, y.verifyTimeout) && NumberWithin(x.maxFiles, y.maxFiles)
    && NumberWithin(x.maxChangedLines, y.maxChangedLines) && Fix.MergeWithin(x.autoMerge, y.autoMerge)
  }

  /** Wherever y asks for documentation, whatever the issue's labels, so does x. */
  ghost predicate DocsAsked(x: Effective, y: Effective) {
    forall labels :: DocsRequired(y, labels) ==> DocsRequired(x, labels)
  }

  /** No key of x asks less of a change, or allows it more, than y's. */
  ghost predicate Tighter(x: Effective, y: Effective) { DocsAsked(x, y) && KeysTighter(x, y) }

  ghost predicate KeysTighter(x: Effective, y: Effective) {
    && ListsTighter(x, y) && NumbersTighter(x, y)
    && (y.requireTestReport ==> x.requireTestReport) && x.paths == y.paths
    && (x.autoMerge.mode == y.autoMerge.mode || x.autoMerge.mode == Fix.MODE_OFF)
  }

  ghost predicate ListsTighter(x: Effective, y: Effective) {
    && Fix.Subset(x.triggers, y.triggers) && Fix.Subset(x.createClasses, y.createClasses)
    && Fix.Subset(x.autoMerge.classes, y.autoMerge.classes)
  }

  ghost predicate NumbersTighter(x: Effective, y: Effective) {
    && x.maxAttempts <= y.maxAttempts && x.maxOpen <= y.maxOpen && x.verifyTimeout <= y.verifyTimeout
    && x.maxFiles <= y.maxFiles && x.maxChangedLines <= y.maxChangedLines
    && x.autoMerge.maxPerDay <= y.autoMerge.maxPerDay
  }

  lemma DocsTighten(valid: string -> bool, x: Policy, y: Policy, project: Policy, labels: seq<string>)
    requires DocsWithin(x.requireDocs, y.requireDocs) && LabelsWithin(x.docsLabels, y.docsLabels)
    requires DocsRequired(ResolveWith(valid, y, project), labels)
    ensures DocsRequired(ResolveWith(valid, x, project), labels)
  {
    var e, f := ResolveWith(valid, x, project), ResolveWith(valid, y, project);
    assert DocsRank(e.requireDocs) >= DocsRank(f.requireDocs);
    forall l | l in f.docsLabels ensures l in e.docsLabels {}
  }

  lemma KeysTighten(valid: string -> bool, x: Policy, y: Policy, project: Policy)
    requires Within(x, y)
    ensures KeysTighter(ResolveWith(valid, x, project), ResolveWith(valid, y, project))
  {
    ListsTighten(valid, x, y, project);
    NumbersTighten(valid, x, y, project);
  }

  lemma ListsTighten(valid: string -> bool, x: Policy, y: Policy, project: Policy)
    requires Within(x, y)
    ensures ListsTighter(ResolveWith(valid, x, project), ResolveWith(valid, y, project))
  {}

  lemma NumbersTighten(valid: string -> bool, x: Policy, y: Policy, project: Policy)
    requires Within(x, y)
    ensures NumbersTighter(ResolveWith(valid, x, project), ResolveWith(valid, y, project))
  {}

  lemma ResolveTightens(valid: string -> bool, x: Policy, y: Policy, project: Policy)
    requires Within(x, y)
    ensures Tighter(ResolveWith(valid, x, project), ResolveWith(valid, y, project))
  {
    forall labels | DocsRequired(ResolveWith(valid, y, project), labels)
      ensures DocsRequired(ResolveWith(valid, x, project), labels)
    {
      DocsTighten(valid, x, y, project, labels);
    }
    KeysTighten(valid, x, y, project);
  }

  lemma FoldTightens(p: Policy, x: Policy)
    ensures Within(Fold(p, x), p)
  {}

  lemma FoldKeepsWithin(x: Policy, y: Policy, r: Policy)
    requires Within(x, y)
    ensures Within(Fold(x, r), Fold(y, r))
  {}

  /** Adding an operator layer anywhere, whatever it says, loosens no key. */
  lemma OperatorsOnlyTighten(valid: string -> bool, base: Policy, before: seq<Policy>, x: Policy, after: seq<Policy>,
                             project: Policy)
    ensures Tighter(ResolveWith(valid, FoldAll(Fold, base, before + [x] + after), project),
                    ResolveWith(valid, FoldAll(Fold, base, before + after), project))
  {
    forall p, q ensures Within(Fold(p, q), p) { FoldTightens(p, q); }
    forall p, q, r | Within(p, q) ensures Within(Fold(p, r), Fold(q, r)) { FoldKeepsWithin(p, q, r); }
    LayersTighten(Fold, Within, base, before, x, after);
    ResolveTightens(valid, FoldAll(Fold, base, before + [x] + after), FoldAll(Fold, base, before + after), project);
  }

  // ---- what the layers come to, key by key ----

  /** A trigger, a class that may be created or a merge class gets through exactly when it is known, the
      project (or the default) lists it, and every layer that speaks lists it. */
  lemma ListsExactly(valid: string -> bool, layers: seq<Policy>, project: Policy, v: string)
    ensures var e := ResolveWith(valid, FoldAll(Fold, SILENT, layers), project);
      && (v in e.triggers <==>
            v in TRIGGER_ORDER && v in Fix.Or(project.triggers, DEFAULT_TRIGGERS)
            && forall p :: p in layers ==> ListAllows(p.triggers, v))
      && (v in e.createClasses <==>
            v in CREATE_ORDER && v in Fix.Or(project.createClasses, DEFAULT_CREATE)
            && forall p :: p in layers ==> ListAllows(p.createClasses, v))
      && (v in e.autoMerge.classes <==>
            v in MERGE_ORDER && v in Fix.Or(project.autoMerge.classes, ["docs"])
            && forall p :: p in layers ==> ListAllows(p.autoMerge.classes, v))
  {
    ListExactly(Fold, SILENT, (p: Policy) => p.triggers, layers, TRIGGER_ORDER, DEFAULT_TRIGGERS, project.triggers, v);
    ListExactly(Fold, SILENT, (p: Policy) => p.createClasses, layers, CREATE_ORDER, DEFAULT_CREATE,
                project.createClasses, v);
    ListExactly(Fold, SILENT, (p: Policy) => p.autoMerge.classes, layers, MERGE_ORDER, ["docs"],
                project.autoMerge.classes, v);
  }

  /** A number reaches n exactly when its ceiling, the project (or the default) and every layer that
      speaks let it. */
  lemma NumbersExactly(valid: string -> bool, layers: seq<Policy>, project: Policy, n: int)
    requires 0 < n
    ensures var e := ResolveWith(valid, FoldAll(Fold, SILENT, layers), project);
      && (n <= e.maxAttempts <==>
            n <= 3 && n <= Fix.Or(project.maxAttempts, 2) && forall p :: p in layers ==> NumberAllows(p.maxAttempts, n))
      && (n <= e.maxOpen <==>
            n <= 3 && n <= Fix.Or(project.maxOpen, 1) && forall p :: p in layers ==> NumberAllows(p.maxOpen, n))
      && (n <= e.verifyTimeout <==>
            n <= 6 * Fix.HOUR && n <= Fix.Or(project.verifyTimeout, 2 * Fix.HOUR)
            && forall p :: p in layers ==> NumberAllows(p.verifyTimeout, n))
      && (n <= e.maxFiles <==>
            n <= 8 && n <= Fix.Or(project.maxFiles, 6) && forall p :: p in layers ==> NumberAllows(p.maxFiles, n))
      && (n <= e.maxChangedLines <==>
            n <= 300 && n <= Fix.Or(project.maxChangedLines, 200)
            && forall p :: p in layers ==> NumberAllows(p.maxChangedLines, n))
      && (n <= e.autoMerge.maxPerDay <==>
            n <= 3 && n <= Fix.Or(project.autoMerge.maxPerDay, 3)
            && forall p :: p in layers ==> NumberAllows(p.autoMerge.maxPerDay, n))
  {
    NumberExactly(Fold, SILENT, (p: Policy) => p.maxAttempts, layers, 2, 3, project.maxAttempts, n);
    NumberExactly(Fold, SILENT, (p: Policy) => p.maxOpen, layers, 1, 3, project.maxOpen, n);
    NumberExactly(Fold, SILENT, (p: Policy) => p.verifyTimeout, layers, 2 * Fix.HOUR, 6 * Fix.HOUR,
                  project.verifyTimeout, n);
    NumberExactly(Fold, SILENT, (p: Policy) => p.maxFiles, layers, 6, 8, project.maxFiles, n);
    NumberExactly(Fold, SILENT, (p: Policy) => p.maxChangedLines, layers, 200, 300, project.maxChangedLines, n);
    NumberExactly(Fold, SILENT, (p: Policy) => p.autoMerge.maxPerDay, layers, Fix.DEFAULT_MAX_PER_DAY,
                  Fix.MAX_PER_DAY_CEILING, project.autoMerge.maxPerDay, n);
  }

  lemma DocsResolved(project: Option<string>, operator: Option<string>, rank: int)
    requires 0 < rank <= 2
    ensures DocsRank(ResolveDocs(project, operator)) < rank <==>
      DocsRank(Fix.Or(project, DOCS_LABELLED)) < rank && DocsBelow(operator, rank)
  {}

  /** What is demanded: a report exactly when the project or some layer says so, a label exactly when
      it is usable and the project (or the default) or some layer names it, documentation as strictly
      as the strictest of them, a value nobody knows counting as always. */
  lemma DemandsExactly(valid: string -> bool, layers: seq<Policy>, project: Policy, name: string, rank: int)
    requires 0 < rank <= 2
    ensures var e := ResolveWith(valid, FoldAll(Fold, SILENT, layers), project);
      && (e.requireTestReport <==> On(project.requireTestReport) || exists p :: p in layers && On(p.requireTestReport))
      && (name in e.docsLabels <==>
            valid(name) && (name in Fix.Or(project.docsLabels, DEFAULT_LABELS)
                            || exists p :: p in layers && name in Items(p.docsLabels)))
      && (DocsRank(e.requireDocs) < rank <==>
            DocsRank(Fix.Or(project.requireDocs, DOCS_LABELLED)) < rank
            && forall p :: p in layers ==> DocsBelow(p.requireDocs, rank))
  {
    StickyExactly(Fold, SILENT, (p: Policy) => p.requireTestReport, layers);
    UnionExactly(Fold, SILENT, (p: Policy) => p.docsLabels, layers, name);
    DocsExactly(Fold, SILENT, (p: Policy) => p.requireDocs, layers, rank);
    DocsResolved(project.requireDocs, FoldAll(Fold, SILENT, layers).requireDocs, rank);
  }

  lemma CeilingsHold(valid: string -> bool, instance: Policy, group: Policy, project: Policy)
    ensures var e := Resolve(valid, instance, group, project);
      && Fix.Subset(e.triggers, TRIGGER_ORDER) && Fix.Subset(e.createClasses, CREATE_ORDER)
      && Fix.Subset(e.autoMerge.classes, MERGE_ORDER) && e.autoMerge.mode in Fix.MODES
      && e.requireDocs in {DOCS_NEVER, DOCS_LABELLED, DOCS_ALWAYS}
      && NoRepeats(e.docsLabels) && (forall l | l in e.docsLabels :: valid(l))
      && 0 <= e.maxAttempts <= 3 && 0 <= e.maxOpen <= 3 && 0 <= e.verifyTimeout <= 6 * Fix.HOUR
      && 0 <= e.maxFiles <= 8 && 0 <= e.maxChangedLines <= 300 && 0 <= e.autoMerge.maxPerDay <= 3
  {}
}
