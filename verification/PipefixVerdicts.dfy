/** Every verdict of the exit check of a pipeline fix, said over the evidence: which attempts there
    were, how they ended, and how their failures compare with the diagnosed one. */
module PipefixVerdicts {
  import opened Basics
  import opened PipefixFacts
  import opened PipefixSpec
  import opened PipefixTheorems
  import opened Listing
  import opened Ordering
  import Judging = PipefixJudge

  // ---- one diagnosed job, over its attempts ----

  ghost predicate Weakened(s: seq<Attempt>) { exists a :: a in s && a.allowFailure }
  ghost predicate FailedOnce(s: seq<Attempt>) { exists a :: a in s && a.status == Failed }
  ghost predicate PassedOnce(s: seq<Attempt>) { exists a :: a in s && a.status == Success }

  ghost predicate FailedAlike(t: Target, s: seq<Attempt>, sameVersions: bool, kind: FailureKind) {
    exists a :: a in s && a.status == Failed && CompareFailure(t, a, sameVersions) == kind
  }

  /** Every failure can be compared with the diagnosed one. */
  ghost predicate Comparable(t: Target, s: seq<Attempt>, sameVersions: bool) {
    !FailedAlike(t, s, sameVersions, Incomparable) && !FailedAlike(t, s, sameVersions, Unread)
  }

  ghost predicate Seen(t: Target, s: seq<Attempt>, complete: bool, sameVersions: bool) {
    complete && !Weakened(s) && Comparable(t, s, sameVersions)
  }

  /** It only fails, and at least once the way it was diagnosed. */
  ghost predicate Recurs(t: Target, s: seq<Attempt>, complete: bool, sameVersions: bool) {
    Seen(t, s, complete, sameVersions) && FailedAlike(t, s, sameVersions, SameFailure) && !PassedOnce(s)
  }

  /** It both fails and passes. */
  ghost predicate Flickers(t: Target, s: seq<Attempt>, complete: bool, sameVersions: bool) {
    Seen(t, s, complete, sameVersions) && FailedOnce(s) && PassedOnce(s)
  }

  /** It only fails, and never the way it was diagnosed. */
  ghost predicate Differs(t: Target, s: seq<Attempt>, complete: bool, sameVersions: bool) {
    Seen(t, s, complete, sameVersions) && FailedOnce(s) && !FailedAlike(t, s, sameVersions, SameFailure)
      && !PassedOnce(s)
  }

  /** It only passes. */
  ghost predicate Holds(s: seq<Attempt>, complete: bool) {
    complete && s != [] && forall a :: a in s ==> a.status == Success && !a.allowFailure
  }

  lemma AlikeMeans(t: Target, s: seq<Attempt>, sameVersions: bool, kind: FailureKind)
    ensures Any(FailureTest(t, sameVersions, kind), s) <==> FailedAlike(t, s, sameVersions, kind)
  {
    AnyMembers(FailureTest(t, sameVersions, kind), s);
    if FailedAlike(t, s, sameVersions, kind) {
      var a :| a in s && a.status == Failed && CompareFailure(t, a, sameVersions) == kind;
      assert FailureTest(t, sameVersions, kind)(a);
    }
  }

  lemma CountsMean(s: seq<Attempt>)
    ensures Any(IsAllowed, s) <==> Weakened(s)
    ensures Count(IsFailed, s) > 0 <==> FailedOnce(s)
    ensures Count(IsSuccess, s) > 0 <==> PassedOnce(s)
  {
    AnyMembers(IsAllowed, s);
    CountMembers(IsFailed, s);
    CountMembers(IsSuccess, s);
    if a :| a in s && a.allowFailure { assert IsAllowed(a); }
    if a :| a in s && a.status == Failed { assert IsFailed(a); }
    if a :| a in s && a.status == Success { assert IsSuccess(a); }
  }

  /** The finding of a diagnosed job, by what its attempts did. */
  lemma FindingMeans(t: Target, s: seq<Attempt>, complete: bool, sameVersions: bool)
    ensures var rule := FindingOf(t, s, complete, sameVersions).rule;
      && (rule == J3Weakened <==> Weakened(s))
      && (rule == J3Recurs <==> Recurs(t, s, complete, sameVersions))
      && (rule in {J3FlakySame, J3FlakyChanged} <==> Flickers(t, s, complete, sameVersions))
      && (rule == J3Changed <==> Differs(t, s, complete, sameVersions))
      && (rule == J3Passed <==> Holds(s, complete))
  {
    CountsMean(s);
    PassedExactly(t, s, complete, sameVersions);
    AlikeMeans(t, s, sameVersions, SameFailure);
    AlikeMeans(t, s, sameVersions, Incomparable);
    AlikeMeans(t, s, sameVersions, Unread);
  }

  // ---- the diagnosed jobs together ----

  function Tries(sel: Selection, t: Target): seq<Attempt> { AttemptsOf(t.Name(), sel.candidates) }

  ghost predicate SomeWeakened(fix: FixFacts, sel: Selection) {
    exists t :: t in fix.targets && Weakened(Tries(sel, t))
  }
  ghost predicate SomeRecurs(fix: FixFacts, sel: Selection) {
    exists t :: t in fix.targets && Recurs(t, Tries(sel, t), AttemptsKnown(sel), SameVersions(fix))
  }
  ghost predicate SomeFlickers(fix: FixFacts, sel: Selection) {
    exists t :: t in fix.targets && Flickers(t, Tries(sel, t), AttemptsKnown(sel), SameVersions(fix))
  }
  ghost predicate SomeDiffers(fix: FixFacts, sel: Selection) {
    exists t :: t in fix.targets && Differs(t, Tries(sel, t), AttemptsKnown(sel), SameVersions(fix))
  }
  ghost predicate JobsObserved(fix: FixFacts, sel: Selection) {
    forall t :: t in fix.targets ==>
      Holds(Tries(sel, t), AttemptsKnown(sel)) || Differs(t, Tries(sel, t), AttemptsKnown(sel), SameVersions(fix))
  }

  function RuleFor(fix: FixFacts, sel: Selection, t: Target): Rule {
    FindingOf(t, Tries(sel, t), AttemptsKnown(sel), SameVersions(fix)).rule
  }

  ghost predicate HasRule(js: seq<JobFinding>, wanted: set<Rule>) { exists j :: j in js && j.rule in wanted }

  lemma RuleAt(fix: FixFacts, sel: Selection, i: nat)
    requires i < |fix.targets|
    ensures |JobFindings(fix, sel)| == |fix.targets|
    ensures JobFindings(fix, sel)[i] in JobFindings(fix, sel)
    ensures JobFindings(fix, sel)[i].rule
         == if RuleFor(fix, sel, fix.targets[i]) == J3Unknown then J3Unread else RuleFor(fix, sel, fix.targets[i])
  {
    FindingGivenUp(fix, sel, i);
  }

  /** What a finding says of some job is what that job's attempts say. */
  lemma RulesFound(fix: FixFacts, sel: Selection, wanted: set<Rule>)
    requires J3Unknown !in wanted && J3Unread !in wanted
    ensures HasRule(JobFindings(fix, sel), wanted) <==> exists t :: t in fix.targets && RuleFor(fix, sel, t) in wanted
  {
    var js := JobFindings(fix, sel);
    if HasRule(js, wanted) {
      var j :| j in js && j.rule in wanted;
      var i :| 0 <= i < |js| && js[i] == j;
      RuleAt(fix, sel, i);
      assert fix.targets[i] in fix.targets;
    }
    if t :| t in fix.targets && RuleFor(fix, sel, t) in wanted {
      var i :| 0 <= i < |fix.targets| && fix.targets[i] == t;
      RuleAt(fix, sel, i);
    }
  }

  ghost predicate RulesWithin(js: seq<JobFinding>, wanted: set<Rule>) { forall j :: j in js ==> j.rule in wanted }

  lemma ObservedEach(fix: FixFacts, sel: Selection, t: Target)
    requires RulesWithin(JobFindings(fix, sel), OBSERVED) && t in fix.targets
    ensures RuleFor(fix, sel, t) in OBSERVED
  {
    var i :| 0 <= i < |fix.targets| && fix.targets[i] == t;
    RuleAt(fix, sel, i);
  }

  lemma EachObserved(fix: FixFacts, sel: Selection)
    requires forall t :: t in fix.targets ==> RuleFor(fix, sel, t) in OBSERVED
    ensures RulesWithin(JobFindings(fix, sel), OBSERVED)
  {
    var js := JobFindings(fix, sel);
    forall i | 0 <= i < |fix.targets| ensures js[i].rule in OBSERVED {
      RuleAt(fix, sel, i);
      assert fix.targets[i] in fix.targets;
    }
  }

  lemma RuleMeans(fix: FixFacts, sel: Selection, t: Target)
    ensures RuleFor(fix, sel, t) == J3Weakened <==> Weakened(Tries(sel, t))
    ensures RuleFor(fix, sel, t) == J3Recurs <==> Recurs(t, Tries(sel, t), AttemptsKnown(sel), SameVersions(fix))
    ensures RuleFor(fix, sel, t) in {J3FlakySame, J3FlakyChanged} <==>
      Flickers(t, Tries(sel, t), AttemptsKnown(sel), SameVersions(fix))
    ensures RuleFor(fix, sel, t) == J3Changed <==> Differs(t, Tries(sel, t), AttemptsKnown(sel), SameVersions(fix))
    ensures RuleFor(fix, sel, t) == J3Passed <==> Holds(Tries(sel, t), AttemptsKnown(sel))
  {
    FindingMeans(t, Tries(sel, t), AttemptsKnown(sel), SameVersions(fix));
  }

  lemma WeakenedFound(fix: FixFacts, sel: Selection)
    ensures HasRule(JobFindings(fix, sel), {J3Weakened}) <==> SomeWeakened(fix, sel)
  {
    RulesFound(fix, sel, {J3Weakened});
    forall t | t in fix.targets ensures RuleFor(fix, sel, t) == J3Weakened <==> Weakened(Tries(sel, t)) {
      RuleMeans(fix, sel, t);
    }
  }

  lemma RecursFound(fix: FixFacts, sel: Selection)
    ensures HasRule(JobFindings(fix, sel), {J3Recurs}) <==> SomeRecurs(fix, sel)
  {
    RulesFound(fix, sel, {J3Recurs});
    forall t | t in fix.targets
      ensures RuleFor(fix, sel, t) == J3Recurs <==> Recurs(t, Tries(sel, t), AttemptsKnown(sel), SameVersions(fix))
    { RuleMeans(fix, sel, t); }
  }

  lemma FlickersFound(fix: FixFacts, sel: Selection)
    ensures HasRule(JobFindings(fix, sel), {J3FlakySame, J3FlakyChanged}) <==> SomeFlickers(fix, sel)
  {
    RulesFound(fix, sel, {J3FlakySame, J3FlakyChanged});
    forall t | t in fix.targets
      ensures RuleFor(fix, sel, t) in {J3FlakySame, J3FlakyChanged} <==>
        Flickers(t, Tries(sel, t), AttemptsKnown(sel), SameVersions(fix))
    { RuleMeans(fix, sel, t); }
  }

  lemma DiffersFound(fix: FixFacts, sel: Selection)
    ensures HasRule(JobFindings(fix, sel), {J3Changed}) <==> SomeDiffers(fix, sel)
  {
    RulesFound(fix, sel, {J3Changed});
    forall t | t in fix.targets
      ensures RuleFor(fix, sel, t) == J3Changed <==> Differs(t, Tries(sel, t), AttemptsKnown(sel), SameVersions(fix))
    { RuleMeans(fix, sel, t); }
  }

  lemma ObservedMeans(fix: FixFacts, sel: Selection)
    ensures RulesWithin(JobFindings(fix, sel), OBSERVED) <==> JobsObserved(fix, sel)
  {
    forall t | t in fix.targets
      ensures RuleFor(fix, sel, t) in OBSERVED <==>
        Holds(Tries(sel, t), AttemptsKnown(sel)) || Differs(t, Tries(sel, t), AttemptsKnown(sel), SameVersions(fix))
    { RuleMeans(fix, sel, t); }
    if RulesWithin(JobFindings(fix, sel), OBSERVED) {
      forall t | t in fix.targets ensures RuleFor(fix, sel, t) in OBSERVED { ObservedEach(fix, sel, t); }
    }
    if JobsObserved(fix, sel) { EachObserved(fix, sel); }
  }

  // ---- the other jobs ----

  /** A job outside the diagnosis whose latest attempt in some candidate failed. */
  ghost predicate SomeOtherFails(fix: FixFacts, cs: seq<Pipeline>) {
    exists c, a :: c in cs && a in c.jobs && !Diagnosed(fix, a.name) && LatestFails(c, a.name)
  }

  /** One that was required there, and succeeded at the base. */
  ghost predicate Regressed(fix: FixFacts, cs: seq<Pipeline>, name: string) {
    && BaseOf(fix.baseJobs, name).Some? && BaseOf(fix.baseJobs, name).value.status == Success
    && exists c :: c in cs && LatestFailsRequired(c, name)
  }

  ghost predicate SomeRegressed(fix: FixFacts, cs: seq<Pipeline>) {
    exists name :: Regressed(fix, cs, name) && !Diagnosed(fix, name)
  }

  lemma {:induction false} RequiredFound(cs: seq<Pipeline>, name: string)
    requires forall c :: c in cs ==> c.id != 0
    ensures FirstRequired(cs, name) != 0 <==> exists c :: c in cs && LatestFailsRequired(c, name)
  {
    if cs != [] {
      RequiredFound(cs[..|cs| - 1], name);
      assert cs == cs[..|cs| - 1] + [cs[|cs| - 1]];
      assert cs[|cs| - 1] in cs;
    }
  }

  lemma OtherRegressed(fix: FixFacts, cs: seq<Pipeline>, name: string)
    requires forall c :: c in cs ==> c.id != 0
    ensures OtherOf(fix.baseJobs, cs, name).rule == J4Regressed <==> Regressed(fix, cs, name)
  {
    RequiredFound(cs, name);
  }

  lemma RegressedNamed(fix: FixFacts, cs: seq<Pipeline>, name: string)
    requires Regressed(fix, cs, name) && !Diagnosed(fix, name)
    ensures name in FailingNames(fix, cs)
  {
    var c :| c in cs && LatestFailsRequired(c, name);
    Judging.LatestIsListed(c.jobs, name);
    assert Latest(c.jobs, name).value in c.jobs && LatestFails(c, name);
  }

  ghost predicate HasRegressed(os: seq<OtherFinding>) { exists o :: o in os && o.rule == J4Regressed }

  lemma OtherAt(fix: FixFacts, cs: seq<Pipeline>, names: seq<string>, i: nat)
    requires i < |names| && (forall c :: c in cs ==> c.id != 0)
    ensures OthersFor(fix.baseJobs, cs, names)[i] in OthersFor(fix.baseJobs, cs, names)
    ensures OthersFor(fix.baseJobs, cs, names)[i].rule == J4Regressed <==> Regressed(fix, cs, names[i])
  {
    OtherRegressed(fix, cs, names[i]);
  }

  lemma RegressedSeen(fix: FixFacts, cs: seq<Pipeline>)
    requires (forall c :: c in cs ==> c.id != 0) && HasRegressed(OtherFindings(fix, cs))
    ensures SomeRegressed(fix, cs)
  {
    var names, os := SortNames(FailingNames(fix, cs)), OtherFindings(fix, cs);
    var o :| o in os && o.rule == J4Regressed;
    var i :| 0 <= i < |os| && os[i] == o;
    OtherAt(fix, cs, names, i);
    assert names[i] in FailingNames(fix, cs);
    assert Regressed(fix, cs, names[i]) && !Diagnosed(fix, names[i]);
  }

  lemma RegressedShown(fix: FixFacts, cs: seq<Pipeline>)
    requires (forall c :: c in cs ==> c.id != 0) && SomeRegressed(fix, cs)
    ensures HasRegressed(OtherFindings(fix, cs))
  {
    var name :| Regressed(fix, cs, name) && !Diagnosed(fix, name);
    var names := SortNames(FailingNames(fix, cs));
    RegressedNamed(fix, cs, name);
    assert name in names;
    var i :| 0 <= i < |names| && names[i] == name;
    OtherAt(fix, cs, names, i);
  }

  lemma RegressedFound(fix: FixFacts, cs: seq<Pipeline>)
    requires forall c :: c in cs ==> c.id != 0
    ensures HasRegressed(OtherFindings(fix, cs)) <==> SomeRegressed(fix, cs)
  {
    if HasRegressed(OtherFindings(fix, cs)) { RegressedSeen(fix, cs); }
    if SomeRegressed(fix, cs) { RegressedShown(fix, cs); }
  }

  lemma OthersMean(fix: FixFacts, cs: seq<Pipeline>)
    ensures OtherFindings(fix, cs) != [] <==> SomeOtherFails(fix, cs)
    ensures forall o :: o in OtherFindings(fix, cs) ==> o.rule in OTHER_RULES
  {
    OthersFound(fix, cs);
  }

  // ---- the verdicts ----

  /** Which verdict stands for which evidence, the graver first. seen: nothing is missing. */
  predicate Stands(v: Verdict, forged: bool, recurs: bool, flaky: bool, seen: bool, regressed: bool, changed: bool) {
    && (v == FORGED <==> forged)
    && (v == NOT_FIXED <==> !forged && recurs)
    && (v == FLAKY <==> !forged && !recurs && flaky)
    && (v == REGRESSED <==> !forged && !recurs && !flaky && seen && regressed)
    && (v == FIXED_NEW_FAILURE <==> !forged && !recurs && !flaky && seen && !regressed && changed)
  }

  lemma LadderStands(forged: Option<Rule>, causes: seq<Rule>, jobs: seq<JobFinding>, others: seq<OtherFinding>,
                     cs: seq<Pipeline>)
    requires forall o :: o in others ==> o.rule in OTHER_RULES
    ensures Stands(Ladder(forged, causes, jobs, others, cs).0,
                   forged.Some? || HasRule(jobs, {J3Weakened}), HasRule(jobs, {J3Recurs}),
                   HasRule(jobs, {J3FlakySame, J3FlakyChanged}),
                   causes == [] && RulesWithin(jobs, OBSERVED), HasRegressed(others),
                   HasRule(jobs, {J3Changed}) || others != [])
  {
    FirstRuleFound(RuleOfJob, {J3Weakened}, jobs);
    FirstRuleFound(RuleOfJob, {J3Recurs}, jobs);
    FirstRuleFound(RuleOfJob, {J3FlakySame, J3FlakyChanged}, jobs);
    FirstRuleFound(RuleOfJob, {J3Changed}, jobs);
    FirstUnobservedFound(jobs);
    FirstRuleFound(RuleOfOther, {J4Regressed}, others);
    FirstRuleFound(RuleOfOther, {J4Remaining, J4Revealed, J4RegressedAllowed}, others);
    if others != [] { assert others[0] in others && RuleOfOther(others[0]) in OTHER_RULES; }
  }

  ghost predicate Forged(fix: FixFacts, d: DefinitionFacts, sel: Selection) {
    Forgery(fix, d).Some? || SomeWeakened(fix, sel)
  }

  /** Nothing J1, J2 or a diagnosed job's attempts should have shown is missing. */
  ghost predicate AllSeen(fix: FixFacts, d: DefinitionFacts, sel: Selection) {
    && sel.read && Settled(sel.candidates) && DefinitionRead(d)
    && DefinitionFinding(d.delta, fix) != Some(J2Unresolvable)
    && JobsObserved(fix, sel)
  }

  ghost predicate EvidenceStands(v: Verdict, fix: FixFacts, d: DefinitionFacts, sel: Selection) {
    Stands(v, Forged(fix, d, sel), SomeRecurs(fix, sel), SomeFlickers(fix, sel), AllSeen(fix, d, sel),
           SomeRegressed(fix, sel.candidates), SomeDiffers(fix, sel) || SomeOtherFails(fix, sel.candidates))
  }

  lemma NoCauses(fix: FixFacts, d: DefinitionFacts, sel: Selection)
    ensures Causes(fix, d, sel) == [] <==>
      sel.read && Settled(sel.candidates) && DefinitionRead(d)
        && DefinitionFinding(d.delta, fix) != Some(J2Unresolvable)
  {}

  lemma LadderMeans(fix: FixFacts, d: DefinitionFacts, sel: Selection, others: seq<OtherFinding>)
    requires forall o :: o in others ==> o.rule in OTHER_RULES
    requires HasRegressed(others) <==> SomeRegressed(fix, sel.candidates)
    requires others != [] <==> SomeOtherFails(fix, sel.candidates)
    ensures var l := Ladder(Forgery(fix, d), Causes(fix, d, sel), JobFindings(fix, sel), others, sel.candidates);
      EvidenceStands(l.0, fix, d, sel)
  {
    LadderStands(Forgery(fix, d), Causes(fix, d, sel), JobFindings(fix, sel), others, sel.candidates);
    WeakenedFound(fix, sel);
    RecursFound(fix, sel);
    FlickersFound(fix, sel);
    DiffersFound(fix, sel);
    ObservedMeans(fix, sel);
    NoCauses(fix, d, sel);
  }

  lemma DecidedMeans(fix: FixFacts, d: DefinitionFacts, sel: Selection)
    requires forall c :: c in sel.candidates ==> c.id != 0
    ensures Decided(fix, d, sel).verdict.Some? && EvidenceStands(Decided(fix, d, sel).verdict.value, fix, d, sel)
  {
    RegressedFound(fix, sel.candidates);
    OthersMean(fix, sel.candidates);
    LadderMeans(fix, d, sel, OtherFindings(fix, sel.candidates));
  }

  /** Whenever there is a verdict, which one it is follows from the evidence, for every set of facts:
      FIXED by FixedExactly, these five as said, and UNVERIFIABLE otherwise. */
  lemma VerdictExactly(f: JudgeFacts, now: Time)
    requires Answer(f, now).decision == DecisionVerdict
    ensures Answer(f, now).verdict.Some?
    ensures EvidenceStands(Answer(f, now).verdict.value, f.fix, f.definition, Select(f))
  {
    OnlyOpenDecides(f, now);
    OpenDecided(f.fix, f.definition, Select(f), Past(f, now));
    WellFormedIds(f, now);
    DecidedMeans(f.fix, f.definition, Select(f));
  }

  lemma WellFormedIds(f: JudgeFacts, now: Time)
    requires Answer(f, now).decision == DecisionVerdict
    ensures forall c :: c in Select(f).candidates ==> c.id != 0
  {
    Judging.NonZeroIds(f);
  }
}
