/** The verdicts of a change's exit check that are not green, said over the evidence. */
module ChangeVerdicts {
  import opened Basics
  import opened ChangeFacts
  import opened ChangeSpec
  import opened ChangeTheorems
  import opened Listing
  import opened Ordering

  // ---- one job, over every attempt listed ----

  ghost predicate FailedOnce(s: seq<Attempt>, n: string) { exists a :: a in s && a.name == n && a.status == Failed }
  ghost predicate PassedOnce(s: seq<Attempt>, n: string) { exists a :: a in s && a.name == n && a.status == Success }
  ghost predicate RequiredOnce(s: seq<Attempt>, n: string) { exists a :: a in s && a.name == n && !a.allowFailure }

  /** A required job that did nothing but fail. */
  ghost predicate OnlyFails(s: seq<Attempt>, n: string) {
    FailedOnce(s, n) && RequiredOnce(s, n) && forall a :: a in s && a.name == n ==> a.status == Failed
  }

  /** A job that failed and passed. */
  ghost predicate Flickers(s: seq<Attempt>, n: string) { FailedOnce(s, n) && PassedOnce(s, n) }

  lemma AllFailed(s: seq<Attempt>, n: string)
    ensures Count(NamedFailed(n), s) == Count(Named(n), s) <==> forall a :: a in s && a.name == n ==> a.status == Failed
  {
    CountWithin(NamedFailed(n), Named(n), s);
    assert forall a :: (Named(n)(a) ==> NamedFailed(n)(a)) <==> (a.name == n ==> a.status == Failed);
  }

  lemma AnyPassed(s: seq<Attempt>, n: string)
    ensures Count(NamedSuccess(n), s) > 0 <==> PassedOnce(s, n)
    ensures Any(NamedRequired(n), s) <==> RequiredOnce(s, n)
  {
    CountMembers(NamedSuccess(n), s);
    AnyMembers(NamedRequired(n), s);
    if a :| a in s && a.name == n && a.status == Success { assert NamedSuccess(n)(a); }
    if a :| a in s && a.name == n && !a.allowFailure { assert NamedRequired(n)(a); }
  }

  lemma RuleMeans(s: seq<Attempt>, n: string)
    requires FailedOnce(s, n)
    ensures RuleOf(s, n) == K3Red <==> OnlyFails(s, n)
    ensures RuleOf(s, n) == K3Flaky <==> Flickers(s, n)
  {
    AllFailed(s, n);
    AnyPassed(s, n);
  }

  ghost predicate HasFinding(js: seq<JobFinding>, rule: Rule) { exists j :: j in js && j.rule == rule }

  function RuleOf(s: seq<Attempt>, n: string): Rule { FindingOf(n, s).rule }

  lemma FindingAt(names: seq<string>, s: seq<Attempt>, i: nat)
    requires i < |names|
    ensures FindingsFor(names, s)[i] in FindingsFor(names, s) && FindingsFor(names, s)[i].rule == RuleOf(s, names[i])
  {}

  lemma FindingSeen(names: seq<string>, s: seq<Attempt>, rule: Rule) returns (n: string)
    requires HasFinding(FindingsFor(names, s), rule)
    ensures n in names && RuleOf(s, n) == rule
  {
    var j :| j in FindingsFor(names, s) && j.rule == rule;
    var i :| 0 <= i < |names| && FindingsFor(names, s)[i] == j;
    FindingAt(names, s, i);
    n := names[i];
  }

  lemma FindingShown(names: seq<string>, s: seq<Attempt>, n: string)
    requires n in names
    ensures HasFinding(FindingsFor(names, s), RuleOf(s, n))
  {
    var i :| 0 <= i < |names| && names[i] == n;
    FindingAt(names, s, i);
  }

  lemma FindingFound(s: seq<Attempt>, rule: Rule)
    ensures HasFinding(JobFindings(s), rule) <==> exists n :: FailedOnce(s, n) && RuleOf(s, n) == rule
  {
    var names := SortNames(FailedNames(s));
    forall n ensures n in names <==> FailedOnce(s, n) { assert n in names <==> n in FailedNames(s); }
    if HasFinding(JobFindings(s), rule) {
      var n := FindingSeen(names, s, rule);
    }
    if n :| FailedOnce(s, n) && RuleOf(s, n) == rule {
      FindingShown(names, s, n);
    }
  }

  ghost predicate SomeOnlyFails(s: seq<Attempt>) { exists n :: OnlyFails(s, n) }
  ghost predicate SomeFlickers(s: seq<Attempt>) { exists n :: Flickers(s, n) }

  lemma RedFound(s: seq<Attempt>)
    ensures HasFinding(JobFindings(s), K3Red) <==> SomeOnlyFails(s)
  {
    FindingFound(s, K3Red);
    forall n | FailedOnce(s, n) ensures RuleOf(s, n) == K3Red <==> OnlyFails(s, n) { RuleMeans(s, n); }
  }

  lemma FlakyFound(s: seq<Attempt>)
    ensures HasFinding(JobFindings(s), K3Flaky) <==> SomeFlickers(s)
  {
    FindingFound(s, K3Flaky);
    forall n | FailedOnce(s, n) ensures RuleOf(s, n) == K3Flaky <==> Flickers(s, n) { RuleMeans(s, n); }
  }

  // ---- the tests ----

  /** Green pipelines report, their reports were read whole, no pass of the base is lost, and the new
      tests did not all run: each added function under the go profile, anything at all otherwise. */
  ghost predicate NewTestsMissing(ch: Change, cs: seq<Pipeline>) {
    && TestsApply(ch.diffClasses) && !ReportUnread(cs) && Heads(cs) != []
    && NoLostPass(ch.baseReport, Heads(cs)) && !NewTestsRan(ch, Heads(cs))
  }

  lemma NotRunMeans(base: Report, heads: seq<Pipeline>, added: seq<GoTest>)
    ensures NotRunGo(base, heads, added) == {} <==> forall g :: g in added ==> RanGo(base, heads, g)
  {
    if g :| g in added && !RanGo(base, heads, g) { assert g in NotRunGo(base, heads, added); }
  }

  lemma NotRunExactly(ch: Change, cs: seq<Pipeline>)
    ensures JudgedTests(ch, cs).finding == TestsNewNotRun <==> NewTestsMissing(ch, cs)
  {
    LostMeans(ch.baseReport, Heads(cs));
    NotRunMeans(ch.baseReport, Heads(cs), ch.addedGoTests);
    if GreenPipelines(cs) == [] { assert Heads(cs) == []; }
  }

  // ---- the verdicts ----

  predicate Stands(v: Verdict, red: bool, notRun: bool, flaky: bool) {
    && (v == NOT_GREEN <==> red)
    && (v == TESTS_NOT_RUN <==> !red && notRun)
    && (v == FLAKY <==> !red && !notRun && flaky)
  }

  lemma LadderStands(jobs: seq<JobFinding>, causes: seq<Rule>, tests: Tests, requireReport: bool)
    ensures Stands(Ladder(jobs, causes, tests, requireReport).0,
                   HasFinding(jobs, K3Red), tests.finding == TestsNewNotRun, HasFinding(jobs, K3Flaky))
  {
    AnyMembers(HasRule(K3Red), jobs);
    AnyMembers(HasRule(K3Flaky), jobs);
    if j :| j in jobs && j.rule == K3Red { assert HasRule(K3Red)(j); }
    if j :| j in jobs && j.rule == K3Flaky { assert HasRule(K3Flaky)(j); }
  }

  ghost predicate EvidenceStands(v: Verdict, ch: Change, sel: Selection) {
    Stands(v, AttemptsKnown(sel) && SomeOnlyFails(AllAttempts(sel.candidates)), NewTestsMissing(ch, sel.candidates),
           AttemptsKnown(sel) && SomeFlickers(AllAttempts(sel.candidates)))
  }

  lemma KnownFindings(sel: Selection)
    ensures HasFinding(JobsOf(sel), K3Red) <==> AttemptsKnown(sel) && SomeOnlyFails(AllAttempts(sel.candidates))
    ensures HasFinding(JobsOf(sel), K3Flaky) <==> AttemptsKnown(sel) && SomeFlickers(AllAttempts(sel.candidates))
  {
    RedFound(AllAttempts(sel.candidates));
    FlakyFound(AllAttempts(sel.candidates));
  }

  lemma DecidedMeans(ch: Change, d: DefinitionFacts, sel: Selection)
    ensures Decided(ch, d, sel).verdict.Some? && EvidenceStands(Decided(ch, d, sel).verdict.value, ch, sel)
  {
    var jobs, tests := JobsOf(sel), GiveUp(JudgedTests(ch, sel.candidates));
    NotRunExactly(ch, sel.candidates);
    KnownFindings(sel);
    LadderStands(jobs, Causes(d, sel, jobs), tests, ch.requireTestReport);
  }

  lemma OnlyOpenDecides(f: JudgeFacts, now: Time)
    requires Answer(f, now).decision == DecisionVerdict
    ensures Answer(f, now) == OpenAnswer(f.change, f.definition, Select(f), Past(f, now))
  {}

  lemma OpenDecided(ch: Change, d: DefinitionFacts, sel: Selection, past: bool)
    ensures OpenAnswer(ch, d, sel, past).decision == DecisionVerdict ==>
        OpenAnswer(ch, d, sel, past) == Decided(ch, d, sel)
  {}

  /** Whenever there is a verdict, which one it is follows from the evidence: GREEN and GREEN_UNOBSERVED
      by GreenExactly, these three as said, and UNVERIFIABLE otherwise. Every attempt of a job counts,
      in whichever candidate it ran. */
  lemma VerdictExactly(f: JudgeFacts, now: Time)
    requires Answer(f, now).decision == DecisionVerdict
    ensures Answer(f, now).verdict.Some?
    ensures EvidenceStands(Answer(f, now).verdict.value, f.change, Select(f))
  {
    OnlyOpenDecides(f, now);
    OpenDecided(f.change, f.definition, Select(f), Past(f, now));
    DecidedMeans(f.change, f.definition, Select(f));
  }
}
