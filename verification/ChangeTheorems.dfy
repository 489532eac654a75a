/** What a change's exit check guarantees, over every set of facts and every instant. */
module ChangeTheorems {
  import opened Basics
  import opened ChangeFacts
  import opened ChangeSpec
  import opened Listing
  import opened Ordering

  /** a is one of the listed attempts. */
  ghost predicate Attempted(cs: seq<Pipeline>, a: Attempt) { exists c :: c in cs && a in c.jobs }

  lemma {:induction false} AttemptMembers(cs: seq<Pipeline>)
    ensures forall a :: a in AllAttempts(cs) <==> Attempted(cs, a)
  {
    if cs != [] {
      AttemptMembers(cs[..|cs| - 1]);
      assert cs == cs[..|cs| - 1] + [cs[|cs| - 1]];
      assert cs[|cs| - 1] in cs;
    }
  }

  // ---- K3: a job is clean, or nobody required it and it never passed ----

  /** A failure of a job counts unless the job was never required and never succeeded. */
  predicate Harmless(a: Attempt, b: Attempt) {
    a.name == b.name && a.status == Failed ==> b.allowFailure && b.status != Success
  }

  /** Every job either never failed, or was never required and never succeeded. */
  ghost predicate Clean(s: seq<Attempt>) { forall a, b :: a in s && b in s ==> Harmless(a, b) }

  ghost predicate NeverCounted(n: string, s: seq<Attempt>) {
    forall b :: b in s && b.name == n ==> b.allowFailure && b.status != Success
  }

  lemma FindingClean(n: string, s: seq<Attempt>)
    ensures FindingOf(n, s).rule == K3AllowedFailure <==> NeverCounted(n, s)
  {
    CountMembers(NamedSuccess(n), s);
    AnyMembers(NamedRequired(n), s);
    if NeverCounted(n, s) {
      assert forall b :: b in s ==> !NamedSuccess(n)(b) && !NamedRequired(n)(b);
    }
    if FindingOf(n, s).rule == K3AllowedFailure {
      assert forall b :: b in s ==> !NamedSuccess(n)(b) && !NamedRequired(n)(b);
    }
  }

  lemma AllAllowed(s: seq<Attempt>)
    ensures (forall j :: j in JobFindings(s) ==> j.rule == K3AllowedFailure) <==> Clean(s)
  {
    FindingsAllowed(SortNames(FailedNames(s)), s);
    CleanByName(s, SortNames(FailedNames(s)));
  }

  lemma FindingsAllowed(names: seq<string>, s: seq<Attempt>)
    ensures (forall j :: j in FindingsFor(names, s) ==> j.rule == K3AllowedFailure) <==>
      forall n :: n in names ==> NeverCounted(n, s)
  {
    var js := FindingsFor(names, s);
    forall i | 0 <= i < |names| ensures js[i].rule == K3AllowedFailure <==> NeverCounted(names[i], s) {
      FindingClean(names[i], s);
    }
    AllAt((j: JobFinding) => j.rule == K3AllowedFailure, js);
    AllAt((n: string) => NeverCounted(n, s), names);
  }

  lemma CleanByName(s: seq<Attempt>, names: seq<string>)
    requires forall n :: n in names <==> n in FailedNames(s)
    ensures (forall n :: n in names ==> NeverCounted(n, s)) <==> Clean(s)
  {
    if forall n :: n in names ==> NeverCounted(n, s) {
      forall a, b | a in s && b in s ensures Harmless(a, b) {
        if a.status == Failed { assert a.name in names; }
      }
    }
    if Clean(s) {
      forall n | n in names ensures NeverCounted(n, s) {
        var a :| a in s && a.status == Failed && a.name == n;
        assert forall b :: b in s ==> Harmless(a, b);
      }
    }
  }

  lemma FindingRules(s: seq<Attempt>)
    ensures forall j :: j in JobFindings(s) ==> j.rule in {K3Flaky, K3AllowedFailure, K3Red, K3Attempts}
  {}

  // ---- K4: no lost pass, as multisets ----

  /** No reporting pipeline lost a pass of the base: each one's passes include the base's, repeats counted. */
  ghost predicate NoLostPass(base: Report, heads: seq<Pipeline>) {
    forall h :: h in heads ==> Passed(base) <= Passed(h.report)
  }

  ghost predicate NoNewFailure(base: Report, heads: seq<Pipeline>) {
    forall h :: h in heads ==> Failing(h.report) <= Failing(base)
  }

  ghost predicate SomethingNewPassed(base: Report, heads: seq<Pipeline>) {
    exists h :: h in heads && !(Passed(h.report) <= Passed(base))
  }

  lemma LostMeans(base: Report, heads: seq<Pipeline>)
    ensures Lost(base, heads) == {} <==> NoLostPass(base, heads)
    ensures NewlyFailing(base, heads) == {} <==> NoNewFailure(base, heads)
    ensures NewPasses(base, heads) != {} <==> SomethingNewPassed(base, heads)
  {
    forall h | h in heads && !(Passed(base) <= Passed(h.report)) ensures Lost(base, heads) != {} {
      var id := Excess(Passed(base), Passed(h.report));
      assert id in Lost(base, heads);
    }
    forall h | h in heads && !(Failing(h.report) <= Failing(base)) ensures NewlyFailing(base, heads) != {} {
      var id := Excess(Failing(h.report), Failing(base));
      assert id in NewlyFailing(base, heads);
    }
    forall h | h in heads && !(Passed(h.report) <= Passed(base)) ensures NewPasses(base, heads) != {} {
      var id := Excess(Passed(h.report), Passed(base));
      assert id in NewPasses(base, heads);
    }
  }

  lemma Excess(a: multiset<CaseId>, b: multiset<CaseId>) returns (id: CaseId)
    requires !(a <= b)
    ensures id in a && a[id] > b[id]
  {
    id :| a[id] > b[id];
  }

  ghost predicate NewTestsRan(ch: Change, heads: seq<Pipeline>) {
    if ch.goProfile then forall g :: g in ch.addedGoTests ==> RanGo(ch.baseReport, heads, g)
    else SomethingNewPassed(ch.baseReport, heads)
  }

  /** Tests observed: every green pipeline's report was read whole, one at least reports, none of them
      lost a pass of the base or shows a new failure, and the new tests ran. */
  lemma TestsObservedExactly(ch: Change, cs: seq<Pipeline>)
    ensures JudgedTests(ch, cs).finding == TestsObserved <==>
      && TestsApply(ch.diffClasses) && !ReportUnread(cs) && Heads(cs) != []
      && NoLostPass(ch.baseReport, Heads(cs)) && NoNewFailure(ch.baseReport, Heads(cs)) && NewTestsRan(ch, Heads(cs))
  {
    LostMeans(ch.baseReport, Heads(cs));
    if GreenPipelines(cs) == [] { assert Heads(cs) == []; }
    assert NotRunGo(ch.baseReport, Heads(cs), ch.addedGoTests) == {} <==>
      forall g :: g in ch.addedGoTests ==> RanGo(ch.baseReport, Heads(cs), g) by {
      forall g | g in ch.addedGoTests && !RanGo(ch.baseReport, Heads(cs), g)
        ensures NotRunGo(ch.baseReport, Heads(cs), ch.addedGoTests) != {}
      {
        assert g in NotRunGo(ch.baseReport, Heads(cs), ch.addedGoTests);
      }
    }
  }

  lemma FindingKinds(ch: Change, cs: seq<Pipeline>)
    ensures JudgedTests(ch, cs).finding == NotApplicable <==> !TestsApply(ch.diffClasses)
    ensures JudgedTests(ch, cs).finding == TestsUnobserved <==>
      && TestsApply(ch.diffClasses) && GreenPipelines(cs) != [] && !ReportUnread(cs)
      && Heads(cs) == [] && Passed(ch.baseReport) == multiset{}
    ensures JudgedTests(ch, cs).finding == TestsUnknown ==> ReportUnread(cs)
  {}

  // ---- GREEN, exactly ----

  lemma LadderGreen(jobs: seq<JobFinding>, causes: seq<Rule>, tests: Tests, requireReport: bool)
    requires forall j :: j in jobs ==> j.rule in {K3Flaky, K3AllowedFailure, K3Red, K3Attempts}
    requires (exists j :: j in jobs && j.rule == K3Attempts) ==> causes != []
    ensures Ladder(jobs, causes, tests, requireReport).0 == GREEN <==>
      && (forall j :: j in jobs ==> j.rule == K3AllowedFailure) && causes == []
      && tests.finding in {TestsObserved, NotApplicable}
    ensures Ladder(jobs, causes, tests, requireReport).0 == GREEN_UNOBSERVED <==>
      && (forall j :: j in jobs ==> j.rule == K3AllowedFailure) && causes == []
      && tests.finding == TestsUnobserved && !requireReport
  {
    AnyMembers(HasRule(K3Red), jobs);
    AnyMembers(HasRule(K3Flaky), jobs);
    forall j | j in jobs
      ensures (HasRule(K3Red)(j) <==> j.rule == K3Red) && (HasRule(K3Flaky)(j) <==> j.rule == K3Flaky) {}
  }

  /** The jobs and pipelines of a green change: every candidate finished `success`, every attempt of
      every job is known, and no failure counts. */
  ghost predicate GreenPipelinesAll(sel: Selection) {
    && sel.read && sel.candidates != []
    && (forall c :: c in sel.candidates ==>
         c.status == Success && JobsListed(c) && forall a :: a in c.jobs ==> WellFormedJob(a))
    && (forall a, b :: Attempted(sel.candidates, a) && Attempted(sel.candidates, b) ==> Harmless(a, b))
  }

  ghost predicate DefinitionSame(d: DefinitionFacts) { DefinitionRead(d) && DefinitionFinding(d.delta).None? }

  lemma CleanSaid(cs: seq<Pipeline>)
    ensures Clean(AllAttempts(cs)) <==> forall a, b :: Attempted(cs, a) && Attempted(cs, b) ==> Harmless(a, b)
  {
    AttemptMembers(cs);
  }

  lemma CausesEmpty(d: DefinitionFacts, sel: Selection, jobs: seq<JobFinding>)
    requires jobs == JobsOf(sel)
    ensures Causes(d, sel, jobs) == [] <==>
      && sel.read && Settled(sel.candidates) && DefinitionSame(d) && AttemptsKnown(sel)
      && (forall j :: j in jobs ==> j.rule != K3Attempts)
      && (forall c :: c in sel.candidates ==> c.status == Success)
  {
    AnyMembers(HasRule(K3Attempts), jobs);
    assert forall j :: j in jobs ==> (HasRule(K3Attempts)(j) <==> j.rule == K3Attempts);
    assert Causes(d, sel, jobs) == [] <==>
      SettleCauses(sel) == [] && DefinitionCauses(d) == [] && JobCauses(sel, jobs) == [];
    assert JobCauses(sel, jobs) == [] <==>
      && (sel.read ==> AttemptsKnown(sel) && !Any(HasRule(K3Attempts), jobs))
      && !(exists c :: c in sel.candidates && c.status != Success);
  }

  lemma DecidedGreen(ch: Change, d: DefinitionFacts, sel: Selection)
    requires !JobsMalformed(sel.candidates)
    ensures Decided(ch, d, sel).verdict == Some(GREEN) <==>
      && GreenPipelinesAll(sel) && DefinitionSame(d)
      && JudgedTests(ch, sel.candidates).finding in {TestsObserved, NotApplicable}
    ensures Decided(ch, d, sel).verdict == Some(GREEN_UNOBSERVED) <==>
      && GreenPipelinesAll(sel) && DefinitionSame(d)
      && JudgedTests(ch, sel.candidates).finding == TestsUnobserved && !ch.requireTestReport
  {
    var jobs, tests := JobsOf(sel), GiveUp(JudgedTests(ch, sel.candidates));
    FindingRules(AllAttempts(sel.candidates));
    CausesEmpty(d, sel, jobs);
    LadderGreen(jobs, Causes(d, sel, jobs), tests, ch.requireTestReport);
    AllAllowed(AllAttempts(sel.candidates));
    CleanSaid(sel.candidates);
    GreenSaid(sel);
  }

  lemma GreenSaid(sel: Selection)
    requires !JobsMalformed(sel.candidates)
    ensures GreenPipelinesAll(sel) <==>
      && sel.read && Settled(sel.candidates) && AttemptsKnown(sel)
      && (forall c :: c in sel.candidates ==> c.status == Success) && Clean(AllAttempts(sel.candidates))
  {
    CleanSaid(sel.candidates);
    if sel.read && Settled(sel.candidates) && AttemptsKnown(sel) && Clean(AllAttempts(sel.candidates))
      && (forall c :: c in sel.candidates ==> c.status == Success)
    {
      forall c, a | c in sel.candidates && a in c.jobs ensures WellFormedJob(a) {}
    }
  }

  predicate OwnOpenChange(f: JudgeFacts, now: Time) {
    FactsComplete(f, now) && f.mr.state == Opened && f.mr.sha == f.change.changeCommitSHA
  }

  /** GREEN is given exactly when every pipeline of the change commit succeeded with no failure that
      counts, the CI definition is the base's, and the tests were observed (or the diff is docs only).
      GREEN_UNOBSERVED is the same with no report anywhere and no pass at the base to lose. */
  lemma GreenExactly(f: JudgeFacts, now: Time)
    ensures Answer(f, now).verdict == Some(GREEN) <==>
      && OwnOpenChange(f, now) && !Select(f).malformed && GreenPipelinesAll(Select(f)) && DefinitionSame(f.definition)
      && JudgedTests(f.change, Select(f).candidates).finding in {TestsObserved, NotApplicable}
    ensures Answer(f, now).verdict == Some(GREEN_UNOBSERVED) <==>
      && OwnOpenChange(f, now) && !Select(f).malformed && GreenPipelinesAll(Select(f)) && DefinitionSame(f.definition)
      && JudgedTests(f.change, Select(f).candidates).finding == TestsUnobserved && !f.change.requireTestReport
  {
    if Identity(f, now).None? {
      OpenGreen(f.change, f.definition, Select(f), Past(f, now));
    }
  }

  lemma OpenGreen(ch: Change, d: DefinitionFacts, sel: Selection, past: bool)
    ensures OpenAnswer(ch, d, sel, past).verdict == Some(GREEN) <==>
      && !sel.malformed && GreenPipelinesAll(sel) && DefinitionSame(d)
      && JudgedTests(ch, sel.candidates).finding in {TestsObserved, NotApplicable}
    ensures OpenAnswer(ch, d, sel, past).verdict == Some(GREEN_UNOBSERVED) <==>
      && !sel.malformed && GreenPipelinesAll(sel) && DefinitionSame(d)
      && JudgedTests(ch, sel.candidates).finding == TestsUnobserved && !ch.requireTestReport
  {
    if !JobsMalformed(sel.candidates) {
      DecidedGreen(ch, d, sel);
      GreenSaid(sel);
    }
  }
}
