/** What the exit check of a pipeline fix guarantees, over every set of facts and every instant. */
module PipefixTheorems {
  import opened Basics
  import opened PipefixFacts
  import opened PipefixSpec
  import opened Listing
  import opened Ordering

  // ---- what the lists hold ----

  predicate IsCandidate(f: JudgeFacts, p: Pipeline) {
    f.pipelines.read && p in f.pipelines.pipelines && OwnPipeline(p, f.fix.fixCommitSHA) && !SkippedWithoutJobs(p)
  }

  lemma CandidateMembers(f: JudgeFacts)
    ensures forall p :: p in Select(f).candidates <==> IsCandidate(f, p)
  {
    if f.pipelines.read {
      SortMembers(PipelineId, Filter(CandidateTest(f.fix.fixCommitSHA), f.pipelines.pipelines));
      FilterMembers(CandidateTest(f.fix.fixCommitSHA), f.pipelines.pipelines);
    }
  }

  lemma {:induction false} AttemptMembers(name: string, cs: seq<Pipeline>)
    ensures forall a :: a in AttemptsOf(name, cs) <==> a.name == name && exists c :: c in cs && a in c.jobs
  {
    if cs != [] {
      var c := cs[|cs| - 1];
      AttemptMembers(name, cs[..|cs| - 1]);
      FilterMembers(NamedTest(name), c.jobs);
      assert cs == cs[..|cs| - 1] + [c];
      assert c in cs;
    }
  }

  lemma {:induction false} FindingAt(ts: seq<Target>, cs: seq<Pipeline>, complete: bool, sameVersions: bool, i: nat)
    requires i < |ts|
    ensures FindingsOf(ts, cs, complete, sameVersions)[i]
         == FindingOf(ts[i], AttemptsOf(ts[i].Name(), cs), complete, sameVersions)
  {
    if i < |ts| - 1 { FindingAt(ts[..|ts| - 1], cs, complete, sameVersions, i); }
  }

  // ---- the ladder ----

  lemma {:induction false} FirstRuleFound<T>(rule: T -> Rule, wanted: set<Rule>, s: seq<T>)
    ensures FirstRule(rule, wanted, s).Some? <==> exists x :: x in s && rule(x) in wanted
    ensures FirstRule(rule, wanted, s).Some? ==> FirstRule(rule, wanted, s).value in wanted
  {
    if s != [] {
      FirstRuleFound(rule, wanted, s[1..]);
      assert s == [s[0]] + s[1..];
      if rule(s[0]) in wanted { assert s[0] in s; }
    }
  }

  lemma {:induction false} FirstUnobservedFound(s: seq<JobFinding>)
    ensures FirstUnobserved(s).Some? <==> exists j :: j in s && j.rule !in OBSERVED
  {
    if s != [] {
      FirstUnobservedFound(s[1..]);
      assert s == [s[0]] + s[1..];
      if s[0].rule !in OBSERVED { assert s[0] in s; }
    }
  }

  const OTHER_RULES: set<Rule> := {J4Regressed, J4RegressedAllowed, J4Remaining, J4Revealed}

  /** FIXED is what is left when no rung matches: every rung's evidence is absent. */
  lemma LadderFixed(forged: Option<Rule>, causes: seq<Rule>, jobs: seq<JobFinding>, others: seq<OtherFinding>,
                    cs: seq<Pipeline>)
    requires forall o :: o in others ==> o.rule in OTHER_RULES
    ensures Ladder(forged, causes, jobs, others, cs).0 == FIXED <==>
      && forged.None? && causes == [] && others == []
      && (forall j :: j in jobs ==> j.rule == J3Passed)
      && (forall c :: c in cs ==> c.status == Success)
  {
    FirstRuleFound(RuleOfJob, {J3Weakened}, jobs);
    FirstRuleFound(RuleOfJob, {J3Recurs}, jobs);
    FirstRuleFound(RuleOfJob, {J3FlakySame, J3FlakyChanged}, jobs);
    FirstRuleFound(RuleOfJob, {J3Changed}, jobs);
    FirstUnobservedFound(jobs);
    FirstRuleFound(RuleOfOther, {J4Regressed}, others);
    FirstRuleFound(RuleOfOther, {J4Remaining, J4Revealed, J4RegressedAllowed}, others);
    if others != [] {
      assert others[0] in others && RuleOfOther(others[0]) in OTHER_RULES;
    }
    if Ladder(forged, causes, jobs, others, cs).0 == FIXED {
      forall j | j in jobs ensures j.rule == J3Passed {
        assert RuleOfJob(j) !in {J3Changed};
      }
    }
  }

  /** A finding is PASSED exactly when every attempt is known, there is one, and all of them
      succeeded without being allowed to fail. */
  lemma PassedExactly(t: Target, attempts: seq<Attempt>, complete: bool, sameVersions: bool)
    ensures FindingOf(t, attempts, complete, sameVersions).rule == J3Passed <==>
      complete && attempts != [] && forall a :: a in attempts ==> a.status == Success && !a.allowFailure
  {
    CountMembers(IsFailed, attempts);
    CountMembers(IsSuccess, attempts);
    AnyMembers(IsAllowed, attempts);
    if complete && attempts != [] && forall a :: a in attempts ==> a.status == Success && !a.allowFailure {
      assert forall a :: a in attempts ==> IsSuccess(a) && !IsFailed(a) && !IsAllowed(a);
    }
    if FindingOf(t, attempts, complete, sameVersions).rule == J3Passed {
      assert forall a :: a in attempts ==> IsSuccess(a) && !IsAllowed(a);
    }
  }

  lemma OthersFound(fix: FixFacts, cs: seq<Pipeline>)
    ensures forall o :: o in OtherFindings(fix, cs) ==> o.rule in OTHER_RULES
    ensures OtherFindings(fix, cs) == [] <==>
      forall c, a :: c in cs && a in c.jobs && !Diagnosed(fix, a.name) ==> !LatestFails(c, a.name)
  {
    var names := SortNames(FailingNames(fix, cs));
    forall o | o in OtherFindings(fix, cs) ensures o.rule in OTHER_RULES {
      var i :| 0 <= i < |names| && OtherFindings(fix, cs)[i] == o;
      assert o == OtherOf(fix.baseJobs, cs, names[i]);
    }
    if forall c, a :: c in cs && a in c.jobs && !Diagnosed(fix, a.name) ==> !LatestFails(c, a.name) {
      assert FailingNames(fix, cs) == {};
    }
    if OtherFindings(fix, cs) == [] {
      assert names == [];
      forall c, a | c in cs && a in c.jobs && !Diagnosed(fix, a.name) ensures !LatestFails(c, a.name) {
        assert a.name !in names;
      }
    }
  }

  // ---- FIXED, exactly ----

  /** A diagnosed job passed on every attempt in every one of these pipelines, and on one at least. */
  ghost predicate PassedIn(cs: seq<Pipeline>, t: Target) {
    && (exists c, a :: c in cs && a in c.jobs && a.name == t.Name())
    && (forall c, a :: c in cs && a in c.jobs && a.name == t.Name() ==> a.status == Success && !a.allowFailure)
  }

  ghost predicate Green(fix: FixFacts, p: Pipeline) {
    && p.status == Success && JobsListed(p)
    && forall a :: a in p.jobs ==>
      WellFormedJob(a) && !ActiveStatus(a.status) && (Diagnosed(fix, a.name) || !LatestFails(p, a.name))
  }

  ghost predicate CriterionOn(fix: FixFacts, d: DefinitionFacts, cs: seq<Pipeline>) {
    && cs != [] && (forall c :: c in cs ==> Green(fix, c))
    && (forall t :: t in fix.targets ==> PassedIn(cs, t))
    && DefinitionRead(d) && DefinitionFinding(d.delta, fix).None?
  }

  /** The criterion of a fix, said over the listed pipelines themselves: the fix commit's own
      pipelines, child pipelines and `[skip ci]` ones aside, and every attempt in each of them. */
  ghost predicate CriterionMet(f: JudgeFacts) {
    && f.pipelines.read && WellFormedAll(f.pipelines.pipelines)
    && (exists p :: IsCandidate(f, p))
    && (forall p :: IsCandidate(f, p) ==> Green(f.fix, p))
    && (forall t :: t in f.fix.targets ==>
         && (exists p, a :: IsCandidate(f, p) && a in p.jobs && a.name == t.Name())
         && (forall p, a :: IsCandidate(f, p) && a in p.jobs && a.name == t.Name() ==>
             a.status == Success && !a.allowFailure))
    && DefinitionRead(f.definition) && DefinitionFinding(f.definition.delta, f.fix).None?
  }

  predicate OwnOpenFix(f: JudgeFacts, now: Time) {
    FactsComplete(f, now) && f.mr.state == Opened && f.mr.sha == f.fix.fixCommitSHA
  }

  lemma CriterionSaid(f: JudgeFacts)
    requires f.pipelines.read
    ensures CriterionMet(f) <==> !Select(f).malformed && CriterionOn(f.fix, f.definition, Select(f).candidates)
  {
    var cs := Select(f).candidates;
    CandidateMembers(f);
    assert forall p :: p in cs <==> IsCandidate(f, p);
    if cs != [] { assert cs[0] in cs; }
  }

  lemma PassedOne(t: Target, cs: seq<Pipeline>, complete: bool, sameVersions: bool)
    ensures FindingOf(t, AttemptsOf(t.Name(), cs), complete, sameVersions).rule == J3Passed <==>
        complete && PassedIn(cs, t)
  {
    var attempts := AttemptsOf(t.Name(), cs);
    PassedExactly(t, attempts, complete, sameVersions);
    AttemptMembers(t.Name(), cs);
    if attempts != [] { assert attempts[0] in attempts; }
    if c, a :| c in cs && a in c.jobs && a.name == t.Name() { assert a in attempts; }
  }

  lemma PassedAt(ts: seq<Target>, cs: seq<Pipeline>, complete: bool, sameVersions: bool, i: nat)
    requires i < |ts|
    ensures GiveUpAll(FindingsOf(ts, cs, complete, sameVersions))[i].rule == J3Passed <==>
        complete && PassedIn(cs, ts[i])
  {
    FindingAt(ts, cs, complete, sameVersions, i);
    PassedOne(ts[i], cs, complete, sameVersions);
  }

  ghost predicate AllRulesPassed(js: seq<JobFinding>) { forall j :: j in js ==> j.rule == J3Passed }

  lemma PassedEach(ts: seq<Target>, cs: seq<Pipeline>, complete: bool, sameVersions: bool, t: Target)
    requires AllRulesPassed(GiveUpAll(FindingsOf(ts, cs, complete, sameVersions))) && t in ts
    ensures complete && PassedIn(cs, t)
  {
    var i :| 0 <= i < |ts| && ts[i] == t;
    PassedAt(ts, cs, complete, sameVersions, i);
    assert GiveUpAll(FindingsOf(ts, cs, complete, sameVersions))[i]
        in GiveUpAll(FindingsOf(ts, cs, complete, sameVersions));
  }

  lemma EachPassed(ts: seq<Target>, cs: seq<Pipeline>, complete: bool, sameVersions: bool)
    requires forall t :: t in ts ==> complete && PassedIn(cs, t)
    ensures AllRulesPassed(GiveUpAll(FindingsOf(ts, cs, complete, sameVersions)))
  {
    forall i | 0 <= i < |ts| ensures GiveUpAll(FindingsOf(ts, cs, complete, sameVersions))[i].rule == J3Passed {
      assert ts[i] in ts;
      PassedAt(ts, cs, complete, sameVersions, i);
    }
  }

  lemma OnlyOwnFixed(f: JudgeFacts, now: Time)
    ensures Answer(f, now).verdict
         == if OwnOpenFix(f, now) then OpenAnswer(f.fix, f.definition, Select(f), Past(f, now)).verdict else None
  {}

  lemma OpenCriterion(f: JudgeFacts)
    ensures Select(f).read && !Select(f).malformed && CriterionOn(f.fix, f.definition, Select(f).candidates) <==>
        CriterionMet(f)
  {
    if f.pipelines.read { CriterionSaid(f); }
  }

  /** FIXED is given exactly when the criterion is met: conservative across every candidate
      pipeline and every attempt, whatever order they are listed in and whatever the clock says. */
  lemma FixedExactly(f: JudgeFacts, now: Time)
    ensures Answer(f, now).verdict == Some(FIXED) <==> OwnOpenFix(f, now) && CriterionMet(f)
  {
    OnlyOwnFixed(f, now);
    if OwnOpenFix(f, now) {
      OpenFixed(f.fix, f.definition, Select(f), Past(f, now));
      OpenCriterion(f);
    }
  }

  lemma OpenFixed(fix: FixFacts, d: DefinitionFacts, sel: Selection, past: bool)
    requires fix.targets != []
    ensures OpenAnswer(fix, d, sel, past).verdict == Some(FIXED) <==>
      sel.read && !sel.malformed && CriterionOn(fix, d, sel.candidates)
  {
    if OpenAnswer(fix, d, sel, past).verdict == Some(FIXED) {
      FixedMeets(fix, d, sel);
    }
    if sel.read && CriterionOn(fix, d, sel.candidates) {
      MeetsFixed(fix, d, sel);
      AttemptsFixed(fix, d, sel, past);
    }
  }

  lemma FixedMeets(fix: FixFacts, d: DefinitionFacts, sel: Selection)
    requires fix.targets != []
    requires !JobsMalformed(sel.candidates) && Decided(fix, d, sel).verdict == Some(FIXED)
    ensures sel.read && CriterionOn(fix, d, sel.candidates)
  {
    var cs := sel.candidates;
    OthersFound(fix, cs);
    LadderFixed(Forgery(fix, d), Causes(fix, d, sel), JobFindings(fix, sel), OtherFindings(fix, cs), cs);
    forall t | t in fix.targets ensures AttemptsKnown(sel) && PassedIn(cs, t) {
      PassedEach(fix.targets, cs, AttemptsKnown(sel), SameVersions(fix), t);
    }
    assert fix.targets[0] in fix.targets;
    assert Settled(cs);
    forall c | c in cs ensures Green(fix, c) { assert SettledPipeline(c); }
  }

  lemma CriterionFacts(fix: FixFacts, d: DefinitionFacts, sel: Selection)
    requires sel.read && CriterionOn(fix, d, sel.candidates)
    ensures Settled(sel.candidates) && AttemptsKnown(sel) && !JobsMalformed(sel.candidates)
    ensures Causes(fix, d, sel) == [] && Forgery(fix, d).None?
    ensures forall c :: c in sel.candidates ==> c.status == Success
  {
    forall c | c in sel.candidates ensures SettledPipeline(c) && JobsListed(c) { assert Green(fix, c); }
    forall c, a | c in sel.candidates && a in c.jobs ensures WellFormedJob(a) { assert Green(fix, c); }
  }

  lemma MeetsFixed(fix: FixFacts, d: DefinitionFacts, sel: Selection)
    requires sel.read && CriterionOn(fix, d, sel.candidates)
    ensures Decided(fix, d, sel).verdict == Some(FIXED)
    ensures forall j :: j in JobFindings(fix, sel) ==> j.rule == J3Passed
  {
    var cs := sel.candidates;
    CriterionFacts(fix, d, sel);
    EachPassed(fix.targets, cs, AttemptsKnown(sel), SameVersions(fix));
    OthersFound(fix, cs);
    forall c, a | c in cs && a in c.jobs && !Diagnosed(fix, a.name)
      ensures !LatestFails(c, a.name)
    {
      assert Green(fix, c);
    }
    LadderFixed(Forgery(fix, d), Causes(fix, d, sel), JobFindings(fix, sel), OtherFindings(fix, cs), cs);
  }

  lemma AttemptsFixed(fix: FixFacts, d: DefinitionFacts, sel: Selection, past: bool)
    requires sel.read && CriterionOn(fix, d, sel.candidates)
    ensures AttemptsAnswer(fix, d, sel, past) == Decided(fix, d, sel) && Settled(sel.candidates)
  {
    CriterionFacts(fix, d, sel);
    MeetsFixed(fix, d, sel);
    if TraceUnread(fix, sel) {
      var j := UnknownIsUnobserved(RawJobs(fix, sel));
      assert false;
    }
  }

  // ---- the clock ----

  /** A verdict, once reached, and a stop, once seen, are the answer at every later time. */
  lemma VerdictStable(f: JudgeFacts, early: Time, late: Time)
    requires early <= late && late != ZERO_TIME
    requires Answer(f, early).decision in {DecisionVerdict, DecisionStopped}
    ensures Answer(f, late) == Answer(f, early)
  {}

  lemma OnlyOwnDecides(f: JudgeFacts, now: Time)
    ensures Answer(f, now).decision == DecisionVerdict <==>
      OwnOpenFix(f, now) && OpenAnswer(f.fix, f.definition, Select(f), Past(f, now)).decision == DecisionVerdict
  {}

  lemma OpenPast(fix: FixFacts, d: DefinitionFacts, sel: Selection, past: bool)
    requires past
    ensures OpenAnswer(fix, d, sel, past).decision == DecisionVerdict <==>
        !sel.malformed && !JobsMalformed(sel.candidates)
  {}

  /** From the deadline on, gonk's own open fix with its recorded facts always gets a verdict,
      unless a listed object has no identity; without those facts there never is one. */
  lemma DeadlineDecides(f: JudgeFacts, now: Time)
    requires Past(f, now)
    ensures Answer(f, now).decision == DecisionVerdict <==>
      OwnOpenFix(f, now) && !Select(f).malformed && !JobsMalformed(Select(f).candidates)
  {
    OnlyOwnDecides(f, now);
    OpenPast(f.fix, f.definition, Select(f), Past(f, now));
  }

  /** Everything a verdict before the deadline needs of the pipelines and the CI definition. */
  ghost predicate AllObserved(fix: FixFacts, d: DefinitionFacts, sel: Selection) {
    && !sel.malformed && !JobsMalformed(sel.candidates)
    && AttemptsKnown(sel) && Settled(sel.candidates) && DefinitionRead(d)
    && forall j :: j in RawJobs(fix, sel) ==> j.rule != J3Unknown
  }

  lemma OpenObserved(fix: FixFacts, d: DefinitionFacts, sel: Selection, past: bool)
    requires !past
    ensures OpenAnswer(fix, d, sel, past).decision == DecisionVerdict <==> AllObserved(fix, d, sel)
  {
    AnyMembers(IsUnknown, RawJobs(fix, sel));
    assert forall j :: j in RawJobs(fix, sel) ==> (IsUnknown(j) <==> j.rule == J3Unknown);
  }

  /** Before the deadline there is a verdict exactly when everything was read and has finished. */
  lemma NoVerdictOnPartialFacts(f: JudgeFacts, now: Time)
    requires !Past(f, now)
    ensures Answer(f, now).decision == DecisionVerdict <==>
      OwnOpenFix(f, now) && AllObserved(f.fix, f.definition, Select(f))
  {
    OnlyOwnDecides(f, now);
    OpenObserved(f.fix, f.definition, Select(f), Past(f, now));
  }

  const NOT_A_PASS: set<Verdict> := {FORGED, NOT_FIXED, FLAKY, UNVERIFIABLE}

  lemma LadderNotAPass(forged: Option<Rule>, causes: seq<Rule>, jobs: seq<JobFinding>, others: seq<OtherFinding>,
                       cs: seq<Pipeline>)
    requires causes != [] || exists j :: j in jobs && j.rule !in OBSERVED
    ensures Ladder(forged, causes, jobs, others, cs).0 in NOT_A_PASS
  {
    FirstUnobservedFound(jobs);
  }

  predicate Forces(rule: Rule, v: Verdict) {
    && (rule == J3Weakened ==> v == FORGED)
    && (rule in {J3Weakened, J3Recurs, J3FlakySame, J3FlakyChanged} ==> v in {FORGED, NOT_FIXED, FLAKY})
    && (rule !in OBSERVED ==> v in NOT_A_PASS)
  }

  /** What one finding alone forces, whatever the rest of the evidence is. */
  lemma LadderWith(forged: Option<Rule>, causes: seq<Rule>, jobs: seq<JobFinding>, others: seq<OtherFinding>,
                   cs: seq<Pipeline>, j: JobFinding)
    requires j in jobs
    ensures Forces(j.rule, Ladder(forged, causes, jobs, others, cs).0)
  {
    FirstRuleFound(RuleOfJob, {J3Weakened}, jobs);
    FirstRuleFound(RuleOfJob, {J3Recurs}, jobs);
    FirstRuleFound(RuleOfJob, {J3FlakySame, J3FlakyChanged}, jobs);
    FirstUnobservedFound(jobs);
    assert RuleOfJob(j) == j.rule;
  }

  lemma DecidedWith(f: JudgeFacts, now: Time, j: JobFinding)
    requires Answer(f, now).decision == DecisionVerdict && j in JobFindings(f.fix, Select(f))
    ensures Answer(f, now).verdict.Some? && Forces(j.rule, Answer(f, now).verdict.value)
  {
    OnlyOpenDecides(f, now);
    OpenDecided(f.fix, f.definition, Select(f), Past(f, now));
    DecidedVerdict(f.fix, f.definition, Select(f), j);
  }

  lemma OnlyOpenDecides(f: JudgeFacts, now: Time)
    requires Answer(f, now).decision == DecisionVerdict
    ensures Answer(f, now) == OpenAnswer(f.fix, f.definition, Select(f), Past(f, now))
  {}

  lemma OpenDecided(fix: FixFacts, d: DefinitionFacts, sel: Selection, past: bool)
    ensures OpenAnswer(fix, d, sel, past).decision == DecisionVerdict ==>
        OpenAnswer(fix, d, sel, past) == Decided(fix, d, sel)
  {}

  lemma DecidedVerdict(fix: FixFacts, d: DefinitionFacts, sel: Selection, j: JobFinding)
    requires j in JobFindings(fix, sel)
    ensures Decided(fix, d, sel).verdict.Some? && Forces(j.rule, Decided(fix, d, sel).verdict.value)
  {
    LadderWith(Forgery(fix, d), Causes(fix, d, sel), JobFindings(fix, sel), OtherFindings(fix, sel.candidates),
               sel.candidates, j);
  }

  lemma WeakenedFinding(t: Target, attempts: seq<Attempt>, complete: bool, sameVersions: bool, a: Attempt)
    requires a in attempts && a.allowFailure
    ensures FindingOf(t, attempts, complete, sameVersions).rule == J3Weakened
  {
    AnyMembers(IsAllowed, attempts);
    assert IsAllowed(a);
  }

  lemma RetriedFinding(t: Target, attempts: seq<Attempt>, complete: bool, sameVersions: bool, a: Attempt, b: Attempt)
    requires a in attempts && a.status == Failed && b in attempts && b.status == Success
    ensures GiveUp(FindingOf(t, attempts, complete, sameVersions)).rule !in OBSERVED
  {
    CountMembers(IsFailed, attempts);
    CountMembers(IsSuccess, attempts);
    assert IsFailed(a) && IsSuccess(b);
  }

  lemma RecurrenceFinding(t: Target, attempts: seq<Attempt>, a: Attempt)
    requires a in attempts && a.status == Failed && CompareFailure(t, a, true) == SameFailure
    requires forall b :: b in attempts ==> b.trace.read
    ensures FindingOf(t, attempts, true, true).rule in {J3Weakened, J3FlakySame, J3Recurs}
  {
    CountMembers(IsFailed, attempts);
    AnyMembers(FailureTest(t, true, SameFailure), attempts);
    AnyMembers(FailureTest(t, true, Incomparable), attempts);
    AnyMembers(FailureTest(t, true, Unread), attempts);
    assert IsFailed(a) && FailureTest(t, true, SameFailure)(a);
    assert !Any(FailureTest(t, true, Incomparable), attempts) && !Any(FailureTest(t, true, Unread), attempts);
  }

  lemma UnlistedFinding(t: Target, attempts: seq<Attempt>, complete: bool, sameVersions: bool)
    requires !complete
    ensures FindingOf(t, attempts, complete, sameVersions).rule in {J3Weakened, J3Unread}
  {}

  lemma FindingGivenUp(fix: FixFacts, sel: Selection, i: nat)
    requires i < |fix.targets|
    ensures |JobFindings(fix, sel)| == |fix.targets|
    ensures JobFindings(fix, sel)[i] in JobFindings(fix, sel)
    ensures JobFindings(fix, sel)[i]
         == GiveUp(FindingOf(fix.targets[i], AttemptsOf(fix.targets[i].Name(), sel.candidates), AttemptsKnown(sel),
                             SameVersions(fix)))
  {
    FindingAt(fix.targets, sel.candidates, AttemptsKnown(sel), SameVersions(fix), i);
  }

  lemma UnlistedIsUnobserved(fix: FixFacts, sel: Selection) returns (j: JobFinding)
    requires fix.targets != [] && !AttemptsKnown(sel)
    ensures j in JobFindings(fix, sel) && j.rule !in OBSERVED
  {
    var t := fix.targets[0];
    UnlistedFinding(t, AttemptsOf(t.Name(), sel.candidates), AttemptsKnown(sel), SameVersions(fix));
    FindingGivenUp(fix, sel, 0);
    j := JobFindings(fix, sel)[0];
  }

  lemma UnknownIsUnobserved(js: seq<JobFinding>) returns (j: JobFinding)
    requires Any(IsUnknown, js)
    ensures j in GiveUpAll(js) && j.rule !in OBSERVED
  {
    AnyMembers(IsUnknown, js);
    var i :| i in js && IsUnknown(i);
    GivenUpMember(js, i);
    j := GiveUp(i);
  }

  lemma GivenUpMember(js: seq<JobFinding>, j: JobFinding)
    requires j in js
    ensures GiveUp(j) in GiveUpAll(js)
  {
    var i :| 0 <= i < |js| && js[i] == j;
    assert GiveUpAll(js)[i] == GiveUp(j);
  }

  /** The deadline never turns a missing fact into a pass: what was not decided before it is,
      after it, at best unverifiable. */
  lemma DeadlineIsNotAPass(f: JudgeFacts, early: Time, late: Time)
    requires early != ZERO_TIME && !Past(f, early) && Past(f, late)
    requires Answer(f, early).decision != DecisionVerdict
    requires Answer(f, late).decision == DecisionVerdict
    ensures Answer(f, late).verdict.Some? && Answer(f, late).verdict.value in NOT_A_PASS
  {
    if !AttemptsKnown(Select(f)) {
      var j := UnlistedIsUnobserved(f.fix, Select(f));
    } else if TraceUnread(f.fix, Select(f)) {
      var j := UnknownIsUnobserved(RawJobs(f.fix, Select(f)));
    }
    LadderNotAPass(Forgery(f.fix, f.definition), Causes(f.fix, f.definition, Select(f)), JobFindings(f.fix, Select(f)),
                   OtherFindings(f.fix, Select(f).candidates), Select(f).candidates);
  }

  // ---- one attempt is enough ----

  ghost predicate Attempted(f: JudgeFacts, t: Target, a: Attempt) {
    t in f.fix.targets && a.name == t.Name() && exists p :: IsCandidate(f, p) && a in p.jobs
  }

  lemma AttemptedFinding(f: JudgeFacts, t: Target, a: Attempt) returns (i: nat)
    requires Attempted(f, t, a)
    ensures i < |f.fix.targets| && f.fix.targets[i] == t
    ensures a in AttemptsOf(t.Name(), Select(f).candidates)
  {
    CandidateMembers(f);
    AttemptMembers(t.Name(), Select(f).candidates);
    i :| 0 <= i < |f.fix.targets| && f.fix.targets[i] == t;
  }

  /** One attempt that was allowed to fail is a forgery, whatever else is or is not known. */
  lemma WeakenedIsForged(f: JudgeFacts, now: Time, t: Target, a: Attempt)
    requires Attempted(f, t, a) && a.allowFailure
    requires Answer(f, now).decision == DecisionVerdict
    ensures Answer(f, now).verdict == Some(FORGED)
  {
    var i := AttemptedFinding(f, t, a);
    FindingGivenUp(f.fix, Select(f), i);
    WeakenedFinding(t, AttemptsOf(t.Name(), Select(f).candidates), AttemptsKnown(Select(f)), SameVersions(f.fix), a);
    DecidedWith(f, now, JobFindings(f.fix, Select(f))[i]);
  }

  /** A retry is not a pass: a diagnosed job that failed in one attempt and succeeded in another,
      in whichever pipelines, is never FIXED nor fixed-with-something-else. */
  lemma RetryIsNotAPass(f: JudgeFacts, now: Time, t: Target, a: Attempt, b: Attempt)
    requires Attempted(f, t, a) && a.status == Failed
    requires Attempted(f, t, b) && b.status == Success
    requires Answer(f, now).decision == DecisionVerdict
    ensures Answer(f, now).verdict.Some? && Answer(f, now).verdict.value in NOT_A_PASS
  {
    var i := AttemptedFinding(f, t, a);
    var k := AttemptedFinding(f, t, b);
    FindingGivenUp(f.fix, Select(f), i);
    RetriedFinding(t, AttemptsOf(t.Name(), Select(f).candidates), AttemptsKnown(Select(f)), SameVersions(f.fix), a, b);
    DecidedWith(f, now, JobFindings(f.fix, Select(f))[i]);
  }

  /** A diagnosed job that still fails the way it was diagnosed, with every attempt and trace read,
      ends in NOT_FIXED unless a graver or equally conservative finding outranks it. */
  lemma RecurrenceIsVisible(f: JudgeFacts, now: Time, t: Target, a: Attempt)
    requires Attempted(f, t, a) && a.status == Failed
    requires CompareFailure(t, a, SameVersions(f.fix)) == SameFailure
    requires AttemptsKnown(Select(f)) && SameVersions(f.fix)
    requires forall b :: b in AttemptsOf(t.Name(), Select(f).candidates) ==> b.trace.read
    requires Answer(f, now).decision == DecisionVerdict
    ensures Answer(f, now).verdict.Some? && Answer(f, now).verdict.value in {FORGED, NOT_FIXED, FLAKY}
  {
    var i := AttemptedFinding(f, t, a);
    FindingGivenUp(f.fix, Select(f), i);
    RecurrenceFinding(t, AttemptsOf(t.Name(), Select(f).candidates), a);
    DecidedWith(f, now, JobFindings(f.fix, Select(f))[i]);
  }
}
