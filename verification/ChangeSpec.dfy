/** What a change's exit check answers, step by step (K0 to K5). ChangeJudge holds the
    check as it is written and proves it gives this answer. */
module ChangeSpec {
  import opened Basics
  import opened CiDelta
  import opened ChangeFacts
  import opened Listing
  import opened Ordering

  // ---- recorded facts ----

  predicate KnownCase(c: Case) { c.id.name != "" && !c.status.OtherCase? }

  /** A report that was read, whole. */
  predicate WellFormed(r: Report) {
    r.read && |r.cases| == r.total && forall c :: c in r.cases ==> KnownCase(c)
  }

  predicate ChangeComplete(ch: Change) {
    && ch.recorded && ch.baseSHA != "" && ch.changeCommitSHA != "" && ch.basePipelineID != 0 && ch.mrIID != 0
    && ch.diffClasses != [] && (forall c :: c in ch.diffClasses ==> c != "")
    && WellFormed(ch.baseReport)
    && (ch.addedGoTests != [] ==> ch.goProfile) && (forall g :: g in ch.addedGoTests ==> g.name != "")
    && ch.verifyDeadline != ZERO_TIME
  }

  predicate FactsComplete(f: JudgeFacts, now: Time) {
    && now != ZERO_TIME && ChangeComplete(f.change)
    && f.mr.read && f.mr.iid == f.change.mrIID && f.mr.sha != ""
  }

  // ---- K1: the candidate pipelines ----

  predicate WellFormedPipeline(p: Pipeline) {
    p.id != 0 && p.sha != "" && p.source != NoSource && p.status != NoStatus
  }
  predicate WellFormedAll(ps: seq<Pipeline>) { forall p :: p in ps ==> WellFormedPipeline(p) }

  predicate OwnPipeline(p: Pipeline, sha: string) { p.sha == sha && p.source != ParentPipeline }
  function CandidateTest(sha: string): Pipeline -> bool { (p: Pipeline) => OwnPipeline(p, sha) }

  function PipelineId(p: Pipeline): int { p.id }

  function Ids(ps: seq<Pipeline>): (ids: seq<int>)
    ensures |ids| == |ps| && forall i :: 0 <= i < |ps| ==> ids[i] == ps[i].id
  {
    seq(|ps|, i requires 0 <= i < |ps| => ps[i].id)
  }

  datatype Selection = Selection(read: bool, malformed: bool, candidates: seq<Pipeline>)

  function Select(f: JudgeFacts): Selection {
    var ps := f.pipelines.pipelines;
    if !f.pipelines.read then Selection(false, false, [])
    else Selection(true, !WellFormedAll(ps), SortById(PipelineId, Filter(CandidateTest(f.change.changeCommitSHA), ps)))
  }

  predicate SettledStatus(s: Status) { s in {Success, Failed, Canceled, Skipped, Manual} }

  predicate Settled(cs: seq<Pipeline>) { cs != [] && forall c :: c in cs ==> SettledStatus(c.status) }

  predicate WellFormedJob(a: Attempt) { a.id != 0 && a.name != "" && a.status != NoStatus }
  predicate JobsMalformed(cs: seq<Pipeline>) {
    exists c :: c in cs && exists a :: a in c.jobs && !WellFormedJob(a)
  }

  predicate JobsListed(c: Pipeline) { c.jobsRead && c.includeRetried }

  predicate AttemptsKnown(sel: Selection) {
    sel.read && forall c :: c in sel.candidates ==> JobsListed(c)
  }

  // ---- K2: the CI definition ----

  predicate DefinitionRead(d: DefinitionFacts) { d.read && KnownKind(d.delta.kind) }

  /** Any difference at all is a finding: there is no lift in this workflow. */
  function DefinitionFinding(d: Delta): Option<Rule> {
    if d.kind == KindViolation || d.violations > 0 then Some(K2Violation)
    else if d.kind == KindUnresolvable || d.unresolvable != [] then Some(K2Unresolvable)
    else if d.kind != KindNone || d.changes > 0 then Some(K2Changed)
    else None
  }

  // ---- K3: the jobs ----

  /** Every attempt of every candidate, in listing order. */
  function AllAttempts(cs: seq<Pipeline>): seq<Attempt> {
    if cs == [] then [] else AllAttempts(cs[..|cs| - 1]) + cs[|cs| - 1].jobs
  }

  function Named(n: string): Attempt -> bool { (a: Attempt) => a.name == n }
  function NamedFailed(n: string): Attempt -> bool { (a: Attempt) => a.name == n && a.status == Failed }
  function NamedSuccess(n: string): Attempt -> bool { (a: Attempt) => a.name == n && a.status == Success }
  function NamedRequired(n: string): Attempt -> bool { (a: Attempt) => a.name == n && !a.allowFailure }

  function JobRule(attempts: nat, failed: nat, succeeded: nat, required: bool): Rule {
    if succeeded > 0 then K3Flaky
    else if !required then K3AllowedFailure
    else if failed == attempts then K3Red
    else K3Attempts
  }

  function FindingOf(n: string, s: seq<Attempt>): JobFinding {
    var attempts, failed, succeeded := Count(Named(n), s), Count(NamedFailed(n), s), Count(NamedSuccess(n), s);
    JobFinding(n, JobRule(attempts, failed, succeeded, Any(NamedRequired(n), s)), attempts, failed, succeeded)
  }

  ghost function FailedNames(s: seq<Attempt>): set<string> {
    set a | a in s && a.status == Failed :: a.name
  }

  function FindingsFor(names: seq<string>, s: seq<Attempt>): (js: seq<JobFinding>)
    ensures |js| == |names|
  {
    seq(|names|, i requires 0 <= i < |names| => FindingOf(names[i], s))
  }

  /** One finding per job with a failed attempt, by name. */
  ghost function JobFindings(s: seq<Attempt>): seq<JobFinding> { FindingsFor(SortNames(FailedNames(s)), s) }

  // ---- K4: the tests ----

  /** The identities of the cases with these statuses, as often as they occur. */
  function Occurrences(wanted: set<CaseStatus>, cases: seq<Case>): multiset<CaseId> {
    if cases == [] then multiset{} else
      var c := cases[|cases| - 1];
      Occurrences(wanted, cases[..|cases| - 1]) + if c.status in wanted then multiset{c.id} else multiset{}
  }

  function Passed(r: Report): multiset<CaseId> { Occurrences({CasePassed}, r.cases) }
  function Failing(r: Report): multiset<CaseId> { Occurrences({CaseFailed, CaseError}, r.cases) }

  function GoPassTest(g: GoTest): Case -> bool {
    (c: Case) =>
      c.status == CasePassed && c.id.name == g.name
      && (g.dir == "" || c.id.classname == g.dir || HasSuffix(c.id.classname, "/" + g.dir))
  }

  function GoPasses(r: Report, g: GoTest): nat { Count(GoPassTest(g), r.cases) }

  predicate TestsApply(classes: seq<string>) { exists c :: c in classes && c != CLASS_DOCS }

  predicate IsGreen(p: Pipeline) { p.status == Success }

  function GreenPipelines(cs: seq<Pipeline>): seq<Pipeline> { Filter(IsGreen, cs) }

  predicate Reports(p: Pipeline) { p.report.total > 0 }

  function Heads(cs: seq<Pipeline>): seq<Pipeline> { Filter(Reports, GreenPipelines(cs)) }

  predicate ReportUnread(cs: seq<Pipeline>) {
    exists c :: c in cs && c.status == Success && !WellFormed(c.report)
  }

  ghost function Lost(base: Report, heads: seq<Pipeline>): set<CaseId> {
    set id, h | h in heads && id in Passed(base) && Passed(h.report)[id] < Passed(base)[id] :: id
  }

  ghost function NewlyFailing(base: Report, heads: seq<Pipeline>): set<CaseId> {
    set h, id | h in heads && id in Failing(h.report) && Failing(h.report)[id] > Failing(base)[id] :: id
  }

  predicate RanGo(base: Report, heads: seq<Pipeline>, g: GoTest) {
    exists h :: h in heads && GoPasses(h.report, g) > GoPasses(base, g)
  }

  function NotRunGo(base: Report, heads: seq<Pipeline>, added: seq<GoTest>): set<GoTest> {
    set g | g in added && !RanGo(base, heads, g)
  }

  /** The identities that pass more often in some reporting pipeline than they did at the base. */
  ghost function NewPasses(base: Report, heads: seq<Pipeline>): set<CaseId> {
    set h, id | h in heads && id in Passed(h.report) && Passed(h.report)[id] > Passed(base)[id] :: id
  }

  function Plain(finding: Finding, rule: Rule): Tests { Tests(finding, rule, {}, {}, {}) }

  ghost function JudgedTests(ch: Change, cs: seq<Pipeline>): Tests {
    var base, heads := ch.baseReport, Heads(cs);
    if !TestsApply(ch.diffClasses) then Plain(NotApplicable, K4NotApplicable)
    else if GreenPipelines(cs) == [] then Plain(NoFinding, NoRule)
    else if ReportUnread(cs) then Plain(TestsUnknown, K4Unknown)
    else if heads == [] then
      if Passed(base) != multiset{} then Plain(TestsReduced, K4Vanished) else Plain(TestsUnobserved, K4Unobserved)
    else if Lost(base, heads) != {} then Plain(TestsReduced, K4Reduced).(lost := Lost(base, heads))
    else if ch.goProfile && NotRunGo(base, heads, ch.addedGoTests) != {} then
      Plain(TestsNewNotRun, K4NewNotRunGo).(notRun := NotRunGo(base, heads, ch.addedGoTests))
    else if !ch.goProfile && NewPasses(base, heads) == {} then Plain(TestsNewNotRun, K4NewNotRunNone)
    else if NewlyFailing(base, heads) != {} then Plain(TestsFailed, K4Failed).(failing := NewlyFailing(base, heads))
    else Plain(TestsObserved, K4Observed)
  }

  function GiveUp(t: Tests): Tests { if t.finding == TestsUnknown then t.(rule := K4Unread) else t }

  // ---- K5: the verdict ladder ----

  function HasRule(rule: Rule): JobFinding -> bool { (j: JobFinding) => j.rule == rule }

  function SettleCauses(sel: Selection): seq<Rule> {
    if !sel.read then [K1Unread] else if Settled(sel.candidates) then [] else [K1Timeout]
  }

  function DefinitionCauses(d: DefinitionFacts): seq<Rule> {
    if !DefinitionRead(d) then [K2Unread]
    else match DefinitionFinding(d.delta) case Some(r) => [r] case None => []
  }

  function JobCauses(sel: Selection, jobs: seq<JobFinding>): seq<Rule> {
    (if !sel.read then []
     else if !AttemptsKnown(sel) then [K3Unread]
     else if Any(HasRule(K3Attempts), jobs) then [K3Attempts] else [])
    +
    (if exists c :: c in sel.candidates && c.status != Success then [K3Status] else [])
  }

  /** What K1, K2 and K3 could not establish, in step order. */
  function Causes(d: DefinitionFacts, sel: Selection, jobs: seq<JobFinding>): seq<Rule> {
    SettleCauses(sel) + DefinitionCauses(d) + JobCauses(sel, jobs)
  }

  function Ladder(jobs: seq<JobFinding>, causes: seq<Rule>, tests: Tests, requireReport: bool): (Verdict, Rule) {
    if Any(HasRule(K3Red), jobs) then (NOT_GREEN, K3Red)
    else if tests.finding == TestsNewNotRun then (TESTS_NOT_RUN, tests.rule)
    else if Any(HasRule(K3Flaky), jobs) then (FLAKY, K3Flaky)
    else if causes != [] then (UNVERIFIABLE, causes[0])
    else if tests.finding in {TestsUnknown, TestsReduced, TestsFailed} then (UNVERIFIABLE, tests.rule)
    else if tests.finding == TestsUnobserved then
      if requireReport then (UNVERIFIABLE, K5ReportRequired) else (GREEN_UNOBSERVED, K5Unobserved)
    else if tests.finding in {TestsObserved, NotApplicable} then (GREEN, K5Green)
    else (UNVERIFIABLE, K5Unexplained)
  }

  // ---- the answer ----

  function Blank(): Result {
    Result(DecisionCannotJudge, None, NoState, RuleFacts, [], false, [], Plain(NoFinding, NoRule))
  }

  function Stopped(s: State, r: Rule): Result { Blank().(decision := DecisionStopped, state := s, rule := r) }

  function Waiting(sel: Selection): Result {
    Blank().(decision := DecisionWait, state := StateVerifying, rule := K1Wait, candidates := Ids(sel.candidates))
  }

  function CannotJudge(sel: Selection, r: Rule, jobs: seq<JobFinding>, tests: Tests): Result {
    Blank().(rule := r, candidates := Ids(sel.candidates), jobs := jobs, tests := tests)
  }

  /** K3's findings; none when an attempt may be missing. */
  ghost function JobsOf(sel: Selection): seq<JobFinding> {
    if AttemptsKnown(sel) then JobFindings(AllAttempts(sel.candidates)) else []
  }

  ghost function Decided(ch: Change, d: DefinitionFacts, sel: Selection): Result {
    var tests, jobs := GiveUp(JudgedTests(ch, sel.candidates)), JobsOf(sel);
    var (v, r) := Ladder(jobs, Causes(d, sel, jobs), tests, ch.requireTestReport);
    Result(DecisionVerdict, Some(v), StateFor(v), r, Ids(sel.candidates), DefinitionCauses(d) == [], jobs, tests)
  }

  ghost function AttemptsAnswer(ch: Change, d: DefinitionFacts, sel: Selection, past: bool): Result {
    var tests, jobs := JudgedTests(ch, sel.candidates), JobsOf(sel);
    if JobsMalformed(sel.candidates) then CannotJudge(sel, RuleFacts, [], Plain(NoFinding, NoRule))
    else if !past && (!AttemptsKnown(sel) || !DefinitionRead(d)) then CannotJudge(sel, RuleFacts, jobs, tests)
    else if !past && tests.finding == TestsUnknown then CannotJudge(sel, K4Unknown, jobs, tests)
    else Decided(ch, d, sel)
  }

  ghost function OpenAnswer(ch: Change, d: DefinitionFacts, sel: Selection, past: bool): Result {
    if sel.malformed then Blank()
    else if !past && sel.read && !Settled(sel.candidates) then Waiting(sel)
    else AttemptsAnswer(ch, d, sel, past)
  }

  /** K0, and the facts nothing can be said without. */
  function Identity(f: JudgeFacts, now: Time): (r: Option<Result>)
    ensures r.Some? ==> r.value.decision in {DecisionCannotJudge, DecisionStopped} && r.value.verdict.None?
  {
    if !FactsComplete(f, now) then Some(Blank())
    else match f.mr.state
      case Merged => Some(Stopped(StateMerged, K0Merged))
      case Closed => Some(Stopped(StateClosedUnmerged, K0Closed))
      case OtherMRState(_) => Some(Blank())
      case Opened => if f.mr.sha != f.change.changeCommitSHA then Some(Stopped(StateTakenOver, K0TakenOver)) else None
  }

  predicate Past(f: JudgeFacts, now: Time) { now >= f.change.verifyDeadline }

  ghost function Answer(f: JudgeFacts, now: Time): Result {
    match Identity(f, now)
    case Some(r) => r
    case None => OpenAnswer(f.change, f.definition, Select(f), Past(f, now))
  }
}
