/** The facts and answers of a change's exit check (pkg/changejudge). */
module ChangeFacts {
  import opened Basics
  import opened CiDelta

  datatype Status = NoStatus | Success | Failed | Canceled | Skipped | Manual | OtherStatus(text: string)

  datatype Source = NoSource | ParentPipeline | OtherSource(text: string)

  datatype Attempt = Attempt(id: int, name: string, status: Status, allowFailure: bool)

  datatype CaseStatus = CasePassed | CaseFailed | CaseSkipped | CaseError | OtherCase(text: string)

  /** A test case's identity: two cases may share one. */
  datatype CaseId = CaseId(suite: string, classname: string, name: string)

  datatype Case = Case(id: CaseId, status: CaseStatus)

  /** A pipeline's test report; total is GitLab's own count. */
  datatype Report = Report(read: bool, total: int, cases: seq<Case>)

  datatype Pipeline = Pipeline(
    id: int, sha: string, source: Source, status: Status,
    jobsRead: bool, includeRetried: bool, jobs: seq<Attempt>, report: Report)

  datatype GoTest = GoTest(dir: string, name: string)

  const CLASS_DOCS := "docs"

  datatype Change = Change(
    recorded: bool, baseSHA: string, changeCommitSHA: string, basePipelineID: int, mrIID: int,
    diffClasses: seq<string>, baseReport: Report, goProfile: bool, addedGoTests: seq<GoTest>,
    requireTestReport: bool, verifyDeadline: Time)

  datatype MRState = Opened | Closed | Merged | OtherMRState(text: string)
  datatype MRFacts = MRFacts(read: bool, iid: int, state: MRState, sha: string)
  datatype PipelineFacts = PipelineFacts(read: bool, pipelines: seq<Pipeline>)
  datatype DefinitionFacts = DefinitionFacts(read: bool, delta: Delta)
  datatype JudgeFacts = JudgeFacts(
    change: Change, mr: MRFacts, pipelines: PipelineFacts, definition: DefinitionFacts)

  datatype Decision = DecisionVerdict | DecisionWait | DecisionCannotJudge | DecisionStopped

  datatype Verdict = NOT_GREEN | TESTS_NOT_RUN | FLAKY | UNVERIFIABLE | GREEN_UNOBSERVED | GREEN

  datatype State =
    | NoState | StateVerifying | StateVerified | StateVerifiedUnobserved | StateInconclusive
    | StateNotVerified | StateTakenOver | StateClosedUnmerged | StateMerged

  datatype Rule =
    | NoRule | RuleFacts
    | K0Closed | K0Merged | K0TakenOver
    | K1Wait | K1Timeout | K1Unread
    | K2Changed | K2Violation | K2Unresolvable | K2Unread
    | K3Flaky | K3Red | K3AllowedFailure | K3Attempts | K3Status | K3Unread
    | K4NotApplicable | K4Unknown | K4Unread | K4Unobserved | K4Vanished | K4Reduced
    | K4NewNotRunGo | K4NewNotRunNone | K4Failed | K4Observed
    | K5ReportRequired | K5Unexplained | K5Unobserved | K5Green

  datatype JobFinding = JobFinding(job: string, rule: Rule, attempts: nat, failed: nat, succeeded: nat)

  datatype Finding =
    | NoFinding | NotApplicable | TestsUnknown | TestsUnobserved | TestsReduced | TestsNewNotRun
    | TestsFailed | TestsObserved

  /** lost, notRun and failing are the lists the detail text is made from, unsorted. */
  datatype Tests = Tests(finding: Finding, rule: Rule, lost: set<CaseId>, notRun: set<GoTest>, failing: set<CaseId>)

  datatype Result = Result(
    decision: Decision, verdict: Option<Verdict>, state: State, rule: Rule,
    candidates: seq<int>, definitionSame: bool, jobs: seq<JobFinding>, tests: Tests)

  function StateFor(v: Verdict): State {
    match v
    case NOT_GREEN | TESTS_NOT_RUN => StateNotVerified
    case FLAKY | UNVERIFIABLE => StateInconclusive
    case GREEN_UNOBSERVED => StateVerifiedUnobserved
    case GREEN => StateVerified
  }
}
