/** The CI definition delta both exit judges read (pkg/cidef), as they read it:
    its kind, and which lists are non-empty. */
module CiDelta {
  datatype Kind =
    | KindNone | KindPreserving | KindExecChanging | KindViolation | KindUnresolvable
    | UnknownKind(text: string)   // the zero Kind included

  datatype Side = SideBase | SideHead | SideBoth

  /** violations and changes count the listed entries; changes adds up jobs,
      removed, added, renamed and globals. */
  datatype Delta = Delta(kind: Kind, violations: nat, unresolvable: seq<Side>, changes: nat)

  predicate KnownKind(k: Kind) { !k.UnknownKind? }
}

/** The facts and answers of the pipeline-fix exit check (pkg/pipefix). */
module PipefixFacts {
  import opened Basics
  import opened CiDelta

  /** The one path class a dispatch can lift. */
  const LIFT_CI := "ci"

  const SIGNATURE_VERSION := 1
  const EXCERPT_VERSION := 2

  /** A GitLab pipeline or job status; NoStatus is the empty string. */
  datatype Status =
    | NoStatus
    | Success | Failed | Canceled | Skipped
    | Created | WaitingForResource | Preparing | Pending | Running | Scheduled
    | OtherStatus(text: string)

  datatype Source = NoSource | ParentPipeline | MergeRequestEvent | OtherSource(text: string)

  /** A pipeline's ref: a merge request's merged-results or merge-train ref, or any other text. */
  datatype Ref = MergeRef(iid: int) | TrainRef(iid: int) | OtherRef(text: string)

  /** A failed attempt's log as far as Judge looks at it: its first error line's
      signature, and whether that line is one of the runner's generic summaries. */
  datatype Trace = Trace(read: bool, signature: string, generic: bool)

  datatype Attempt = Attempt(
    id: int, name: string, stage: string, status: Status, failureReason: string,
    allowFailure: bool, trace: Trace)

  datatype Pipeline = Pipeline(
    id: int, sha: string, source: Source, ref: Ref, status: Status,
    jobsRead: bool, includeRetried: bool, jobs: seq<Attempt>)

  datatype FailureKey = FailureKey(stage: string, name: string, failureReason: string, signature: string)

  datatype Target = Target(key: FailureKey, generic: bool) {
    function Name(): string { key.name }
  }

  datatype BaseJob = BaseJob(name: string, status: Status, allowFailure: bool)

  datatype ExecChanges = Deny | ManualRun | Auto | UnknownExec(text: string)

  datatype FixFacts = FixFacts(
    recorded: bool, targets: seq<Target>, basePipelineID: int, baseJobs: seq<BaseJob>,
    fixBaseSHA: string, fixCommitSHA: string, mrIID: int, excerptVersion: int, signatureVersion: int,
    lift: seq<string>, ciExecChanges: ExecChanges, verifyDeadline: Time)

  datatype MRState = Opened | Closed | Merged | OtherMRState(text: string)

  datatype MRFacts = MRFacts(read: bool, iid: int, state: MRState, sha: string)

  datatype PipelineFacts = PipelineFacts(read: bool, pipelines: seq<Pipeline>)

  datatype DefinitionFacts = DefinitionFacts(read: bool, delta: Delta)

  datatype JudgeFacts = JudgeFacts(
    fix: FixFacts, mr: MRFacts, pipelines: PipelineFacts, definition: DefinitionFacts)

  datatype Decision = DecisionVerdict | DecisionWait | DecisionCannotJudge | DecisionStopped

  datatype Verdict = FORGED | NOT_FIXED | FLAKY | UNVERIFIABLE | REGRESSED | FIXED_NEW_FAILURE | FIXED

  datatype State =
    | NoState | StateVerifying | StateFixed | StateFixedNewFailure | StateNotFixed | StateFlaky
    | StateUnverifiable | StateRegressed | StateTakenOver | StateClosedUnmerged | StateMerged

  datatype Rule =
    | RuleFacts
    | J0Closed | J0Merged | J0TakenOver
    | J1Wait | J1Timeout | J1Unread | J1MergedResult
    | J2Violation | J2HeadUnresolvable | J2Unlifted | J2ExecDenied | J2Unresolvable | J2Unread
    | J3Absent | J3Weakened | J3Unknown | J3FlakySame | J3Recurs | J3FlakyChanged | J3Changed
    | J3Passed | J3Status | J3Unread | J3Versions
    | J4Regressed | J4RegressedAllowed | J4Remaining | J4Revealed
    | J5NotSuccess | J5Fixed

  datatype JobFinding = JobFinding(
    job: string, rule: Rule, attempts: nat, failed: nat, succeeded: nat, newSignature: string)

  datatype OtherFinding = OtherFinding(job: string, rule: Rule, pipelineID: int, baseStatus: Status)

  datatype Result = Result(
    decision: Decision, verdict: Option<Verdict>, state: State, rule: Rule,
    candidates: seq<int>, skipped: seq<int>, mergedResult: seq<int>,
    definition: Option<Kind>, jobs: seq<JobFinding>, others: seq<OtherFinding>)

  function StateFor(v: Verdict): State {
    match v
    case FORGED | NOT_FIXED => StateNotFixed
    case FLAKY => StateFlaky
    case UNVERIFIABLE => StateUnverifiable
    case REGRESSED => StateRegressed
    case FIXED_NEW_FAILURE => StateFixedNewFailure
    case FIXED => StateFixed
  }
}
