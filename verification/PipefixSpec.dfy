/** What the exit check of a pipeline fix answers, step by step (J0 to J5), with no
    loop and no clock but one comparison with the verify deadline. PipefixJudge holds
    the check as it is written and proves it gives this answer. */
module PipefixSpec {
  import opened Basics
  import opened CiDelta
  import opened PipefixFacts
  import opened Listing
  import opened Ordering

  // ---- recorded facts ----

  predicate BaseFailed(fix: FixFacts, t: Target) {
    exists b :: b in fix.baseJobs && b.name == t.Name() && b.status == Failed && !b.allowFailure
  }

  predicate TargetsSound(fix: FixFacts) {
    && fix.targets != []
    && (forall t :: t in fix.targets ==> t.Name() != "" && BaseFailed(fix, t))
    && (forall i, j :: 0 <= i < j < |fix.targets| ==> fix.targets[i].Name() != fix.targets[j].Name())
  }

  predicate BaseSound(fix: FixFacts) {
    && (forall b :: b in fix.baseJobs ==> b.status != NoStatus)
    && (forall i, j :: 0 <= i < j < |fix.baseJobs| ==> fix.baseJobs[i].name != fix.baseJobs[j].name)
  }

  predicate FixComplete(fix: FixFacts) {
    && fix.recorded
    && TargetsSound(fix) && BaseSound(fix)
    && fix.basePipelineID != 0 && fix.fixBaseSHA != "" && fix.fixCommitSHA != "" && fix.mrIID != 0
    && fix.excerptVersion != 0 && fix.signatureVersion != 0
    && !fix.ciExecChanges.UnknownExec? && fix.verifyDeadline != ZERO_TIME
  }

  predicate FactsComplete(f: JudgeFacts, now: Time) {
    && now != ZERO_TIME && FixComplete(f.fix)
    && f.mr.read && f.mr.iid == f.fix.mrIID && f.mr.sha != ""
  }

  // ---- J1: the candidate pipelines ----

  predicate WellFormedPipeline(p: Pipeline) {
    p.id != 0 && p.sha != "" && p.source != NoSource
  }

  predicate SkippedWithoutJobs(p: Pipeline) {
    p.status == Skipped && p.jobsRead && p.includeRetried && p.jobs == []
  }

  predicate MergedResultPipeline(p: Pipeline, mrIID: int) {
    p.source == MergeRequestEvent && mrIID > 0 && (p.ref == MergeRef(mrIID) || p.ref == TrainRef(mrIID))
  }

  predicate OwnPipeline(p: Pipeline, sha: string) {
    p.sha == sha && p.source != ParentPipeline
  }

  function PipelineId(p: Pipeline): int { p.id }
  function IntId(i: int): int { i }

  function Ids(ps: seq<Pipeline>): (ids: seq<int>)
    ensures |ids| == |ps| && forall i :: 0 <= i < |ps| ==> ids[i] == ps[i].id
  {
    seq(|ps|, i requires 0 <= i < |ps| => ps[i].id)
  }

  function CandidateTest(sha: string): Pipeline -> bool {
    (p: Pipeline) => OwnPipeline(p, sha) && !SkippedWithoutJobs(p)
  }
  function SkippedTest(sha: string): Pipeline -> bool {
    (p: Pipeline) => OwnPipeline(p, sha) && SkippedWithoutJobs(p)
  }
  function MergedTest(sha: string, mrIID: int): Pipeline -> bool {
    (p: Pipeline) => p.sha != sha && MergedResultPipeline(p, mrIID)
  }

  predicate WellFormedAll(ps: seq<Pipeline>) { forall p :: p in ps ==> WellFormedPipeline(p) }

  /** What J1 reads off the listing: C, the fix commit's own pipelines that ran something, by id;
      and the ids of those that ran nothing, or ran on a merged-results commit. */
  datatype Selection = Selection(
    read: bool, malformed: bool, candidates: seq<Pipeline>, skipped: seq<int>, merged: seq<int>)

  function Select(f: JudgeFacts): Selection {
    var ps, sha := f.pipelines.pipelines, f.fix.fixCommitSHA;
    if !f.pipelines.read then Selection(false, false, [], [], [])
    else Selection(true, !WellFormedAll(ps),
                   SortById(PipelineId, Filter(CandidateTest(sha), ps)),
                   SortById(IntId, Ids(Filter(SkippedTest(sha), ps))),
                   SortById(IntId, Ids(Filter(MergedTest(sha, f.fix.mrIID), ps))))
  }

  predicate SettledStatus(s: Status) { s in {Success, Failed, Canceled, Skipped} }

  predicate ActiveStatus(s: Status) {
    s in {Created, WaitingForResource, Preparing, Pending, Running, Scheduled}
  }

  predicate SettledPipeline(p: Pipeline) {
    SettledStatus(p.status) && forall a :: a in p.jobs ==> !ActiveStatus(a.status)
  }

  predicate Settled(cs: seq<Pipeline>) {
    cs != [] && forall c :: c in cs ==> SettledPipeline(c)
  }

  predicate WellFormedJob(a: Attempt) { a.id != 0 && a.name != "" && a.status != NoStatus }

  predicate JobsMalformed(cs: seq<Pipeline>) {
    exists c :: c in cs && exists a :: a in c.jobs && !WellFormedJob(a)
  }

  predicate JobsListed(c: Pipeline) { c.jobsRead && c.includeRetried }

  /** Every attempt of every candidate is known. */
  predicate AttemptsKnown(sel: Selection) {
    sel.read && forall c :: c in sel.candidates ==> JobsListed(c)
  }

  // ---- J2: the CI definition ----

  predicate DefinitionRead(d: DefinitionFacts) { d.read && KnownKind(d.delta.kind) }

  /** J2's finding over a computed delta; None when the definition holds. */
  function DefinitionFinding(d: Delta, fix: FixFacts): Option<Rule> {
    if d.kind == KindViolation || d.violations > 0 then Some(J2Violation)
    else if SideHead in d.unresolvable then Some(J2HeadUnresolvable)
    else if d.kind == KindUnresolvable || d.unresolvable != [] then Some(J2Unresolvable)
    else if d.kind != KindNone && LIFT_CI !in fix.lift then Some(J2Unlifted)
    else if d.kind == KindExecChanging && fix.ciExecChanges == Deny then Some(J2ExecDenied)
    else None
  }

  // ---- J3: the diagnosed jobs ----

  function NamedTest(name: string): Attempt -> bool { (a: Attempt) => a.name == name }

  /** A: every attempt of a job across the candidate pipelines. */
  function AttemptsOf(name: string, cs: seq<Pipeline>): seq<Attempt> {
    if cs == [] then [] else
      AttemptsOf(name, cs[..|cs| - 1]) + Filter(NamedTest(name), cs[|cs| - 1].jobs)
  }

  datatype FailureKind = SameFailure | Incomparable | Unread | NewFailure(signature: string)

  /** How one failed attempt compares with the diagnosed failure. */
  function CompareFailure(t: Target, a: Attempt, sameVersions: bool): FailureKind {
    if t.generic then SameFailure
    else if !sameVersions then Incomparable
    else if !a.trace.read then Unread
    else if FailureKey(a.stage, t.Name(), a.failureReason, a.trace.signature) == t.key || a.trace.generic
      then SameFailure
    else NewFailure(a.trace.signature)
  }

  predicate IsFailed(a: Attempt) { a.status == Failed }
  predicate IsSuccess(a: Attempt) { a.status == Success }

  predicate IsAllowed(a: Attempt) { a.allowFailure }

  function FailureTest(t: Target, sameVersions: bool, kind: FailureKind): Attempt -> bool {
    (a: Attempt) => a.status == Failed && CompareFailure(t, a, sameVersions) == kind
  }

  /** The first non-empty signature of a failure unlike the diagnosed one. */
  function FirstNewSignature(t: Target, attempts: seq<Attempt>, sameVersions: bool): string {
    if attempts == [] then "" else
      var before := FirstNewSignature(t, attempts[..|attempts| - 1], sameVersions);
      var a := attempts[|attempts| - 1];
      if before != "" || a.status != Failed then before
      else match CompareFailure(t, a, sameVersions)
        case NewFailure(signature) => signature
        case _ => before
  }

  function JobRule(attempts: nat, failed: nat, succeeded: nat,
                   weakened: bool, same: bool, unknown: bool, incomparable: bool, complete: bool): Rule {
    if weakened then J3Weakened
    else if !complete then J3Unread
    else if attempts == 0 then J3Absent
    else if failed > 0 then
      if incomparable then J3Versions
      else if unknown then J3Unknown
      else if same && succeeded > 0 then J3FlakySame
      else if same then J3Recurs
      else if succeeded > 0 then J3FlakyChanged
      else J3Changed
    else if succeeded == attempts then J3Passed
    else J3Status
  }

  function FindingOf(t: Target, attempts: seq<Attempt>, complete: bool, sameVersions: bool): JobFinding {
    var failed := Count(IsFailed, attempts);
    var succeeded := Count(IsSuccess, attempts);
    var rule := JobRule(|attempts|, failed, succeeded,
                        Any(IsAllowed, attempts),
                        Any(FailureTest(t, sameVersions, SameFailure), attempts),
                        Any(FailureTest(t, sameVersions, Unread), attempts),
                        Any(FailureTest(t, sameVersions, Incomparable), attempts),
                        complete);
    JobFinding(t.Name(), rule, |attempts|, failed, succeeded,
               if rule == J3Changed || rule == J3FlakyChanged
               then FirstNewSignature(t, attempts, sameVersions) else "")
  }

  predicate SameVersions(fix: FixFacts) {
    fix.signatureVersion == SIGNATURE_VERSION && fix.excerptVersion == EXCERPT_VERSION
  }

  /** J3's findings for the targets, before an unread trace is given up on. */
  function FindingsOf(ts: seq<Target>, cs: seq<Pipeline>, complete: bool, sameVersions: bool): (js: seq<JobFinding>)
    ensures |js| == |ts|
  {
    if ts == [] then [] else
      var t := ts[|ts| - 1];
      FindingsOf(ts[..|ts| - 1], cs, complete, sameVersions)
      + [FindingOf(t, AttemptsOf(t.Name(), cs), complete, sameVersions)]
  }

  function RawJobs(fix: FixFacts, sel: Selection): seq<JobFinding> {
    FindingsOf(fix.targets, sel.candidates, AttemptsKnown(sel), SameVersions(fix))
  }

  function GiveUp(j: JobFinding): JobFinding {
    if j.rule == J3Unknown then j.(rule := J3Unread) else j
  }

  function GiveUpAll(js: seq<JobFinding>): (r: seq<JobFinding>)
    ensures |r| == |js| && forall i :: 0 <= i < |js| ==> r[i] == GiveUp(js[i])
  {
    seq(|js|, i requires 0 <= i < |js| => GiveUp(js[i]))
  }

  function JobFindings(fix: FixFacts, sel: Selection): seq<JobFinding> { GiveUpAll(RawJobs(fix, sel)) }

  predicate IsUnknown(j: JobFinding) { j.rule == J3Unknown }

  predicate TraceUnread(fix: FixFacts, sel: Selection) { Any(IsUnknown, RawJobs(fix, sel)) }

  /** A fact of judge time that another look may still read. */
  predicate FactUnread(d: DefinitionFacts, sel: Selection) {
    !AttemptsKnown(sel) || !DefinitionRead(d)
  }

  // ---- J4: every other job ----

  predicate Diagnosed(fix: FixFacts, name: string) {
    exists t :: t in fix.targets && t.Name() == name
  }

  /** A job's latest attempt in one pipeline: the first listed of those with the highest id. */
  function Latest(jobs: seq<Attempt>, name: string): Option<Attempt> {
    if jobs == [] then None else
      var before := Latest(jobs[..|jobs| - 1], name);
      var a := jobs[|jobs| - 1];
      if a.name == name && (before.None? || a.id > before.value.id) then Some(a) else before
  }

  predicate LatestFails(c: Pipeline, name: string) {
    Latest(c.jobs, name).Some? && Latest(c.jobs, name).value.status == Failed
  }

  predicate LatestFailsRequired(c: Pipeline, name: string) {
    LatestFails(c, name) && !Latest(c.jobs, name).value.allowFailure
  }

  /** The id of the first pipeline the job fails in; 0 when there is none. */
  function FirstFailing(cs: seq<Pipeline>, name: string): int {
    if cs == [] then 0 else
      var before := FirstFailing(cs[..|cs| - 1], name);
      if before == 0 && LatestFails(cs[|cs| - 1], name) then cs[|cs| - 1].id else before
  }

  function FirstRequired(cs: seq<Pipeline>, name: string): int {
    if cs == [] then 0 else
      var before := FirstRequired(cs[..|cs| - 1], name);
      if before == 0 && LatestFailsRequired(cs[|cs| - 1], name) then cs[|cs| - 1].id else before
  }

  function BaseOf(base: seq<BaseJob>, name: string): Option<BaseJob> {
    if base == [] then None
    else if base[|base| - 1].name == name then Some(base[|base| - 1])
    else BaseOf(base[..|base| - 1], name)
  }

  ghost function FailingNames(fix: FixFacts, cs: seq<Pipeline>): set<string> {
    set c, a | c in cs && a in c.jobs && !Diagnosed(fix, a.name) && LatestFails(c, a.name) :: a.name
  }

  function OtherOf(base: seq<BaseJob>, cs: seq<Pipeline>, name: string): OtherFinding {
    var b := BaseOf(base, name);
    var required := FirstRequired(cs, name);
    var status := if b.Some? then b.value.status else NoStatus;
    if b.Some? && status == Success && required != 0 then OtherFinding(name, J4Regressed, required, status)
    else OtherFinding(name,
                      if b.Some? && status == Success then J4RegressedAllowed
                      else if b.Some? && status == Failed then J4Remaining else J4Revealed,
                      FirstFailing(cs, name), status)
  }

  function OthersFor(base: seq<BaseJob>, cs: seq<Pipeline>, names: seq<string>): (out: seq<OtherFinding>)
    ensures |out| == |names|
  {
    seq(|names|, i requires 0 <= i < |names| => OtherOf(base, cs, names[i]))
  }

  ghost function OtherFindings(fix: FixFacts, cs: seq<Pipeline>): seq<OtherFinding> {
    OthersFor(fix.baseJobs, cs, SortNames(FailingNames(fix, cs)))
  }

  // ---- J5: the verdict ladder ----

  function FirstRule<T>(rule: T -> Rule, wanted: set<Rule>, s: seq<T>): Option<Rule> {
    if s == [] then None
    else if rule(s[0]) in wanted then Some(rule(s[0]))
    else FirstRule(rule, wanted, s[1..])
  }

  function RuleOfJob(j: JobFinding): Rule { j.rule }
  function RuleOfOther(o: OtherFinding): Rule { o.rule }

  const OBSERVED: set<Rule> := {J3Passed, J3Changed}

  function FirstUnobserved(js: seq<JobFinding>): Option<Rule> {
    if js == [] then None
    else if js[0].rule !in OBSERVED then Some(js[0].rule)
    else FirstUnobserved(js[1..])
  }

  function SettleCauses(sel: Selection): seq<Rule> {
    if !sel.read then [J1Unread]
    else if Settled(sel.candidates) then []
    else if sel.candidates == [] && sel.merged != [] then [J1MergedResult]
    else [J1Timeout]
  }

  function DefinitionCauses(fix: FixFacts, d: DefinitionFacts): seq<Rule> {
    if !DefinitionRead(d) then [J2Unread]
    else if DefinitionFinding(d.delta, fix) == Some(J2Unresolvable) then [J2Unresolvable]
    else []
  }

  /** What J1 and J2 could not establish, in step order. */
  function Causes(fix: FixFacts, d: DefinitionFacts, sel: Selection): seq<Rule> {
    SettleCauses(sel) + DefinitionCauses(fix, d)
  }

  function Forgery(fix: FixFacts, d: DefinitionFacts): Option<Rule> {
    if !DefinitionRead(d) || DefinitionFinding(d.delta, fix) == Some(J2Unresolvable) then None
    else DefinitionFinding(d.delta, fix)
  }

  function Ladder(forged: Option<Rule>, causes: seq<Rule>, jobs: seq<JobFinding>,
                  others: seq<OtherFinding>, cs: seq<Pipeline>): (Verdict, Rule) {
    var weakened := FirstRule(RuleOfJob, {J3Weakened}, jobs);
    var recurs := FirstRule(RuleOfJob, {J3Recurs}, jobs);
    var flaky := FirstRule(RuleOfJob, {J3FlakySame, J3FlakyChanged}, jobs);
    var unobserved := FirstUnobserved(jobs);
    var regressed := FirstRule(RuleOfOther, {J4Regressed}, others);
    var changed := FirstRule(RuleOfJob, {J3Changed}, jobs);
    var left := FirstRule(RuleOfOther, {J4Remaining, J4Revealed, J4RegressedAllowed}, others);
    if forged.Some? then (FORGED, forged.value)
    else if weakened.Some? then (FORGED, weakened.value)
    else if recurs.Some? then (NOT_FIXED, recurs.value)
    else if flaky.Some? then (FLAKY, flaky.value)
    else if causes != [] then (UNVERIFIABLE, causes[0])
    else if unobserved.Some? then (UNVERIFIABLE, unobserved.value)
    else if regressed.Some? then (REGRESSED, regressed.value)
    else if changed.Some? then (FIXED_NEW_FAILURE, changed.value)
    else if left.Some? then (FIXED_NEW_FAILURE, left.value)
    else if exists c :: c in cs && c.status != Success then (UNVERIFIABLE, J5NotSuccess)
    else (FIXED, J5Fixed)
  }

  function DefinitionHeld(fix: FixFacts, d: DefinitionFacts): Option<Kind> {
    if DefinitionRead(d) && DefinitionFinding(d.delta, fix).None? then Some(d.delta.kind) else None
  }

  // ---- the answer ----

  function Blank(): Result {
    Result(DecisionCannotJudge, None, NoState, RuleFacts, [], [], [], None, [], [])
  }

  function Stopped(s: State, r: Rule): Result {
    Blank().(decision := DecisionStopped, state := s, rule := r)
  }

  function Waiting(sel: Selection): Result {
    Blank().(decision := DecisionWait, state := StateVerifying, rule := J1Wait,
             candidates := Ids(sel.candidates), skipped := sel.skipped, mergedResult := sel.merged)
  }

  function CannotJudge(sel: Selection, r: Rule, jobs: seq<JobFinding>): Result {
    Blank().(rule := r, candidates := Ids(sel.candidates), skipped := sel.skipped, mergedResult := sel.merged,
             jobs := jobs)
  }

  /** The verdict on everything that was read; the clock is not an argument. */
  ghost function Decided(fix: FixFacts, d: DefinitionFacts, sel: Selection): Result {
    var others := OtherFindings(fix, sel.candidates);
    var (verdict, rule) := Ladder(Forgery(fix, d), Causes(fix, d, sel), JobFindings(fix, sel), others, sel.candidates);
    Result(DecisionVerdict, Some(verdict), StateFor(verdict), rule, Ids(sel.candidates), sel.skipped, sel.merged,
           DefinitionHeld(fix, d), JobFindings(fix, sel), others)
  }

  ghost function AttemptsAnswer(fix: FixFacts, d: DefinitionFacts, sel: Selection, past: bool): Result {
    if JobsMalformed(sel.candidates) then CannotJudge(sel, RuleFacts, [])
    else if !past && FactUnread(d, sel) then CannotJudge(sel, RuleFacts, RawJobs(fix, sel))
    else if !past && TraceUnread(fix, sel) then CannotJudge(sel, J3Unknown, RawJobs(fix, sel))
    else Decided(fix, d, sel)
  }

  /** The answer once the merge request is known to be gonk's own and open. */
  ghost function OpenAnswer(fix: FixFacts, d: DefinitionFacts, sel: Selection, past: bool): Result {
    if sel.malformed then Blank()
    else if !past && sel.read && !Settled(sel.candidates) then Waiting(sel)
    else AttemptsAnswer(fix, d, sel, past)
  }

  predicate Past(f: JudgeFacts, now: Time) { now >= f.fix.verifyDeadline }

  /** J0, and the facts nothing can be said without. */
  function Identity(f: JudgeFacts, now: Time): (r: Option<Result>)
    ensures r.Some? ==> r.value.decision in {DecisionCannotJudge, DecisionStopped} && r.value.verdict.None?
  {
    if !FactsComplete(f, now) then Some(Blank())
    else match f.mr.state
      case Merged => Some(Stopped(StateMerged, J0Merged))
      case Closed => Some(Stopped(StateClosedUnmerged, J0Closed))
      case OtherMRState(_) => Some(Blank())
      case Opened => if f.mr.sha != f.fix.fixCommitSHA then Some(Stopped(StateTakenOver, J0TakenOver)) else None
  }

  ghost function Answer(f: JudgeFacts, now: Time): Result {
    match Identity(f, now)
    case Some(r) => r
    case None => OpenAnswer(f.fix, f.definition, Select(f), Past(f, now))
  }
}
