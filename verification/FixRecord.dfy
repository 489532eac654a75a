/** The work-store record of a pipeline fix: what it says about the fix, and for how long
    an order fired from it may still be starting a dispatch. */
module FixRecord {
  import opened Basics

  const SECOND := 1_000_000_000

  /** How long after its stamp a re-slung dispatch may still start. */
  const FIRE_ALLOWANCE := 240 * SECOND
  const DISPATCH_TIMEOUT := 300 * SECOND
  const KILL_GRACE := 2 * SECOND
  /** How far two readings of the controller's clock may disagree. */
  const CLOCK_MARGIN := 5 * SECOND

  const JUDGE_EVERY := 120 * SECOND
  const JUDGE_GRACE := 1800 * SECOND

  datatype WorkState = NoWorkState | Running | PendingPrompt | Parked | NeedsHuman | Done | OtherWorkState(text: string)

  datatype FixState =
    | NoFixState
    | Proposing | NeedsScope | AwaitingRun | Verifying
    | Fixed | FixedNewFailure | NotFixed | Flaky | Unverifiable | Regressed | Denied
    | TakenOver | ClosedUnmerged | Merged | Confirmed | Recurred
    | UnknownFixState(text: string)

  /** revision is the store's; 0 stands for a record no store has written.
      runningDeadline is the deadline of the record's meter reservation. */
  datatype Record = Record(
    revision: nat, state: WorkState, fixState: FixState, session: bool, attempt: int, maxAttempts: int,
    basePipeline: int, reslungAt: Time, fireBy: Time, judgedAt: Time, verifyDeadline: Time,
    runningDeadline: Time, outcomeAttempt: int)

  function FireBy(stamp: Time): Time { stamp + FIRE_ALLOWANCE }

  /** When the last dispatch that met this deadline has been killed. */
  function EndOf(fireBy: Time): Time { fireBy + DISPATCH_TIMEOUT + KILL_GRACE + CLOCK_MARGIN }

  /** When a re-slung record may be judged again; None for a record with no stamp. */
  function WindowEnd(r: Record): Option<Time> {
    if r.fireBy != ZERO_TIME then Some(EndOf(r.fireBy))
    else if r.reslungAt != ZERO_TIME then Some(EndOf(FireBy(r.reslungAt)))
    else None
  }

  predicate WindowOpen(r: Record, now: Time) { WindowEnd(r).Some? && now < WindowEnd(r).value }

  /** What a look is told about a stored fix. */
  datatype FixLook = FixLook(state: FixState, stale: bool, known: bool)

  function FixStateOf(r: Record, now: Time): FixLook {
    if r.fixState != NoFixState then FixLook(r.fixState, false, !r.fixState.UnknownFixState?)
    else match r.state
      case Running | PendingPrompt | Parked => FixLook(Proposing, false, true)
      case NeedsHuman => FixLook(Denied, false, true)
      case NoWorkState =>
        if WindowOpen(r, now) then FixLook(Proposing, false, true) else FixLook(NoFixState, true, true)
      case _ => FixLook(NoFixState, false, false)
  }

  /** Row E9 of the dispatch table, for the fix record: no fix of this run is under way or over.
      A record that cannot be read says nothing, so nothing is dispatched. */
  predicate MayDispatch(seen: Option<Record>, now: Time) {
    seen.None? || (FixStateOf(seen.value, now).known && FixStateOf(seen.value, now).state == NoFixState)
  }

  predicate OpenFix(r: Record) { r.fixState in {AwaitingRun, Verifying} }

  /** When the exit check stops waiting for a verdict. */
  function VerifyBound(r: Record): Time {
    (if r.verifyDeadline == ZERO_TIME then r.runningDeadline else r.verifyDeadline) + JUDGE_GRACE
  }

  /** A look may dispatch over a stored record exactly when the record carries no fix state and no
      work state, and no dispatch its order fired can be alive. */
  lemma DispatchOverExactly(r: Record, now: Time)
    ensures MayDispatch(Some(r), now) <==> FixStateOf(r, now).stale
    ensures FixStateOf(r, now).stale <==> r.fixState == NoFixState && r.state == NoWorkState && !WindowOpen(r, now)
  {}
}
