/** One pipeline fix, as concurrent passes of the controller act on it: sweep looks that dispatch
    it, exit checks that settle it, re-slings of failed sessions, unparks, the dispatch processes
    their orders start, and the jobs that are their sessions. Every step is one store write, one
    order, one report, one act on a job or one clock reading; any interleaving of any number of
    passes is a run. */
module FixProtocol {
  import opened Basics
  import opened FixRecord

  // ---- the world ----

  datatype Pass = Look | Check | Retry | Unpark

  /** A landed write. now is the instant its writer stamped it with; pass is None for a writer
      that fires nothing. */
  datatype Write = Write(pass: Option<Pass>, actor: nat, record: Record, now: Time)

  /** A fired gonk-dispatch order: what its vars say. revision is the write it was fired after
      (the record it was fired from, for an unpark); judged the attempt that write settled. */
  datatype Order = Order(pass: Pass, actor: nat, revision: nat, fireBy: Time, basePipeline: int)

  /** What a dispatch may have to undo: nothing; its own reservation write, and the record that
      replaced; or, where the write's reply was an error, what it would have written and replaced. at is
      where that write landed, 0 if it did not: the dispatch cannot know, and nothing it does reads it. */
  datatype Reservation =
    | NotReserved
    | ReservedAt(revision: nat, release: Record)
    | Claimed(claim: Record, release: Record, at: nat)

  /** How far a dispatch process is: before its reservation; past it, for the attempt meter named; its
      session admitted, and made by it or found; giving up, with a session of its own to stop or without;
      the running record written; gone. */
  datatype Stage =
    | Deciding
    | Cleared(attempt: int, reservation: Reservation)
    | Admitted(attempt: int, reservation: Reservation, created: bool)
    | Failing(attempt: int, reservation: Reservation, created: bool)
    | Recorded
    | Returned

  /** A dispatch process an order started, and when it is dead at the latest. seen is the fix
      record it read before anything else. */
  datatype Process = Process(order: nat, startedAt: Time, killAt: Time, seen: Option<Record>, stage: Stage)

  /** A session's name: the pipeline the fix was decided against, and the attempt. */
  datatype Session = Session(basePipeline: int, attempt: int)

  /** A session's job in the runtime: when it was made, when it ended, and whether it is being deleted. */
  datatype Job = Job(since: Time, ended: Option<Time>, stopping: bool)

  /** Why a sweep is through with a session: meter has its outcome, its merge request is open, or its
      image refused it. */
  datatype Cause = Judged | Opened | Refused

  /** A session a pass has yet to close, named by the running record at revision read. */
  datatype Duty = Duty(session: Session, read: nat, cause: Cause)

  /** Who had a job deleted: the dispatch that made it, having failed to record it; a sweep that was
      through with it; a sweep that read a record (0 for none) that does not name it; or the start that
      made it, and could not mount its secret. */
  datatype Stopper =
    | Creator(process: nat)
    | Closer(actor: nat, duty: Duty)
    | Reaper(actor: nat, read: nat)
    | Starter(process: nat)

  /** What happened that a person, the meter or the session runtime could see, in order. A start says
      which write was its reservation, 0 for none. */
  datatype Event =
    | Shown(actor: nat, attempt: int)
    | BoundPassed(actor: nat, attempt: int, bound: Time, now: Time)
    | Reported(actor: nat, attempt: int)
    | Wrote(actor: nat, revision: nat)
    | Fired(order: nat)
    | JobCreated(process: nat, session: Session)
    | SessionStarted(process: nat, session: Session, created: bool, reservation: nat)
    | RunningFailed(process: nat)
    | JobStopped(session: Session, stopper: Stopper)
    | JobDeleted(session: Session)
    | JobExpired(session: Session)

  /** What an exit check's answer means for the record. */
  datatype Ruling = Settled(state: FixState) | NoVerdict(started: bool)

  /** What a finished session comes to: nothing more to do, with the state the apply left the fix in; a
      merge request for the exit check; or a refusal by an image of another version, to be tried again. */
  datatype Ending =
    | Finished(state: FixState)
    | MergeRequestOpen(state: FixState, deadline: Time)
    | Skewed

  datatype Phase =
    | LookStarted(now: Time)
    | LookDecided(now: Time, before: Option<Record>, record: Record)
    | Listed(pass: Pass, seen: Record)
    | CheckRuled(now: Time, seen: Record, state: FixState, retry: bool)
    | CheckShown(now: Time, seen: Record, state: FixState, retry: bool)
    | CheckReported(now: Time, seen: Record, state: FixState, retry: bool)
    | CheckWaiting(now: Time, seen: Record, started: bool)
    | RetryReported(now: Time, seen: Record)
    | Concluding(now: Time, seen: Record, ending: Ending)
    | Reaping(read: nat)
    | Won(pass: Pass, revision: nat)
    | Ended

  /** The jobs the session runtime holds, by name, and the sessions passes have yet to close. */
  datatype Runtime = Runtime(jobs: map<Session, Job>, closing: map<nat, Duty>)

  /** The store is the list of its landed writes: a write's revision is its place, from 1. */
  datatype World = World(
    clock: Time, writes: seq<Write>, actors: map<nat, Phase>, orders: seq<Order>,
    processes: seq<Process>, log: seq<Event>, runtime: Runtime)

  function Start(clock: Time): World { World(clock, [], map[], [], [], [], Runtime(map[], map[])) }

  function Current(w: World): Option<Record> {
    if w.writes == [] then None else Some(w.writes[|w.writes| - 1].record)
  }

  // ---- the store ----

  /** How a conditional write whose precondition holds ends: as told, or with an error that says
      nothing about whether it landed. */
  datatype Reply = Acknowledged | LostError | LandedError

  predicate Lands(w: World, ifRevision: nat, reply: Reply) { |w.writes| == ifRevision && reply != LostError }

  predicate Wins(w: World, ifRevision: nat, reply: Reply) { |w.writes| == ifRevision && reply == Acknowledged }

  function Landed(w: World, pass: Option<Pass>, a: nat, r: Record, now: Time): World {
    var n := |w.writes| + 1;
    w.(writes := w.writes + [Write(pass, a, r.(revision := n), now)], log := w.log + [Wrote(a, n)])
  }

  /** Store.PutIf: the write, if the record is still the one the writer read. */
  function PutIf(w: World, pass: Option<Pass>, a: nat, r: Record, ifRevision: nat, reply: Reply, now: Time): World {
    if Lands(w, ifRevision, reply) then Landed(w, pass, a, r, now) else w
  }

  function Move(w: World, a: nat, p: Phase): World { w.(actors := w.actors[a := p]) }

  function After(won: bool, pass: Pass, revision: nat): Phase { if won then Won(pass, revision) else Ended }

  // ---- a look ----

  /** The record of a fix this look decided to dispatch. */
  function FreshRecord(basePipeline: int, maxAttempts: int, now: Time): Record {
    Record(0, NoWorkState, NoFixState, false, 0, maxAttempts, basePipeline, now, FireBy(now),
           ZERO_TIME, ZERO_TIME, ZERO_TIME, 0)
  }

  function LookStart(w: World, a: nat): World {
    if a in w.actors then w else Move(w, a, LookStarted(w.clock))
  }

  /** The record is read and the dispatch table evaluated; eligible is every row but E9's record. */
  function LookRead(w: World, a: nat, eligible: bool, basePipeline: int, maxAttempts: int): World {
    if a !in w.actors || !w.actors[a].LookStarted? then w else
      var now := w.actors[a].now;
      Move(w, a, if eligible && MayDispatch(Current(w), now)
                 then LookDecided(now, Current(w), FreshRecord(basePipeline, maxAttempts, now)) else Ended)
  }

  /** Create-only, or over exactly the stale record this look read. */
  function ExpectedRevision(seen: Option<Record>): nat { if seen.None? then 0 else seen.value.revision }

  function LookPut(w: World, a: nat, reply: Reply): World {
    if a !in w.actors || !w.actors[a].LookDecided? then w else
      var d := w.actors[a];
      var expected := ExpectedRevision(d.before);
      Move(PutIf(w, Some(Look), a, d.record, expected, reply, d.now), a,
           After(Wins(w, expected, reply), Look, expected + 1))
  }

  // ---- an exit check, and the re-sling of a failed session ----

  /** The sweep lists the running records, and looks at each later. */
  function List(w: World, a: nat, pass: Pass): World {
    if a in w.actors || Current(w).None? || pass == Look then w
    else if pass == Unpark && Current(w).value.state != Parked then w
    else if pass != Unpark && Current(w).value.state != Running then w
    else Move(w, a, Listed(pass, Current(w).value))
  }

  predicate Throttled(r: Record, now: Time) { r.judgedAt != ZERO_TIME && now - r.judgedAt < JUDGE_EVERY }

  /** Whether a further attempt may follow a not-fixed verdict. */
  predicate MayRetry(r: Record, runStands: bool) { !(r.maxAttempts > 0 && r.attempt >= r.maxAttempts) && runStands }

  function CheckJudge(w: World, a: nat, ruling: Ruling, runStands: bool): World {
    if a !in w.actors || !w.actors[a].Listed? || w.actors[a].pass != Check then w else
      var r, now := w.actors[a].seen, w.clock;
      if !OpenFix(r) || Throttled(r, now) then Move(w, a, Ended)
      else match ruling
        case Settled(s) => Move(w, a, CheckRuled(now, r, s, s == NotFixed && MayRetry(r, runStands)))
        case NoVerdict(started) =>
          if now >= VerifyBound(r) then Move(w, a, CheckRuled(now, r, Unverifiable, false))
          else Move(w, a, CheckWaiting(now, r, started))
  }

  function Attempt(r: Record): int { if r.attempt < 1 then 1 else r.attempt }

  /** GitLab first: a verdict that cannot be shown is not reported, until the bound. */
  function CheckShow(w: World, a: nat, ok: bool): World {
    if a !in w.actors || !w.actors[a].CheckRuled? then w else
      var c := w.actors[a];
      if !ok && c.now < VerifyBound(c.seen) then Move(w, a, Ended)
      else
        var e := if ok then Shown(a, Attempt(c.seen)) else BoundPassed(a, Attempt(c.seen), VerifyBound(c.seen), c.now);
        Move(w, a, CheckShown(c.now, c.seen, c.state, c.retry)).(log := w.log + [e])
  }

  /** The states a settlement reports an outcome for. */
  const OUTCOME_STATES := {NeedsScope, Fixed, FixedNewFailure, NotFixed, Flaky, Unverifiable, Regressed, TakenOver,
                           ClosedUnmerged, Merged}

  /** Then the meter: an outcome it did not accept settles nothing. */
  function CheckReport(w: World, a: nat, ok: bool): World {
    if a !in w.actors || !w.actors[a].CheckShown? then w else
      var c := w.actors[a];
      if !ok || c.state !in OUTCOME_STATES then Move(w, a, Ended)
      else Move(w, a, CheckReported(c.now, c.seen, c.state, c.retry)).(log := w.log + [Reported(a, Attempt(c.seen))])
  }

  /** The record a settlement writes. */
  function SettledRecord(r: Record, state: FixState, retry: bool, judgedAt: Time, clock: Time): Record {
    var s := r.(outcomeAttempt := Attempt(r), judgedAt := judgedAt);
    if retry then s.(fixState := NoFixState, judgedAt := ZERO_TIME, reslungAt := clock, fireBy := FireBy(clock))
    else if state == NotFixed then s.(fixState := Denied, state := NeedsHuman)
    else s.(fixState := state, state := Done)
  }

  /** Then the record. Only a re-sling's write is followed by an order. */
  function CheckPut(w: World, a: nat, reply: Reply): World {
    if a !in w.actors || !w.actors[a].CheckReported? then w else
      var c := w.actors[a];
      var s, rev := SettledRecord(c.seen, c.state, c.retry, c.now, w.clock), c.seen.revision;
      Move(PutIf(w, if c.retry then Some(Check) else None, a, s, rev, reply, w.clock), a,
           After(c.retry && Wins(w, rev, reply), Check, rev + 1))
  }

  /** A look with no verdict leaves its stamp; a pipeline that runs something starts the waiting. */
  function CheckWait(w: World, a: nat, reply: Reply): World {
    if a !in w.actors || !w.actors[a].CheckWaiting? then w else
      var c := w.actors[a];
      var s := c.seen.(judgedAt := c.now,
                       fixState := if c.seen.fixState == AwaitingRun && c.started then Verifying else c.seen.fixState);
      Move(PutIf(w, None, a, s, c.seen.revision, reply, c.now), a, Ended)
  }

  /** A session that failed is judged outside its record's window; accepted says meter took the
      outcome and named a next attempt. */
  function RetryJudge(w: World, a: nat, accepted: bool): World {
    if a !in w.actors || !w.actors[a].Listed? || w.actors[a].pass != Retry then w else
      var r, now := w.actors[a].seen, w.clock;
      if r.fixState != NoFixState || WindowOpen(r, now) || !accepted then Move(w, a, Ended)
      else Move(w, a, RetryReported(now, r)).(log := w.log + [Reported(a, Attempt(r))])
  }

  function RetryPut(w: World, a: nat, reply: Reply): World {
    if a !in w.actors || !w.actors[a].RetryReported? then w else
      var r := w.actors[a].seen;
      var s := r.(reslungAt := w.clock, fireBy := FireBy(w.clock));
      Owe(Move(PutIf(w, Some(Retry), a, s, r.revision, reply, w.clock), a,
               After(Wins(w, r.revision, reply), Retry, r.revision + 1)), a, r, Judged)
  }

  // ---- the end of a session ----

  function SessionOf(r: Record): Session { Session(r.basePipeline, r.attempt) }

  /** The pass is to close the session its record names, if it names one. */
  function Owe(w: World, a: nat, seen: Record, cause: Cause): World {
    if !seen.session then w
    else w.(runtime := w.runtime.(closing := w.runtime.closing[a := Duty(SessionOf(seen), seen.revision, cause)]))
  }

  const OPEN_STATES := {Verifying, AwaitingRun}
  const FINAL_STATES := {NoFixState, NeedsScope, TakenOver, ClosedUnmerged, Merged}

  predicate MayEnd(seen: Record, ending: Ending) {
    match ending
    case Finished(s) => s in FINAL_STATES
    case MergeRequestOpen(s, _) => s in OPEN_STATES && seen.session
    case Skewed => seen.session
  }

  /** A finished session, judged outside its record's window. Only an outcome is reported, and only one
      that meter accepts is written. */
  function Conclude(w: World, a: nat, ending: Ending, accepted: bool): World {
    if a !in w.actors || !w.actors[a].Listed? || w.actors[a].pass != Retry then w else
      var r, now := w.actors[a].seen, w.clock;
      if r.fixState != NoFixState || WindowOpen(r, now) || !MayEnd(r, ending) || (ending.Finished? && !accepted)
      then Move(w, a, Ended)
      else if ending.Finished? then
        Move(w, a, Concluding(now, r, ending)).(log := w.log + [Reported(a, Attempt(r))])
      else Move(w, a, Concluding(now, r, ending))
  }

  /** The record parked to run the same attempt again: no session on it, and no stamps. */
  function ParkedForRetry(r: Record): Record {
    r.(state := Parked, session := false, reslungAt := ZERO_TIME, fireBy := ZERO_TIME)
  }

  function ConcludedRecord(r: Record, ending: Ending): Record {
    match ending
    case Finished(s) => r.(state := Done, fixState := s)
    case MergeRequestOpen(s, t) => r.(fixState := s, verifyDeadline := t)
    case Skewed => ParkedForRetry(r)
  }

  function CauseOf(ending: Ending): Cause {
    match ending
    case Finished(_) => Judged
    case MergeRequestOpen(_, _) => Opened
    case Skewed => Refused
  }

  /** Whether the session is closed next: after an outcome whatever became of the write, with a merge
      request unless the write failed, and a refused one only once the record is known to be parked. */
  predicate ClosesAfter(w: World, rev: nat, ending: Ending, reply: Reply) {
    match ending
    case Finished(_) => true
    case MergeRequestOpen(_, _) => |w.writes| != rev || reply == Acknowledged
    case Skewed => Wins(w, rev, reply)
  }

  function ConcludePut(w: World, a: nat, reply: Reply): World {
    if a !in w.actors || !w.actors[a].Concluding? then w else
      var c := w.actors[a];
      var x := Move(PutIf(w, None, a, ConcludedRecord(c.seen, c.ending), c.seen.revision, reply, c.now), a, Ended);
      if ClosesAfter(w, c.seen.revision, c.ending, reply) then Owe(x, a, c.seen, CauseOf(c.ending)) else x
  }

  /** Runtime.Stop: the job is on its way out, and holds its name until it is gone. */
  function StopJob(w: World, s: Session, stopper: Stopper): World {
    if s !in w.runtime.jobs || w.runtime.jobs[s].stopping then w
    else w.(runtime := w.runtime.(jobs := w.runtime.jobs[s := w.runtime.jobs[s].(stopping := true)]),
            log := w.log + [JobStopped(s, stopper)])
  }

  /** The last thing a pass does: whatever job now has the name is stopped. */
  function CloseSession(w: World, a: nat): World {
    if a !in w.runtime.closing || a !in w.actors || w.actors[a] != Ended then w else
      var d := w.runtime.closing[a];
      StopJob(w.(runtime := w.runtime.(closing := w.runtime.closing - {a})), d.session, Closer(a, d))
  }

  /** How long a session no record claims is left alone, and how long a finished job is kept. */
  const STALE_AFTER := 8 * 3600 * SECOND
  const JOB_TTL := 3600 * SECOND

  predicate Claims(r: Record, s: Session) { r.state in {Running, PendingPrompt} && r.session && SessionOf(r) == s }

  /** The stale-session pass reads the records first. */
  function ReapList(w: World, a: nat): World { if a in w.actors then w else Move(w, a, Reaping(|w.writes|)) }

  predicate Unclaimed(ws: seq<Write>, read: nat, s: Session) {
    read <= |ws| && (read > 0 ==> !Claims(ws[read - 1].record, s))
  }

  predicate Stale(j: Job, now: Time) { now - (if j.ended.Some? then j.ended.value else j.since) >= STALE_AFTER }

  function Reap(w: World, a: nat, s: Session): World {
    if a !in w.actors || !w.actors[a].Reaping? || s !in w.runtime.jobs then w
    else if !Unclaimed(w.writes, w.actors[a].read, s) || !Stale(w.runtime.jobs[s], w.clock) then w
    else StopJob(w, s, Reaper(a, w.actors[a].read))
  }

  function JobEnd(w: World, s: Session): World {
    if s !in w.runtime.jobs || w.runtime.jobs[s].ended.Some? then w
    else w.(runtime := w.runtime.(jobs := w.runtime.jobs[s := w.runtime.jobs[s].(ended := Some(w.clock))]))
  }

  function Gone(w: World, s: Session, e: Event): World {
    w.(runtime := w.runtime.(jobs := w.runtime.jobs - {s}), log := w.log + [e])
  }

  function JobDelete(w: World, s: Session): World {
    if s in w.runtime.jobs && w.runtime.jobs[s].stopping then Gone(w, s, JobDeleted(s)) else w
  }

  /** A finished job is removed after its time to live. */
  function JobExpire(w: World, s: Session): World {
    if s !in w.runtime.jobs || w.runtime.jobs[s].stopping then w else
      var ended := w.runtime.jobs[s].ended;
      if ended.Some? && w.clock - ended.value >= JOB_TTL then Gone(w, s, JobExpired(s)) else w
  }

  // ---- orders and the processes they start ----

  function Fire(w: World, a: nat, o: Order): World {
    Move(w, a, Ended).(orders := w.orders + [o], log := w.log + [Fired(|w.orders|)])
  }

  /** The order follows the write it was won with. */
  function FireWon(w: World, a: nat): World {
    if a !in w.actors || !w.actors[a].Won? then w else
      var p := w.actors[a];
      if !(1 <= p.revision <= |w.writes|) then w else
        var r := w.writes[p.revision - 1].record;
        Fire(w, a, Order(p.pass, a, p.revision, r.fireBy, r.basePipeline))
  }

  /** A parked record is fired again as it stands, with no write of its own. */
  function FireUnparked(w: World, a: nat): World {
    if a !in w.actors || !w.actors[a].Listed? || w.actors[a].pass != Unpark then w else
      var r := w.actors[a].seen;
      Fire(w, a, Order(Unpark, a, r.revision, r.fireBy, r.basePipeline))
  }

  predicate Late(o: Order, reading: Time) { o.fireBy != ZERO_TIME && reading > o.fireBy }

  /** An order may start a dispatch at any time, more than once; one past its deadline does
      nothing. reading is the process's own reading of the clock. */
  function ProcessStart(w: World, n: nat, reading: Time): World {
    if n >= |w.orders| || Late(w.orders[n], reading) then w
    else if !(w.clock - CLOCK_MARGIN <= reading <= w.clock + CLOCK_MARGIN) then w
    else w.(processes := w.processes + [
              Process(n, w.clock, w.clock + DISPATCH_TIMEOUT + KILL_GRACE, Current(w), Deciding)])
  }

  predicate Alive(p: Process, clock: Time) { clock < p.killAt && p.stage != Returned }

  predicate Live(w: World, n: nat) {
    n < |w.processes| && w.processes[n].order < |w.orders| && Alive(w.processes[n], w.clock)
  }

  /** The process is at another stage. */
  function At(w: World, n: nat, stage: Stage): World
    requires n < |w.processes|
  {
    w.(processes := w.processes[n := w.processes[n].(stage := stage)])
  }

  /** The fix record allows a dispatch: it was recorded, has no fix state, and names the order's
      pipeline. */
  predicate MayDecide(o: Order, seen: Option<Record>) {
    seen.Some? && seen.value.fixState == NoFixState && seen.value.basePipeline == o.basePipeline
  }

  /** And allows a session for the attempt meter named. */
  predicate MayStartSession(o: Order, seen: Option<Record>, attempt: int) {
    MayDecide(o, seen) && !(seen.value.maxAttempts > 0 && attempt > seen.value.maxAttempts)
  }

  /** The record a dispatch process rebuilds: the fix it read with a fresh stamp-free body. */
  function Rebuilt(r: Record, state: WorkState, attempt: int, deadline: Time): Record {
    r.(state := state, fixState := NoFixState, session := state in {PendingPrompt, Running}, attempt := attempt,
       reslungAt := ZERO_TIME, fireBy := ZERO_TIME, runningDeadline := deadline)
  }

  /** The fix's run has moved: the record this process read goes back to "not dispatched", if nobody is
      acting on it and it is still that record. */
  function PreflightRelease(w: World, n: nat, reply: Reply): World {
    if !Live(w, n) || w.processes[n].stage != Deciding
      || !MayDecide(w.orders[w.processes[n].order], w.processes[n].seen)
    then w else
      var r := w.processes[n].seen.value;
      if r.state !in {NoWorkState, Parked} then At(w, n, Returned)
      else At(PutIf(w, None, n, r.(state := NoWorkState, reslungAt := ZERO_TIME, fireBy := ZERO_TIME), r.revision,
                    reply, w.clock),
              n, Returned)
  }

  /** The record already holds a session for the attempt. */
  predicate Taken(r: Option<Record>, attempt: int) { r.Some? && r.value.session && r.value.attempt == attempt }

  /** What a dispatch with no record to put back puts back: the fix, with nothing dispatched. */
  function NothingDispatched(seen: Record, attempt: int): Record { Rebuilt(seen, NoWorkState, attempt, ZERO_TIME) }

  function Pending(seen: Record, attempt: int, deadline: Time): Record {
    Rebuilt(seen, PendingPrompt, attempt, deadline)
  }

  /** The dedupe guard and the reservation write as one compare-and-swap. A write whose reply is an
      error lets the dispatch proceed all the same. */
  function Reserve(w: World, n: nat, attempt: int, deadline: Time, reply: Reply): World {
    if !Live(w, n) || w.processes[n].stage != Deciding
      || !MayStartSession(w.orders[w.processes[n].order], w.processes[n].seen, attempt)
    then w
    else if Taken(Current(w), attempt) then At(w, n, Returned)
    else
      var seen, rev := w.processes[n].seen.value, |w.writes|;
      var r := Pending(seen, attempt, deadline);
      var release := if Current(w).Some? then Current(w).value else NothingDispatched(seen, attempt);
      At(PutIf(w, None, n, r, rev, reply, w.clock), n,
         Cleared(attempt, ReservationFor(r, release, rev + 1, reply)))
  }

  function ReservationFor(claim: Record, release: Record, rev: nat, reply: Reply): Reservation {
    match reply
    case Acknowledged => ReservedAt(rev, release)
    case LandedError => Claimed(claim, release, rev)
    case LostError => Claimed(claim, release, 0)
  }

  /** The record cannot be read before the session is made: the write is tried as for a new record, so
      it cannot land over the one there is, and the dispatch proceeds. */
  function ReserveUnread(w: World, n: nat, attempt: int, deadline: Time, reply: Reply): World {
    if !Live(w, n) || w.processes[n].stage != Deciding || w.writes == []
      || !MayStartSession(w.orders[w.processes[n].order], w.processes[n].seen, attempt)
    then w
    else
      var seen := w.processes[n].seen.value;
      At(w, n, Cleared(attempt,
                       if reply == Acknowledged then NotReserved
                       else Claimed(Pending(seen, attempt, deadline), NothingDispatched(seen, attempt), 0)))
  }

  function LandedReservation(r: Reservation): nat {
    match r
    case NotReserved => 0
    case ReservedAt(rev, _) => rev
    case Claimed(_, _, at) => at
  }

  /** How the rest of a start that made a job goes: its secret is there; it is not, and the job is
      deleted again; or that fails too. */
  datatype Secret = Mounted | Undone | Stuck

  function SessionFor(p: Process, attempt: int): Session
    requires p.seen.Some?
  {
    Session(p.seen.value.basePipeline, attempt)
  }

  function CreateJob(w: World, n: nat, s: Session): World {
    w.(runtime := w.runtime.(jobs := w.runtime.jobs[s := Job(w.clock, None, false)]), log := w.log + [JobCreated(n, s)])
  }

  function Admit(w: World, n: nat, s: Session, created: bool): World
    requires n < |w.processes| && w.processes[n].stage.Cleared?
  {
    var k := w.processes[n].stage;
    At(w.(log := w.log + [SessionStarted(n, s, created, LandedReservation(k.reservation))]), n,
       Admitted(k.attempt, k.reservation, created))
  }

  /** Runtime.Start: a job under a free name, or the one that has it, unless that is being deleted. */
  function SessionStart(w: World, n: nat, secret: Secret): World {
    if !Live(w, n) || !w.processes[n].stage.Cleared? || w.processes[n].seen.None? then w else
      var k := w.processes[n].stage;
      var s := SessionFor(w.processes[n], k.attempt);
      var failed := Failing(k.attempt, k.reservation, false);
      if s in w.runtime.jobs then
        if w.runtime.jobs[s].stopping then At(w, n, failed) else Admit(w, n, s, false)
      else
        match secret
        case Mounted => Admit(CreateJob(w, n, s), n, s, true)
        case Undone => At(StopJob(CreateJob(w, n, s), s, Starter(n)), n, failed)
        case Stuck => At(CreateJob(w, n, s), n, failed)
  }

  /** The one unconditional write: the session is admitted. */
  function RunningPut(w: World, n: nat, deadline: Time, reply: Reply): World {
    if !Live(w, n) || !w.processes[n].stage.Admitted? || w.processes[n].seen.None? then w else
      var k := w.processes[n].stage;
      var r := Rebuilt(w.processes[n].seen.value, Running, k.attempt, deadline);
      var x := if reply == LostError then w else Landed(w, None, n, r, w.clock);
      if reply == Acknowledged then At(x, n, Recorded)
      else At(x.(log := x.log + [RunningFailed(n)]), n, Failing(k.attempt, k.reservation, k.created))
  }

  /** A dispatch that made its session and could not record it stops it. */
  function Abandon(w: World, n: nat): World {
    if !Live(w, n) || !w.processes[n].stage.Failing? || !w.processes[n].stage.created || w.processes[n].seen.None?
    then w
    else
      var k := w.processes[n].stage;
      StopJob(At(w, n, Failing(k.attempt, k.reservation, false)), SessionFor(w.processes[n], k.attempt), Creator(n))
  }

  predicate SameContent(x: Record, y: Record) { x == y.(revision := x.revision) }

  /** A release may write: over its own reservation by its revision, or, where that is not known, over a
      pending record equal to the one it would have written. */
  predicate Undoes(cur: Option<Record>, r: Reservation) {
    match r
    case NotReserved => false
    case ReservedAt(rev, _) => cur.Some? && cur.value.revision == rev
    case Claimed(claim, _, _) => cur.Some? && cur.value.state == PendingPrompt && SameContent(cur.value, claim)
  }

  predicate GivesUp(w: World, n: nat) {
    Live(w, n) && (w.processes[n].stage.Cleared? || w.processes[n].stage.Failing?)
  }

  /** A dispatch that fails puts back the record its reservation replaced. */
  function Release(w: World, n: nat): World {
    if !GivesUp(w, n) then w else
      var k := w.processes[n].stage.reservation;
      if Undoes(Current(w), k) then At(Landed(w, None, n, k.release, w.clock), n, Returned)
      else At(w, n, Returned)
  }

  /** The record still says what meter's answer was decided on, or nothing anybody is acting on. */
  predicate NotSuperseded(cur: Option<Record>, seen: Record) {
    cur.Some? && (cur.value.state in {NoWorkState, Done} || cur.value.(revision := seen.revision) == seen)
  }

  /** Meter defers or denies, or the project's cap does: a park or a denial is written unless a newer
      record was. */
  function Answer(w: World, n: nat, state: WorkState, attempt: int): World {
    if !Live(w, n) || w.processes[n].stage != Deciding
      || !MayDecide(w.orders[w.processes[n].order], w.processes[n].seen)
      || state !in {Parked, NeedsHuman}
    then w
    else
      var r := w.processes[n].seen.value;
      if NotSuperseded(Current(w), r)
        then At(Landed(w, None, n, Rebuilt(r, state, attempt, ZERO_TIME), w.clock), n, Returned)
      else At(w, n, Returned)
  }

  function Return(w: World, n: nat): World { if Live(w, n) then At(w, n, Returned) else w }

  // ---- the writers that fire nothing ----

  /** What the reclaim, the scope notices and the post-merge watch write. Each of these writes that
      lands is conditional on the record it read, so it reads and writes at once. */
  datatype Other =
    | Reclaim
    | SettleNeedsScope
    | MarkNeedsScope(basePipeline: int)
    | PostMerge(state: FixState)

  const POST_MERGE_STATES := {Merged, Confirmed, Recurred, TakenOver, ClosedUnmerged}

  function OtherRecord(w: World, o: Other): Option<Record> {
    if w.writes == [] then
      match o
      case MarkNeedsScope(base) =>
        Some(FreshRecord(base, 0, ZERO_TIME).(state := Done, fixState := NeedsScope, fireBy := ZERO_TIME))
      case _ => None
    else
      var n := |w.writes|;
      var r := w.writes[n - 1].record;
      match o
      case Reclaim => if r.state == PendingPrompt then Some(r.(state := Running)) else None
      case SettleNeedsScope =>
        if r.state == NoWorkState && r.fixState == NoFixState
        then Some(r.(state := Done, fixState := NeedsScope, reslungAt := ZERO_TIME, fireBy := ZERO_TIME)) else None
      case PostMerge(s) =>
        if r.state == Done && r.fixState != NoFixState && s in POST_MERGE_STATES then Some(r.(fixState := s)) else None
      case MarkNeedsScope(_) => None
  }

  function OtherWrite(w: World, a: nat, o: Other): World {
    match OtherRecord(w, o)
    case None => w
    case Some(r) => Landed(w, None, a, r, w.clock)
  }

  // ---- runs ----

  datatype Step =
    | TickBy(d: nat)
    | LookStarts(a: nat)
    | LookReads(a: nat, eligible: bool, basePipeline: int, maxAttempts: int)
    | LookPuts(a: nat, reply: Reply)
    | Lists(a: nat, pass: Pass)
    | CheckJudges(a: nat, ruling: Ruling, runStands: bool)
    | CheckShows(a: nat, ok: bool)
    | CheckReports(a: nat, ok: bool)
    | CheckPuts(a: nat, reply: Reply)
    | CheckWaits(a: nat, reply: Reply)
    | RetryJudges(a: nat, accepted: bool)
    | RetryPuts(a: nat, reply: Reply)
    | Concludes(a: nat, ending: Ending, accepted: bool)
    | ConcludePuts(a: nat, reply: Reply)
    | Closes(a: nat)
    | ReapLists(a: nat)
    | Reaps(a: nat, session: Session)
    | JobEnds(session: Session)
    | JobDeletes(session: Session)
    | JobExpires(session: Session)
    | Fires(a: nat)
    | Unparks(a: nat)
    | ProcessStarts(order: nat, reading: Time)
    | PreflightReleases(process: nat, reply: Reply)
    | Reserves(process: nat, attempt: int, deadline: Time, reply: Reply)
    | ReservesUnread(process: nat, attempt: int, deadline: Time, reply: Reply)
    | SessionStarts(process: nat, secret: Secret)
    | RunningPuts(process: nat, deadline: Time, reply: Reply)
    | Abandons(process: nat)
    | Releases(process: nat)
    | Answers(process: nat, state: WorkState, attempt: int)
    | Returns(process: nat)
    | OtherWrites(a: nat, o: Other)

  function Do(w: World, s: Step): World {
    match s
    case TickBy(d) => w.(clock := w.clock + d)
    case LookStarts(a) => LookStart(w, a)
    case LookReads(a, e, b, m) => LookRead(w, a, e, b, m)
    case LookPuts(a, r) => LookPut(w, a, r)
    case Lists(a, p) => List(w, a, p)
    case CheckJudges(a, r, st) => CheckJudge(w, a, r, st)
    case CheckShows(a, ok) => CheckShow(w, a, ok)
    case CheckReports(a, ok) => CheckReport(w, a, ok)
    case CheckPuts(a, r) => CheckPut(w, a, r)
    case CheckWaits(a, r) => CheckWait(w, a, r)
    case RetryJudges(a, ok) => RetryJudge(w, a, ok)
    case RetryPuts(a, r) => RetryPut(w, a, r)
    case Concludes(a, e, ok) => Conclude(w, a, e, ok)
    case ConcludePuts(a, r) => ConcludePut(w, a, r)
    case Closes(a) => CloseSession(w, a)
    case ReapLists(a) => ReapList(w, a)
    case Reaps(a, j) => Reap(w, a, j)
    case JobEnds(j) => JobEnd(w, j)
    case JobDeletes(j) => JobDelete(w, j)
    case JobExpires(j) => JobExpire(w, j)
    case Fires(a) => FireWon(w, a)
    case Unparks(a) => FireUnparked(w, a)
    case ProcessStarts(n, t) => ProcessStart(w, n, t)
    case PreflightReleases(n, r) => PreflightRelease(w, n, r)
    case Reserves(n, k, t, r) => Reserve(w, n, k, t, r)
    case ReservesUnread(n, k, t, r) => ReserveUnread(w, n, k, t, r)
    case SessionStarts(n, secret) => SessionStart(w, n, secret)
    case RunningPuts(n, t, r) => RunningPut(w, n, t, r)
    case Abandons(n) => Abandon(w, n)
    case Releases(n) => Release(w, n)
    case Answers(n, st, k) => Answer(w, n, st, k)
    case Returns(n) => Return(w, n)
    case OtherWrites(a, o) => OtherWrite(w, a, o)
  }

  function Run(w: World, steps: seq<Step>): World {
    if steps == [] then w else Do(Run(w, steps[..|steps| - 1]), steps[|steps| - 1])
  }
}
