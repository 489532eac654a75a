/** Runs in which a session's name is given two jobs, a dispatch stops a job that is not its own, and a
    dispatch gives up another's reservation for its own. */
module FixProtocolSessionWitness {
  import opened Basics
  import opened FixRecord
  import opened FixProtocol
  import opened FixProtocolTheorems
  import opened FixProtocolLive
  import opened FixProtocolWitness
  import opened FixProtocolReservations
  import opened FixProtocolJobs

  /** What a run has come to: its first order's two dispatches, how many writes, whether the record holds
      a session for the attempt, and what the runtime has under its name. */
  predicate Scene(w: World, clock: Time, base: int, k: int, first: Stage, second: Stage, n: nat, held: bool, h: Hold) {
    && w.clock == clock && |w.orders| == 1 && w.orders[0].basePipeline == base
    && w.processes == [FirstProcess(clock, base).(stage := first), FirstProcess(clock, base).(stage := second)]
    && |w.writes| == n > 0 && w.writes[n - 1].record.revision == n && Taken(Current(w), k) == held
    && HoldOf(w.runtime.jobs, Session(base, k)) == h
  }

  predicate Keeps(w: World, x: World) { forall e | e in w.log :: e in x.log }

  function FirstReserved(clock: Time, base: int): Reservation { ReservedAt(2, FirstRecord(clock, base)) }

  lemma Reserves0(w: World, clock: Time, a: nat, base: int, k: int, n: nat, reply: Reply)
    requires 0 < clock && Begun(w, clock, a, base, 2) && n == 0 && reply == Acknowledged
    ensures var x := Reserve(w, n, k, clock, reply);
      Scene(x, clock, base, k, Cleared(k, FirstReserved(clock, base)), Deciding, 2, true, NoJob) && Keeps(w, x)
  {
    assert Live(w, n) && MayStartSession(w.orders[0], w.processes[n].seen, k) && !Taken(Current(w), k);
  }

  lemma Starts0(w: World, clock: Time, base: int, k: int, r: Reservation, n: nat, secret: Secret)
    requires 0 < clock && Scene(w, clock, base, k, Cleared(k, r), Deciding, 2, true, NoJob)
    requires n == 0 && secret == Mounted
    ensures var x := SessionStart(w, n, secret);
      && Scene(x, clock, base, k, Admitted(k, r, true), Deciding, 2, true, Up) && Keeps(w, x)
      && JobCreated(0, Session(base, k)) in x.log
  {}

  lemma Loses0(w: World, clock: Time, base: int, k: int, r: Reservation, n: nat, reply: Reply)
    requires 0 < clock && Scene(w, clock, base, k, Admitted(k, r, true), Deciding, 2, true, Up)
    requires n == 0 && reply == LostError
    ensures var x := RunningPut(w, n, clock, reply);
      Scene(x, clock, base, k, Failing(k, r, true), Deciding, 2, true, Up) && Keeps(w, x)
  {}

  lemma Abandons0(w: World, clock: Time, base: int, k: int, r: Reservation, n: nat)
    requires 0 < clock && Scene(w, clock, base, k, Failing(k, r, true), Deciding, 2, true, Up) && n == 0
    ensures var x := Abandon(w, n);
      Scene(x, clock, base, k, Failing(k, r, false), Deciding, 2, true, Stopping) && Keeps(w, x)
  {}

  lemma Deletes(w: World, clock: Time, base: int, k: int, first: Stage, second: Stage, n: nat, held: bool)
    requires Scene(w, clock, base, k, first, second, n, held, Stopping)
    ensures var x := JobDelete(w, Session(base, k));
      Scene(x, clock, base, k, first, second, n, held, NoJob) && Keeps(w, x)
  {}

  lemma Releases0(w: World, clock: Time, base: int, k: int, n: nat)
    requires 0 < clock && n == 0
    requires Scene(w, clock, base, k, Failing(k, FirstReserved(clock, base), false), Deciding, 2, true, NoJob)
    ensures var x := Release(w, n);
      Scene(x, clock, base, k, Returned, Deciding, 3, false, NoJob) && Keeps(w, x)
  {}

  lemma ReservesNext(w: World, clock: Time, base: int, k: int, s: Step)
    requires 0 < clock && s == Reserves(1, k, clock, Acknowledged)
    requires Scene(w, clock, base, k, Returned, Deciding, 3, false, NoJob)
    ensures var x := Do(w, s);
      && Scene(x, clock, base, k, Returned, Cleared(k, ReservedAt(4, Current(w).value)), 4, true, NoJob)
      && Keeps(w, x)
  {
    assert Live(w, 1) && MayStartSession(w.orders[0], w.processes[1].seen, k) && !Taken(Current(w), k);
  }

  lemma StartsNext(w: World, clock: Time, base: int, k: int, r: Reservation, s: Step)
    requires 0 < clock && s == SessionStarts(1, Mounted)
    requires Scene(w, clock, base, k, Returned, Cleared(k, r), 4, true, NoJob)
    ensures Keeps(w, Do(w, s)) && JobCreated(1, Session(base, k)) in Do(w, s).log
  {
    assert Live(w, 1);
  }

  predicate BothMade(log: seq<Event>, s: Session) { JobCreated(0, s) in log && JobCreated(1, s) in log }

  function MakeSteps(n: nat, clock: Time, k: int): seq<Step> {
    [Reserves(n, k, clock, Acknowledged), SessionStarts(n, Mounted)]
  }
  function LoseSteps(clock: Time): seq<Step> { [RunningPuts(0, clock, LostError), Abandons(0)] }
  function UndoSteps(s: Session): seq<Step> { [JobDeletes(s), Releases(0)] }

  /** A dispatch makes the session, cannot record it, stops it and gives its reservation up; the order's
      other dispatch then makes the session again. */
  function LostSteps(clock: Time, base: int, k: int): seq<Step> {
    MakeSteps(0, clock, k) + (LoseSteps(clock) + (UndoSteps(Session(base, k)) + MakeSteps(1, clock, k)))
  }

  lemma Makes0(w: World, clock: Time, a: nat, base: int, k: int)
    requires 0 < clock && Begun(w, clock, a, base, 2)
    ensures var x := Run(w, MakeSteps(0, clock, k));
      && Scene(x, clock, base, k, Admitted(k, FirstReserved(clock, base), true), Deciding, 2, true, Up)
      && JobCreated(0, Session(base, k)) in x.log
  {
    RunTwo(w, MakeSteps(0, clock, k));
    Reserves0(w, clock, a, base, k, 0, Acknowledged);
    Starts0(Reserve(w, 0, k, clock, Acknowledged), clock, base, k, FirstReserved(clock, base), 0, Mounted);
  }

  lemma LosesIt(w: World, clock: Time, base: int, k: int)
    requires 0 < clock
    requires Scene(w, clock, base, k, Admitted(k, FirstReserved(clock, base), true), Deciding, 2, true, Up)
    ensures var x := Run(w, LoseSteps(clock));
      && Scene(x, clock, base, k, Failing(k, FirstReserved(clock, base), false), Deciding, 2, true, Stopping)
      && Keeps(w, x)
  {
    RunTwo(w, LoseSteps(clock));
    Loses0(w, clock, base, k, FirstReserved(clock, base), 0, LostError);
    Abandons0(RunningPut(w, 0, clock, LostError), clock, base, k, FirstReserved(clock, base), 0);
  }

  lemma UndoesIt(w: World, clock: Time, base: int, k: int)
    requires 0 < clock
    requires Scene(w, clock, base, k, Failing(k, FirstReserved(clock, base), false), Deciding, 2, true, Stopping)
    ensures var x := Run(w, UndoSteps(Session(base, k)));
      Scene(x, clock, base, k, Returned, Deciding, 3, false, NoJob) && Keeps(w, x)
  {
    RunTwo(w, UndoSteps(Session(base, k)));
    Deletes(w, clock, base, k, Failing(k, FirstReserved(clock, base), false), Deciding, 2, true);
    Releases0(JobDelete(w, Session(base, k)), clock, base, k, 0);
  }

  lemma Makes1(w: World, clock: Time, base: int, k: int, p: seq<Step>)
    requires 0 < clock && Scene(w, clock, base, k, Returned, Deciding, 3, false, NoJob)
    requires |p| == 2 && p[0] == Reserves(1, k, clock, Acknowledged) && p[1] == SessionStarts(1, Mounted)
    ensures Keeps(w, Run(w, p)) && JobCreated(1, Session(base, k)) in Run(w, p).log
  {
    RunTwo(w, p);
    ReservesNext(w, clock, base, k, p[0]);
    StartsNext(Do(w, p[0]), clock, base, k, ReservedAt(4, Current(w).value), p[1]);
  }

  lemma LostTwice(w: World, clock: Time, a: nat, base: int, k: int)
    requires 0 < clock && Begun(w, clock, a, base, 2)
    ensures BothMade(Run(w, LostSteps(clock, base, k)).log, Session(base, k))
  {
    var p, q, r, t := MakeSteps(0, clock, k), LoseSteps(clock), UndoSteps(Session(base, k)), MakeSteps(1, clock, k);
    Makes0(w, clock, a, base, k);
    LosesIt(Run(w, p), clock, base, k);
    UndoesIt(Run(Run(w, p), q), clock, base, k);
    Makes1(Run(Run(Run(w, p), q), r), clock, base, k, t);
    RunsFour(w, p, q, r, t);
  }

  lemma RunsFour(w: World, p: seq<Step>, q: seq<Step>, r: seq<Step>, t: seq<Step>)
    ensures Run(w, p + (q + (r + t))) == Run(Run(Run(Run(w, p), q), r), t)
  {
    RunSplits(w, p, q + (r + t));
    RunSplits(Run(w, p), q, r + t);
    RunSplits(Run(Run(w, p), q), r, t);
  }

  // ---- refused by its image ----

  function RecordSteps(clock: Time, b: nat): seq<Step> { [RunningPuts(0, clock, LandedError), Lists(b, Retry)] }
  function RefuseSteps(b: nat): seq<Step> { [Concludes(b, Skewed, false), ConcludePuts(b, Acknowledged)] }
  function CloseSteps(b: nat, s: Session): seq<Step> { [Closes(b), JobDeletes(s)] }
  function UnparkOnce(c: nat): seq<Step> { [Lists(c, Unpark), Unparks(c)] }
  function SecondSteps(clock: Time, k: int): seq<Step> {
    [ProcessStarts(1, clock), Reserves(1, k, clock, Acknowledged)]
  }
  function CrossSteps(): seq<Step> { [SessionStarts(1, Mounted), Abandons(0)] }

  /** A sweep parks the fix of a session its image refused, and closes the session; the next dispatch makes
      it again, and the first, whose running record landed though the reply was an error, gives up. */
  function SkewedSteps(clock: Time, base: int, k: int, b: nat, c: nat): seq<Step> {
    MakeSteps(0, clock, k)
    + (RecordSteps(clock, b)
       + (RefuseSteps(b)
          + (CloseSteps(b, Session(base, k)) + (UnparkOnce(c) + (SecondSteps(clock, k) + CrossSteps())))))
  }

  function RunningRecord(clock: Time, base: int, k: int): Record {
    Rebuilt(FirstRecord(clock, base), Running, k, clock).(revision := 3)
  }

  /** The first dispatch, and what the record and the runtime have; it made the session, and has still to
      stop it once its record is lost. */
  predicate Solo(w: World, clock: Time, base: int, k: int, first: Stage, cur: Record, h: Hold) {
    && w.clock == clock && |w.orders| == 1 && w.orders[0].basePipeline == base
    && w.processes == [FirstProcess(clock, base).(stage := first)]
    && Current(w) == Some(cur) && cur.revision == |w.writes| && HoldOf(w.runtime.jobs, Session(base, k)) == h
  }

  function Lost(clock: Time, base: int, k: int): Stage { Failing(k, FirstReserved(clock, base), true) }

  lemma SoloMakes(w: World, clock: Time, a: nat, base: int, k: int, n: nat, yes: Reply, secret: Secret)
    requires 0 < clock && Begun(w, clock, a, base, 1) && n == 0 && yes == Acknowledged && secret == Mounted
    ensures var x := SessionStart(Reserve(w, n, k, clock, yes), n, secret);
      && Solo(x, clock, base, k, Admitted(k, FirstReserved(clock, base), true),
              Pending(FirstRecord(clock, base), k, clock).(revision := 2), Up)
      && JobCreated(0, Session(base, k)) in x.log && x.actors.Keys == {a}
  {
    assert Live(w, n) && MayStartSession(w.orders[0], w.processes[n].seen, k) && !Taken(Current(w), k);
    var x := Reserve(w, n, k, clock, yes);
    assert Live(x, n) && x.processes[n].stage == Cleared(k, FirstReserved(clock, base));
  }

  lemma SoloRecords(w: World, clock: Time, base: int, k: int, b: nat, n: nat, error: Reply, pass: Pass)
    requires 0 < clock && n == 0 && error == LandedError && pass == Retry && b !in w.actors
    requires Solo(w, clock, base, k, Admitted(k, FirstReserved(clock, base), true),
                  Pending(FirstRecord(clock, base), k, clock).(revision := 2), Up)
    ensures var x := List(RunningPut(w, n, clock, error), b, pass);
      && Solo(x, clock, base, k, Lost(clock, base, k), RunningRecord(clock, base, k), Up) && Keeps(w, x)
      && x.actors == w.actors[b := Listed(Retry, RunningRecord(clock, base, k))]
  {
    assert Live(w, n);
    var x := RunningPut(w, n, clock, error);
    assert Current(x) == Some(RunningRecord(clock, base, k)) && Keeps(w, x);
  }

  function ParkedRecord(clock: Time, base: int, k: int): Record {
    ParkedForRetry(RunningRecord(clock, base, k)).(revision := 4)
  }

  lemma Parks(w: World, clock: Time, base: int, k: int, b: nat, yes: Reply, ending: Ending)
    requires 0 < clock && yes == Acknowledged && ending == Skewed
    requires b in w.actors && w.actors[b] == Listed(Retry, RunningRecord(clock, base, k))
    requires Solo(w, clock, base, k, Lost(clock, base, k), RunningRecord(clock, base, k), Up)
    ensures var x := ConcludePut(Conclude(w, b, ending, false), b, yes);
      && Solo(x, clock, base, k, Lost(clock, base, k), ParkedRecord(clock, base, k), Up) && Keeps(w, x)
      && x.actors == w.actors[b := Ended]
      && b in x.runtime.closing && x.runtime.closing[b].session == Session(base, k)
  {
    var x := Conclude(w, b, ending, false);
    assert x.actors[b] == Concluding(clock, RunningRecord(clock, base, k), Skewed);
  }

  lemma Clears(w: World, clock: Time, base: int, k: int, b: nat)
    requires 0 < clock && b in w.actors && w.actors[b] == Ended && b in w.runtime.closing
    requires w.runtime.closing[b].session == Session(base, k)
    requires Solo(w, clock, base, k, Lost(clock, base, k), ParkedRecord(clock, base, k), Up)
    ensures var x := JobDelete(CloseSession(w, b), Session(base, k));
      && Solo(x, clock, base, k, Lost(clock, base, k), ParkedRecord(clock, base, k), NoJob) && Keeps(w, x)
      && x.actors == w.actors
  {
    var x := CloseSession(w, b);
    assert HoldOf(x.runtime.jobs, Session(base, k)) == Stopping && Keeps(w, x);
  }

  lemma FiresParked(w: World, clock: Time, base: int, k: int, c: nat, pass: Pass)
    requires 0 < clock && c !in w.actors && pass == Unpark
    requires Solo(w, clock, base, k, Lost(clock, base, k), ParkedRecord(clock, base, k), NoJob)
    ensures var x := FireUnparked(List(w, c, pass), c);
      && |x.orders| == 2 && x.orders[..1] == w.orders
      && x.orders[1].basePipeline == base && x.orders[1].fireBy == ZERO_TIME
      && x.processes == w.processes && x.writes == w.writes && x.runtime == w.runtime && x.clock == w.clock
      && Keeps(w, x)
  {
    assert List(w, c, pass).actors[c] == Listed(Unpark, ParkedRecord(clock, base, k));
  }

  /** Two orders, and the first's dispatch has still to stop the session it could not record. */
  predicate Twosome(w: World, clock: Time, base: int, k: int, h: Hold) {
    && w.clock == clock && |w.orders| == 2 && w.orders[0].basePipeline == w.orders[1].basePipeline == base
    && w.orders[1].fireBy == ZERO_TIME && HoldOf(w.runtime.jobs, Session(base, k)) == h
    && |w.processes| > 0 && w.processes[0] == FirstProcess(clock, base).(stage := Lost(clock, base, k))
  }

  /** The second dispatch is past its reservation. */
  predicate SecondReady(w: World, clock: Time, base: int, k: int) {
    && Twosome(w, clock, base, k, NoJob) && |w.processes| == 2 && Live(w, 1)
    && w.processes[1].stage.Cleared? && w.processes[1].stage.attempt == k
    && w.processes[1].seen.Some? && w.processes[1].seen.value.basePipeline == base
  }

  lemma SecondStarts(w: World, clock: Time, base: int, k: int, s: Step)
    requires 0 < clock && s == ProcessStarts(1, clock) && Twosome(w, clock, base, k, NoJob) && |w.processes| == 1
    requires Current(w) == Some(ParkedRecord(clock, base, k))
    ensures var x := Do(w, s);
      && Twosome(x, clock, base, k, NoJob) && Keeps(w, x) && |x.processes| == 2 && x.writes == w.writes
      && x.processes[1].order == 1 && x.processes[1].stage == Deciding && Alive(x.processes[1], clock)
      && x.processes[1].seen == Current(w)
  {}

  lemma SecondReserves(w: World, clock: Time, base: int, k: int, s: Step)
    requires 0 < clock && s == Reserves(1, k, clock, Acknowledged) && Twosome(w, clock, base, k, NoJob)
    requires |w.processes| == 2 && w.processes[1].order == 1 && w.processes[1].stage == Deciding
    requires Alive(w.processes[1], clock) && w.processes[1].seen == Current(w)
    requires Current(w) == Some(ParkedRecord(clock, base, k))
    ensures SecondReady(Do(w, s), clock, base, k) && Keeps(w, Do(w, s))
  {
    assert Live(w, 1) && MayStartSession(w.orders[1], w.processes[1].seen, k) && !Taken(Current(w), k);
  }

  lemma CrossStarts(w: World, clock: Time, base: int, k: int, s: Step)
    requires 0 < clock && s == SessionStarts(1, Mounted) && SecondReady(w, clock, base, k)
    ensures var x := Do(w, s); Twosome(x, clock, base, k, Up) && Keeps(w, x) && JobCreated(1, Session(base, k)) in x.log
  {
    assert SessionFor(w.processes[1], k) == Session(base, k);
  }

  lemma CrossStops(w: World, clock: Time, base: int, k: int, s: Step)
    requires 0 < clock && s == Abandons(0) && Twosome(w, clock, base, k, Up)
    ensures Do(w, s).log == w.log + [JobStopped(Session(base, k), Creator(0))]
  {
    assert Live(w, 0);
  }

  predicate StopsLater(log: seq<Event>, s: Session) {
    |log| > 0 && log[|log| - 1] == JobStopped(s, Creator(0)) && BothMade(log[..|log| - 1], s)
  }

  lemma SkewedMakes(w: World, clock: Time, a: nat, base: int, k: int)
    requires 0 < clock && Begun(w, clock, a, base, 1)
    ensures var x := Run(w, MakeSteps(0, clock, k));
      && Solo(x, clock, base, k, Admitted(k, FirstReserved(clock, base), true),
              Pending(FirstRecord(clock, base), k, clock).(revision := 2), Up)
      && JobCreated(0, Session(base, k)) in x.log && x.actors.Keys == {a}
  {
    RunTwo(w, MakeSteps(0, clock, k));
    SoloMakes(w, clock, a, base, k, 0, Acknowledged, Mounted);
  }

  lemma SkewedRecords(w: World, clock: Time, base: int, k: int, b: nat)
    requires 0 < clock && b !in w.actors
    requires Solo(w, clock, base, k, Admitted(k, FirstReserved(clock, base), true),
                  Pending(FirstRecord(clock, base), k, clock).(revision := 2), Up)
    ensures var x := Run(w, RecordSteps(clock, b));
      && Solo(x, clock, base, k, Lost(clock, base, k), RunningRecord(clock, base, k), Up) && Keeps(w, x)
      && x.actors == w.actors[b := Listed(Retry, RunningRecord(clock, base, k))]
  {
    RunTwo(w, RecordSteps(clock, b));
    SoloRecords(w, clock, base, k, b, 0, LandedError, Retry);
  }

  lemma SkewedParks(w: World, clock: Time, base: int, k: int, b: nat)
    requires 0 < clock && b in w.actors && w.actors[b] == Listed(Retry, RunningRecord(clock, base, k))
    requires Solo(w, clock, base, k, Lost(clock, base, k), RunningRecord(clock, base, k), Up)
    ensures var x := Run(w, RefuseSteps(b));
      && Solo(x, clock, base, k, Lost(clock, base, k), ParkedRecord(clock, base, k), Up) && Keeps(w, x)
      && x.actors == w.actors[b := Ended]
      && b in x.runtime.closing && x.runtime.closing[b].session == Session(base, k)
  {
    RunTwo(w, RefuseSteps(b));
    Parks(w, clock, base, k, b, Acknowledged, Skewed);
  }

  lemma SkewedCloses(w: World, clock: Time, base: int, k: int, b: nat)
    requires 0 < clock && b in w.actors && w.actors[b] == Ended && b in w.runtime.closing
    requires w.runtime.closing[b].session == Session(base, k)
    requires Solo(w, clock, base, k, Lost(clock, base, k), ParkedRecord(clock, base, k), Up)
    ensures var x := Run(w, CloseSteps(b, Session(base, k)));
      && Solo(x, clock, base, k, Lost(clock, base, k), ParkedRecord(clock, base, k), NoJob) && Keeps(w, x)
      && x.actors == w.actors
  {
    RunTwo(w, CloseSteps(b, Session(base, k)));
    Clears(w, clock, base, k, b);
  }

  lemma SkewedUnparks(w: World, clock: Time, base: int, k: int, c: nat)
    requires 0 < clock && c !in w.actors
    requires Solo(w, clock, base, k, Lost(clock, base, k), ParkedRecord(clock, base, k), NoJob)
    ensures var x := Run(w, UnparkOnce(c));
      && Twosome(x, clock, base, k, NoJob) && |x.processes| == 1 && Current(x) == Some(ParkedRecord(clock, base, k))
      && Keeps(w, x)
  {
    RunTwo(w, UnparkOnce(c));
    FiresParked(w, clock, base, k, c, Unpark);
  }

  lemma SkewedSeconds(w: World, clock: Time, base: int, k: int, p: seq<Step>)
    requires 0 < clock && Twosome(w, clock, base, k, NoJob) && |w.processes| == 1
    requires Current(w) == Some(ParkedRecord(clock, base, k))
    requires |p| == 2 && p[0] == ProcessStarts(1, clock) && p[1] == Reserves(1, k, clock, Acknowledged)
    ensures SecondReady(Run(w, p), clock, base, k) && Keeps(w, Run(w, p))
  {
    RunTwo(w, p);
    SecondStarts(w, clock, base, k, p[0]);
    SecondReserves(Do(w, p[0]), clock, base, k, p[1]);
  }

  lemma SkewedCrosses(w: World, clock: Time, base: int, k: int, p: seq<Step>)
    requires 0 < clock && SecondReady(w, clock, base, k) && JobCreated(0, Session(base, k)) in w.log
    requires |p| == 2 && p[0] == SessionStarts(1, Mounted) && p[1] == Abandons(0)
    ensures StopsLater(Run(w, p).log, Session(base, k))
  {
    RunTwo(w, p);
    CrossStarts(w, clock, base, k, p[0]);
    CrossStops(Do(w, p[0]), clock, base, k, p[1]);
  }

  lemma SkewedTwice(w: World, clock: Time, a: nat, b: nat, c: nat, base: int, k: int)
    requires 0 < clock && Begun(w, clock, a, base, 1) && a != b && a != c && b != c
    ensures StopsLater(Run(w, SkewedSteps(clock, base, k, b, c)).log, Session(base, k))
  {
    var p, q, r, t := MakeSteps(0, clock, k), RecordSteps(clock, b), RefuseSteps(b), CloseSteps(b, Session(base, k));
    var rest := UnparkOnce(c) + (SecondSteps(clock, k) + CrossSteps());
    RunsFour(w, p, q, r, t + rest);
    SkewedMakes(w, clock, a, base, k);
    SkewedRecords(Run(w, p), clock, base, k, b);
    SkewedParks(Run(Run(w, p), q), clock, base, k, b);
    SkewedRest(Run(Run(Run(w, p), q), r), clock, base, k, b, c);
  }

  lemma SkewedRest(w: World, clock: Time, base: int, k: int, b: nat, c: nat)
    requires 0 < clock && b in w.actors && w.actors[b] == Ended && b in w.runtime.closing && c !in w.actors
    requires w.runtime.closing[b].session == Session(base, k) && JobCreated(0, Session(base, k)) in w.log
    requires Solo(w, clock, base, k, Lost(clock, base, k), ParkedRecord(clock, base, k), Up)
    ensures StopsLater(
              Run(w, CloseSteps(b, Session(base, k)) + (UnparkOnce(c) + (SecondSteps(clock, k) + CrossSteps()))).log,
              Session(base, k))
  {
    var t, u, v, z := CloseSteps(b, Session(base, k)), UnparkOnce(c), SecondSteps(clock, k), CrossSteps();
    RunsFour(w, t, u, v, z);
    SkewedCloses(w, clock, base, k, b);
    SkewedUnparks(Run(w, t), clock, base, k, c);
    SkewedSeconds(Run(Run(w, t), u), clock, base, k, v);
    SkewedCrosses(Run(Run(Run(w, t), u), v), clock, base, k, z);
  }

  lemma LostFromStart(clock: Time, a: nat, base: int, k: int)
    requires 0 < clock
    ensures BothMade(Run(Start(clock), LookSteps(a, base, 0) + (TwiceSteps(clock) + LostSteps(clock, base, k))).log,
                     Session(base, k))
  {
    var w := Run(Start(clock), LookSteps(a, base, 0));
    AfterLook(clock, a, base, TwiceSteps(clock) + LostSteps(clock, base, k));
    RunSplits(w, TwiceSteps(clock), LostSteps(clock, base, k));
    BeginsTwice(w, clock, a, base);
    LostTwice(Run(w, TwiceSteps(clock)), clock, a, base, k);
  }

  lemma SkewedFromStart(clock: Time, a: nat, b: nat, c: nat, base: int, k: int, s: Step)
    requires 0 < clock && a != b && a != c && b != c && s == ProcessStarts(0, clock)
    ensures StopsLater(Run(Start(clock), LookSteps(a, base, 0) + ([s] + SkewedSteps(clock, base, k, b, c))).log,
                       Session(base, k))
  {
    var w := Run(Start(clock), LookSteps(a, base, 0));
    AfterLook(clock, a, base, [s] + SkewedSteps(clock, base, k, b, c));
    RunFirst(w, s, SkewedSteps(clock, base, k, b, c));
    BeginsMore(w, clock, a, base, 0, 0);
    SkewedTwice(ProcessStart(w, 0, clock), clock, a, b, c, base, k);
  }

  /** Two runs from an empty store in which a session's name is given a second job, for the same attempt; in
      the second run the first dispatch has the second's job stopped. */
  lemma TwoJobs(clock: Time, a: nat, b: nat, c: nat, base: int, k: int)
    requires 0 < clock && a != b && a != c && b != c
    ensures BothMade(Run(Start(clock), LookSteps(a, base, 0) + (TwiceSteps(clock) + LostSteps(clock, base, k))).log,
                     Session(base, k))
    ensures var s := ProcessStarts(0, clock);
      StopsLater(Run(Start(clock), LookSteps(a, base, 0) + ([s] + SkewedSteps(clock, base, k, b, c))).log,
                 Session(base, k))
  {
    LostFromStart(clock, a, base, k);
    SkewedFromStart(clock, a, b, c, base, k, ProcessStarts(0, clock));
  }

  // ---- another's reservation, given up for its own ----

  /** The first dispatch's reservation is lost with its reply, and the second's lands and its session
      starts. */
  function MistakenSteps(clock: Time, k: int): seq<Step> {
    [Reserves(0, k, clock, LostError), Reserves(1, k, clock, Acknowledged)] + [SessionStarts(1, Mounted)]
  }

  /** The first then gives up, and a third dispatch of the order reserves and starts. */
  function ThirdSteps(clock: Time, k: int): seq<Step> { AgainSteps(clock) + MakeSteps(2, clock, k) }
  function AgainSteps(clock: Time): seq<Step> { [Releases(0), ProcessStarts(0, clock)] }

  function PendingRecord(clock: Time, base: int, k: int): Record { Pending(FirstRecord(clock, base), k, clock) }

  function FirstClaim(clock: Time, base: int, k: int): Reservation {
    Claimed(PendingRecord(clock, base, k), FirstRecord(clock, base), 0)
  }

  lemma ReservesLost(w: World, clock: Time, a: nat, base: int, k: int, s: Step)
    requires 0 < clock && Begun(w, clock, a, base, 2) && s == Reserves(0, k, clock, LostError)
    ensures OneClaimed(Do(w, s), clock, base, k) && Do(w, s).orders == w.orders
  {
    assert Live(w, 0) && MayStartSession(w.orders[0], w.processes[0].seen, k) && !Taken(Current(w), k);
  }

  /** The first dispatch is past its reservation, which did not land; the second is where it was. */
  predicate OneClaimed(w: World, clock: Time, base: int, k: int) {
    && Scene(w, clock, base, k, Cleared(k, FirstClaim(clock, base, k)), Deciding, 1, false, NoJob)
    && Current(w) == Some(FirstRecord(clock, base))
  }

  lemma ReservesToo(w: World, clock: Time, base: int, k: int, s: Step)
    requires 0 < clock && OneClaimed(w, clock, base, k) && s == Reserves(1, k, clock, Acknowledged)
    ensures BothReserved(Do(w, s), clock, base, k) && Do(w, s).orders == w.orders
  {
    assert Live(w, 1) && MayStartSession(w.orders[0], w.processes[1].seen, k) && !Taken(Current(w), k);
  }

  predicate BothReserved(w: World, clock: Time, base: int, k: int) {
    && Scene(w, clock, base, k, Cleared(k, FirstClaim(clock, base, k)), Cleared(k, FirstReserved(clock, base)), 2, true,
             NoJob)
    && Current(w) == Some(PendingRecord(clock, base, k).(revision := 2)) && Reserved(w.writes, 1, Session(base, k), 2)
  }

  predicate Mistaken(w: World, clock: Time, base: int, k: int) {
    && Gives(w, 0, Session(base, k), FirstClaim(clock, base, k)) && Mistakes(w, FirstClaim(clock, base, k))
    && Reserved(w.writes, 1, Session(base, k), 2) && |w.writes| == 2
  }

  lemma MistakesSecond(w: World, clock: Time, base: int, k: int, s: Step)
    requires 0 < clock && s == SessionStarts(1, Mounted) && BothReserved(w, clock, base, k)
    ensures var x := Do(w, s);
      && Mistaken(x, clock, base, k) && HoldOf(x.runtime.jobs, Session(base, k)) == Up
      && x.clock == clock && x.orders == w.orders && |x.processes| == 2
  {
    assert Live(w, 1);
  }

  /** The third dispatch reads a record that holds no session; the second's is up. */
  predicate ThirdReady(w: World, clock: Time, base: int, k: int) {
    && w.clock == clock && |w.orders| == 1 && w.orders[0].basePipeline == base && |w.processes| == 3
    && w.processes[2].order == 0 && w.processes[2].stage == Deciding && Alive(w.processes[2], clock)
    && |w.writes| == 3 && Current(w) == Some(FirstRecord(clock, base).(revision := 3))
    && w.processes[2].seen == Current(w) && HoldOf(w.runtime.jobs, Session(base, k)) == Up
  }

  /** The first has given up, over the second's reservation. */
  predicate GivenUp(w: World, clock: Time, base: int, k: int) {
    && w.clock == clock && |w.orders| == 1 && w.orders[0].basePipeline == base && |w.processes| == 2
    && w.orders[0].fireBy == FireBy(clock) && HoldOf(w.runtime.jobs, Session(base, k)) == Up
    && |w.writes| == 3 && Current(w) == Some(FirstRecord(clock, base).(revision := 3))
  }

  lemma FirstGivesUp(w: World, clock: Time, base: int, k: int, s: Step)
    requires 0 < clock && s == Releases(0) && Mistaken(w, clock, base, k)
    requires HoldOf(w.runtime.jobs, Session(base, k)) == Up
    requires w.clock == clock && |w.orders| == 1 && w.orders[0].basePipeline == base && |w.processes| == 2
    requires w.orders[0].fireBy == FireBy(clock)
    ensures GivenUp(Do(w, s), clock, base, k)
  {}

  lemma ThirdBegins(w: World, clock: Time, base: int, k: int, s: Step)
    requires 0 < clock && s == ProcessStarts(0, clock) && GivenUp(w, clock, base, k)
    ensures ThirdReady(Do(w, s), clock, base, k)
  {}

  lemma ThirdReserves(w: World, clock: Time, base: int, k: int, s: Step)
    requires 0 < clock && s == Reserves(2, k, clock, Acknowledged) && ThirdReady(w, clock, base, k)
    ensures ThirdReserved(Do(w, s), clock, base, k)
  {
    assert Live(w, 2) && MayStartSession(w.orders[0], w.processes[2].seen, k) && !Taken(Current(w), k);
  }

  predicate ThirdReserved(w: World, clock: Time, base: int, k: int) {
    && |w.processes| == 3 && Live(w, 2) && HoldOf(w.runtime.jobs, Session(base, k)) == Up
    && w.processes[2].stage == Cleared(k, ReservedAt(4, FirstRecord(clock, base).(revision := 3)))
    && w.processes[2].seen.Some? && w.processes[2].seen.value.basePipeline == base
  }

  lemma ThirdAdopts(w: World, clock: Time, base: int, k: int, s: Step)
    requires s == SessionStarts(2, Mounted) && ThirdReserved(w, clock, base, k)
    ensures Adopts(Do(w, s).log, base, k)
  {
    assert SessionFor(w.processes[2], k) == Session(base, k);
  }

  /** The last thing in the log: the third dispatch, its reservation revision 4, is handed the session. */
  predicate Adopts(log: seq<Event>, base: int, k: int) {
    |log| > 0 && log[|log| - 1] == SessionStarted(2, Session(base, k), false, 4)
  }

  lemma MistakesRun(w: World, clock: Time, a: nat, base: int, k: int)
    requires 0 < clock && Begun(w, clock, a, base, 2)
    ensures var x := Run(w, MistakenSteps(clock, k));
      && Mistaken(x, clock, base, k) && HoldOf(x.runtime.jobs, Session(base, k)) == Up
      && x.clock == clock && x.orders == w.orders && |x.processes| == 2
  {
    MistakesSteps(w, [Reserves(0, k, clock, LostError), Reserves(1, k, clock, Acknowledged)], clock, a, base, k);
  }

  lemma MistakesSteps(w: World, p: seq<Step>, clock: Time, a: nat, base: int, k: int)
    requires 0 < clock && Begun(w, clock, a, base, 2)
    requires |p| == 2 && p[0] == Reserves(0, k, clock, LostError) && p[1] == Reserves(1, k, clock, Acknowledged)
    ensures var x := Run(w, p + [SessionStarts(1, Mounted)]);
      && Mistaken(x, clock, base, k) && HoldOf(x.runtime.jobs, Session(base, k)) == Up
      && x.clock == clock && x.orders == w.orders && |x.processes| == 2
  {
    RunMore(w, p, SessionStarts(1, Mounted));
    RunTwo(w, p);
    ReservesLost(w, clock, a, base, k, p[0]);
    ReservesToo(Do(w, p[0]), clock, base, k, p[1]);
    MistakesSecond(Run(w, p), clock, base, k, SessionStarts(1, Mounted));
  }

  lemma ThirdRuns(w: World, clock: Time, base: int, k: int)
    requires 0 < clock && Mistaken(w, clock, base, k) && HoldOf(w.runtime.jobs, Session(base, k)) == Up
    requires w.clock == clock && |w.orders| == 1 && w.orders[0].basePipeline == base && |w.processes| == 2
    requires w.orders[0].fireBy == FireBy(clock)
    ensures Adopts(Run(w, ThirdSteps(clock, k)).log, base, k)
  {
    ThirdStarts(w, clock, base, k, AgainSteps(clock));
    ThirdMakes(Run(w, AgainSteps(clock)), clock, base, k, MakeSteps(2, clock, k));
    RunSplits(w, AgainSteps(clock), MakeSteps(2, clock, k));
  }

  lemma ThirdStarts(w: World, clock: Time, base: int, k: int, p: seq<Step>)
    requires 0 < clock && Mistaken(w, clock, base, k) && HoldOf(w.runtime.jobs, Session(base, k)) == Up
    requires w.clock == clock && |w.orders| == 1 && w.orders[0].basePipeline == base && |w.processes| == 2
    requires w.orders[0].fireBy == FireBy(clock)
    requires |p| == 2 && p[0] == Releases(0) && p[1] == ProcessStarts(0, clock)
    ensures ThirdReady(Run(w, p), clock, base, k)
  {
    RunTwo(w, p);
    FirstGivesUp(w, clock, base, k, p[0]);
    ThirdBegins(Do(w, p[0]), clock, base, k, p[1]);
  }

  lemma ThirdMakes(w: World, clock: Time, base: int, k: int, p: seq<Step>)
    requires 0 < clock && ThirdReady(w, clock, base, k)
    requires |p| == 2 && p[0] == Reserves(2, k, clock, Acknowledged) && p[1] == SessionStarts(2, Mounted)
    ensures Adopts(Run(w, p).log, base, k)
  {
    RunTwo(w, p);
    ThirdReserves(w, clock, base, k, p[0]);
    ThirdAdopts(Do(w, p[0]), clock, base, k, p[1]);
  }

  /** A run from an empty store in which a dispatch, giving up, writes over the reservation of another
      whose session is up; a third is then let through, and is handed that session. */
  lemma GivesUpAnothers(clock: Time, a: nat, base: int, k: int)
    requires 0 < clock
    ensures var steps := LookSteps(a, base, 0) + (TwiceSteps(clock) + MistakenSteps(clock, k));
      && Mistaken(Run(Start(clock), steps), clock, base, k)
      && Adopts(Run(Start(clock), steps + ThirdSteps(clock, k)).log, base, k)
  {
    var w, steps := Run(Start(clock), LookSteps(a, base, 0)), TwiceSteps(clock) + MistakenSteps(clock, k);
    AfterLook(clock, a, base, steps);
    RunSplits(w, TwiceSteps(clock), MistakenSteps(clock, k));
    BeginsTwice(w, clock, a, base);
    MistakesRun(Run(w, TwiceSteps(clock)), clock, a, base, k);
    RunSplits(Start(clock), LookSteps(a, base, 0) + steps, ThirdSteps(clock, k));
    ThirdRuns(Run(w, steps), clock, base, k);
  }
}
