/** Runs in which a fix's dispatches meet: two orders live at once, and two unparks of one record. */
module FixProtocolWitness {
  import opened Basics
  import opened FixRecord
  import opened FixProtocol
  import opened FixProtocolSafety
  import opened FixProtocolSteps
  import opened FixProtocolTheorems
  import opened FixProtocolLive

  function FirstRecord(clock: Time, base: int): Record { FreshRecord(base, 0, clock).(revision := 1) }

  function FirstProcess(clock: Time, base: int): Process {
    Process(0, clock, clock + DISPATCH_TIMEOUT + KILL_GRACE, Some(FirstRecord(clock, base)), Deciding)
  }

  /** One look has dispatched the fix; its order has been processed n times. */
  predicate Begun(w: World, clock: Time, a: nat, base: int, n: nat) {
    && w.clock == clock && w.actors.Keys == {a}
    && w.orders == [Order(Look, a, 1, FireBy(clock), base)]
    && |w.writes| == 1 && w.writes[0].record == FirstRecord(clock, base)
    && w.runtime.jobs == map[] && |w.processes| == n
    && forall i | 0 <= i < n :: w.processes[i] == FirstProcess(clock, base)
  }

  predicate Looked(w: World, clock: Time, a: nat, base: int) { Begun(w, clock, a, base, 0) }

  lemma BeginsMore(w: World, clock: Time, a: nat, base: int, n: nat, order: nat)
    requires 0 < clock && Begun(w, clock, a, base, n) && order == 0
    ensures Begun(ProcessStart(w, order, clock), clock, a, base, n + 1)
  {}

  lemma LookFirst(clock: Time, a: nat, base: int)
    requires 0 < clock
    ensures Looked(Run(Start(clock), LookSteps(a, base, 0)), clock, a, base)
  {
    LookAloneFires(Start(clock), a, base, 0);
  }

  lemma AfterLook(clock: Time, a: nat, base: int, tail: seq<Step>)
    requires 0 < clock
    ensures Run(Start(clock), LookSteps(a, base, 0) + tail) == Run(Run(Start(clock), LookSteps(a, base, 0)), tail)
    ensures Looked(Run(Start(clock), LookSteps(a, base, 0)), clock, a, base)
  {
    LookFirst(clock, a, base);
    RunSplits(Start(clock), LookSteps(a, base, 0), tail);
  }

  /** A live dispatch of the first order, and a record over which another pass may fire. */
  predicate Exposed(w: World, a: nat) {
    && |w.processes| >= 1 && w.processes[0].order == 0 && Alive(w.processes[0], w.clock)
    && w.actors.Keys == {a} && MayFire(Current(w), w.clock)
  }

  // ---- the same order, twice started ----

  function TwiceSteps(clock: Time): seq<Step> { [ProcessStarts(0, clock), ProcessStarts(0, clock)] }

  lemma BeginsTwice(w: World, clock: Time, a: nat, base: int)
    requires 0 < clock && Looked(w, clock, a, base)
    ensures Begun(Run(w, TwiceSteps(clock)), clock, a, base, 2)
  {
    RunTwo(w, TwiceSteps(clock));
    BeginsMore(w, clock, a, base, 0, 0);
    BeginsMore(ProcessStart(w, 0, clock), clock, a, base, 1, 0);
  }

  /** The order is processed twice, and the second dispatch finds the fix's run moved: it puts the fix
      back to "not dispatched" and is over. The first lives on. */
  function ReleaseSteps(clock: Time): seq<Step> {
    TwiceSteps(clock) + [PreflightReleases(1, Acknowledged)]
  }

  lemma ReleasedExposes(w: World, clock: Time, a: nat, base: int, n: nat, reply: Reply)
    requires 0 < clock && Begun(w, clock, a, base, n + 1) && n > 0 && reply == Acknowledged
    ensures Exposed(PreflightRelease(w, n, reply), a)
  {
    assert Live(w, n) && MayDecide(w.orders[0], w.processes[n].seen);
  }

  lemma ReleaseExposes(w: World, clock: Time, a: nat, base: int)
    requires 0 < clock && Looked(w, clock, a, base)
    ensures Exposed(Run(w, ReleaseSteps(clock)), a)
  {
    BeginsTwice(w, clock, a, base);
    ReleasedExposes(Run(w, TwiceSteps(clock)), clock, a, base, 1, Acknowledged);
    RunMore(w, TwiceSteps(clock), PreflightReleases(1, Acknowledged));
  }

  /** The same, with the second dispatch's answer deferred: the fix is parked. */
  function ParkSteps(clock: Time, attempt: int): seq<Step> {
    TwiceSteps(clock) + [Answers(1, Parked, attempt)]
  }

  predicate ParkedOnce(w: World) {
    Current(w).Some? && Current(w).value.state == Parked && |w.writes| == 2 && |w.orders| == 1
  }

  lemma ParkedExposes(w: World, clock: Time, a: nat, base: int, n: nat, state: WorkState, attempt: int)
    requires 0 < clock && Begun(w, clock, a, base, n + 1) && n > 0 && state == Parked
    ensures Exposed(Answer(w, n, state, attempt), a) && ParkedOnce(Answer(w, n, state, attempt))
  {
    assert Live(w, n) && MayDecide(w.orders[0], w.processes[n].seen);
    assert NotSuperseded(Current(w), w.processes[n].seen.value);
  }

  lemma ParkExposes(w: World, clock: Time, a: nat, base: int, attempt: int)
    requires 0 < clock && Looked(w, clock, a, base)
    ensures Exposed(Run(w, ParkSteps(clock, attempt)), a) && ParkedOnce(Run(w, ParkSteps(clock, attempt)))
  {
    BeginsTwice(w, clock, a, base);
    ParkedExposes(Run(w, TwiceSteps(clock)), clock, a, base, 1, Parked, attempt);
    RunMore(w, TwiceSteps(clock), Answers(1, Parked, attempt));
  }

  // ---- one dispatch that does everything ----

  /** The dispatch reserves, starts its session, and writes the running record; it has yet to say so. */
  function RunningSteps(clock: Time, attempt: int): seq<Step> {
    [ProcessStarts(0, clock), Reserves(0, attempt, clock, Acknowledged)]
    + [SessionStarts(0, Mounted), RunningPuts(0, clock, Acknowledged)]
  }

  /** The one dispatch, past its reservation. */
  predicate Held(w: World, clock: Time, a: nat, base: int, attempt: int) {
    && w.clock == clock && w.actors.Keys == {a} && |w.orders| == 1
    && |w.processes| == 1 && w.processes[0].order == 0 && w.processes[0].stage.Cleared?
    && w.processes[0].seen == Some(FirstRecord(clock, base)) && Alive(w.processes[0], clock)
    && w.processes[0].stage.attempt == attempt && w.runtime.jobs == map[]
  }

  lemma ReserveHolds(w: World, clock: Time, a: nat, base: int, n: nat, attempt: int, reply: Reply)
    requires 0 < clock && Begun(w, clock, a, base, n + 1) && n == 0 && reply == Acknowledged
    ensures Held(Reserve(w, n, attempt, clock, reply), clock, a, base, attempt)
  {
    assert Live(w, n) && MayStartSession(w.orders[0], w.processes[n].seen, attempt) && !Taken(Current(w), attempt);
  }

  lemma RecordExposes(w: World, clock: Time, a: nat, base: int, n: nat, attempt: int, secret: Secret, reply: Reply)
    requires 0 < clock && Held(w, clock, a, base, attempt) && n == 0 && secret == Mounted && reply == Acknowledged
    ensures Exposed(RunningPut(SessionStart(w, n, secret), n, clock, reply), a)
  {
    var t := SessionStart(w, n, secret);
    assert Live(t, n) && t.processes[n].stage.Admitted?;
  }

  lemma RunningExposes(w: World, clock: Time, a: nat, base: int, attempt: int)
    requires 0 < clock && Looked(w, clock, a, base)
    ensures Exposed(Run(w, RunningSteps(clock, attempt)), a)
  {
    RunTwo(w, [ProcessStarts(0, clock), Reserves(0, attempt, clock, Acknowledged)]);
    BeginsMore(w, clock, a, base, 0, 0);
    ReserveHolds(ProcessStart(w, 0, clock), clock, a, base, 0, attempt, Acknowledged);
    var first := [ProcessStarts(0, clock), Reserves(0, attempt, clock, Acknowledged)];
    RecordRuns(w, first, [SessionStarts(0, Mounted), RunningPuts(0, clock, Acknowledged)], clock, a, base, attempt);
  }

  lemma RecordRuns(w: World, first: seq<Step>, tail: seq<Step>, clock: Time, a: nat, base: int, attempt: int)
    requires 0 < clock && Held(Run(w, first), clock, a, base, attempt)
    requires |tail| == 2 && tail[0] == SessionStarts(0, Mounted)
      && tail[1] == RunningPuts(0, clock, Acknowledged)
    ensures Exposed(Run(w, first + tail), a)
  {
    RunSplits(w, first, tail);
    var x := Run(w, first);
    RunTwo(x, tail);
    RecordExposes(x, clock, a, base, 0, attempt, Mounted, Acknowledged);
  }

  // ---- two live ----

  lemma ExposedLets(clock: Time, steps: seq<Step>, a: nat, b: nat)
    requires 0 < clock && a != b && Exposed(Run(Start(clock), steps), a)
    ensures var w := Run(Start(clock), steps);
      exists ss :: OwnSteps(ss, b, |w.orders|) && SecondLive(w, Run(w, ss), 0)
  {
    SecondLiveExactly(clock, steps, 0, b);
  }

  /** Two orders with live dispatches at once, and the ways it comes about: a second dispatch of the first
      order releases the fix, and a look fires; or has it parked, and an unpark fires; or the first
      dispatch has written its running record and not yet returned, and a failed session's re-sling
      fires. In each the first order's dispatch is another than the one that is over. */
  lemma TwoLive(clock: Time, a: nat, b: nat, base: int, attempt: int, tail: seq<Step>)
    requires 0 < clock && a != b
    requires tail in {ReleaseSteps(clock), ParkSteps(clock, attempt), RunningSteps(clock, attempt)}
    ensures var w := Run(Start(clock), LookSteps(a, base, 0) + tail);
      exists ss :: OwnSteps(ss, b, |w.orders|) && SecondLive(w, Run(w, ss), 0)
  {
    AfterLook(clock, a, base, tail);
    var w := Run(Start(clock), LookSteps(a, base, 0));
    if tail == ReleaseSteps(clock) {
      ReleaseExposes(w, clock, a, base);
    } else if tail == ParkSteps(clock, attempt) {
      ParkExposes(w, clock, a, base, attempt);
    } else {
      RunningExposes(w, clock, a, base, attempt);
    }
    ExposedLets(clock, LookSteps(a, base, 0) + tail, a, b);
  }

  // ---- two unparks ----

  function UnparkSteps(b: nat, c: nat): seq<Step> { [Lists(b, Unpark), Lists(c, Unpark)] + [Unparks(b), Unparks(c)] }

  function UnparkOrder(b: nat, r: Record): Order { Order(Unpark, b, r.revision, r.fireBy, r.basePipeline) }

  /** Of a parked record, every pass that lists it fires, and none of them writes anything. */
  lemma UnparksRepeat(w: World, b: nat, c: nat)
    requires Current(w).Some? && Current(w).value.state == Parked && b !in w.actors && c !in w.actors && b != c
    ensures var x := Run(w, UnparkSteps(b, c));
      && x.writes == w.writes
      && x.orders == w.orders + [UnparkOrder(b, Current(w).value), UnparkOrder(c, Current(w).value)]
  {
    RunSplits(w, [Lists(b, Unpark), Lists(c, Unpark)], [Unparks(b), Unparks(c)]);
    RunTwo(w, [Lists(b, Unpark), Lists(c, Unpark)]);
    var y := List(List(w, b, Unpark), c, Unpark);
    assert y.actors[b] == Listed(Unpark, Current(w).value) && y.actors[c] == Listed(Unpark, Current(w).value);
    RunTwo(y, [Unparks(b), Unparks(c)]);
  }

  /** An unpark has no write of its own: in this run two of them fire from the same one. */
  lemma TwoUnparksFire(clock: Time, a: nat, b: nat, c: nat, base: int, attempt: int)
    requires 0 < clock && a != b && a != c && b != c
    ensures var w := Run(Start(clock), LookSteps(a, base, 0) + ParkSteps(clock, attempt) + UnparkSteps(b, c));
      && |w.orders| == 3 && w.orders[1].pass == Unpark && w.orders[2].pass == Unpark
      && w.orders[1].actor == b && w.orders[2].actor == c
      && w.orders[1].revision == w.orders[2].revision == 2 && |w.writes| == 2
  {
    var steps := LookSteps(a, base, 0) + ParkSteps(clock, attempt);
    var w := Run(Start(clock), steps);
    AfterLook(clock, a, base, ParkSteps(clock, attempt));
    ParkExposes(Run(Start(clock), LookSteps(a, base, 0)), clock, a, base, attempt);
    RunKeeps(clock, steps);
    CurrentStored(w);
    UnparksRepeat(w, b, c);
    RunSplits(Start(clock), steps, UnparkSteps(b, c));
  }
}
