/** What every run of the fix protocol keeps. */
module FixProtocolSafety {
  import opened Basics
  import opened FixRecord
  import opened FixProtocol

  // ---- the store's history ----

  /** A write that an order may follow carries its own deadline, and replaced nothing whose window
      was still open by its writer's clock. */
  predicate Disciplined(ws: seq<Write>, i: nat)
    requires i < |ws|
  {
    ws[i].pass.Some? ==>
      && ws[i].record.fireBy == FireBy(ws[i].now) && 0 < ws[i].now
      && (i > 0 ==> !WindowOpen(ws[i - 1].record, ws[i].now))
  }

  /** A record with a fix state is nobody's to dispatch: its window is over. */
  predicate Shut(r: Record, clock: Time) { r.fixState != NoFixState ==> !WindowOpen(r, clock) }

  /** A parked record carries no deadline, and no stamp that would give it one. */
  predicate Plain(r: Record) { r.state == Parked ==> r.fireBy == ZERO_TIME && r.reslungAt == ZERO_TIME }

  predicate GoodWrite(ws: seq<Write>, i: nat, clock: Time)
    requires i < |ws|
  {
    && ws[i].record.revision == i + 1 && ws[i].now <= clock
    && Disciplined(ws, i) && Shut(ws[i].record, clock) && Plain(ws[i].record)
  }

  ghost predicate History(ws: seq<Write>, clock: Time) {
    0 < clock && forall i | 0 <= i < |ws| :: GoodWrite(ws, i, clock)
  }

  lemma HistoryTick(ws: seq<Write>, clock: Time, d: nat)
    requires History(ws, clock)
    ensures History(ws, clock + d)
  {
    var later := clock + d;
    forall i | 0 <= i < |ws| ensures GoodWrite(ws, i, later) { assert GoodWrite(ws, i, clock); }
  }

  lemma HistoryLand(ws: seq<Write>, x: Write, clock: Time)
    requires History(ws, clock) && GoodWrite(ws + [x], |ws|, clock)
    ensures History(ws + [x], clock)
  {
    forall i | 0 <= i < |ws| ensures GoodWrite(ws + [x], i, clock) { assert GoodWrite(ws, i, clock); }
  }

  /** The record a pass read is one the store held. */
  predicate Stored(ws: seq<Write>, r: Record) { 1 <= r.revision <= |ws| && ws[r.revision - 1].record == r }

  lemma StoredShut(ws: seq<Write>, clock: Time, r: Record)
    requires History(ws, clock) && Stored(ws, r)
    ensures Shut(r, clock)
  {
    assert GoodWrite(ws, r.revision - 1, clock);
  }

  lemma CurrentStored(w: World)
    requires History(w.writes, w.clock) && Current(w).Some?
    ensures Stored(w.writes, Current(w).value) && Current(w).value.revision == |w.writes|
  {
    assert GoodWrite(w.writes, |w.writes| - 1, w.clock);
  }

  // ---- evidence in the log ----

  /** Somebody was told what became of the attempt, or the check had waited long enough. */
  predicate Tells(e: Event, a: nat, k: int) {
    e == Shown(a, k) || (e.BoundPassed? && e.actor == a && e.attempt == k && e.bound <= e.now)
  }

  predicate Told(log: seq<Event>, a: nat, k: int) {
    exists i | 0 <= i < |log| :: Tells(log[i], a, k)
  }

  predicate ReportedBy(log: seq<Event>, a: nat, k: int) { Reported(a, k) in log }

  /** Shown, then reported. */
  predicate ReportedAfterTold(log: seq<Event>, a: nat, k: int) {
    exists j | 0 <= j < |log| :: log[j] == Reported(a, k) && Told(log[..j], a, k)
  }

  predicate WroteLast(log: seq<Event>, pass: Pass, a: nat, revision: nat, k: int) {
    exists l | 0 <= l < |log| :: log[l] == Wrote(a, revision) && Earned(log[..l], pass, a, k)
  }

  /** What a pass owes before its write. */
  predicate Earned(log: seq<Event>, pass: Pass, a: nat, k: int) {
    match pass
    case Look => true
    case Check => ReportedAfterTold(log, a, k)
    case Retry => ReportedBy(log, a, k)
    case Unpark => false
  }

  lemma ToldGrows(log: seq<Event>, more: seq<Event>, a: nat, k: int)
    requires Told(log, a, k)
    ensures Told(log + more, a, k)
  {
    var i :| 0 <= i < |log| && Tells(log[i], a, k);
    assert (log + more)[i] == log[i];
  }

  lemma ReportGrows(log: seq<Event>, more: seq<Event>, a: nat, k: int)
    requires ReportedAfterTold(log, a, k)
    ensures ReportedAfterTold(log + more, a, k)
  {
    var j :| 0 <= j < |log| && log[j] == Reported(a, k) && Told(log[..j], a, k);
    assert (log + more)[j] == log[j] && (log + more)[..j] == log[..j];
  }

  lemma WroteGrows(log: seq<Event>, more: seq<Event>, pass: Pass, a: nat, revision: nat, k: int)
    requires WroteLast(log, pass, a, revision, k)
    ensures WroteLast(log + more, pass, a, revision, k)
  {
    var l :| 0 <= l < |log| && log[l] == Wrote(a, revision) && Earned(log[..l], pass, a, k);
    assert (log + more)[l] == log[l] && (log + more)[..l] == log[..l];
  }

  // ---- what each pass knows ----

  /** The attempt a landed write settled: the one on the record it replaced. */
  function JudgedBy(ws: seq<Write>, revision: nat): int
    requires 1 <= revision <= |ws|
  {
    if revision == 1 then 0 else Attempt(ws[revision - 2].record)
  }

  /** An exit check's re-sling leaves room under the project's cap. */
  predicate UnderCap(r: Record) { r.maxAttempts > 0 ==> r.attempt < r.maxAttempts }

  predicate WonWrite(ws: seq<Write>, pass: Pass, a: nat, revision: nat) {
    && 1 <= revision <= |ws|
    && ws[revision - 1].pass == Some(pass) && ws[revision - 1].actor == a
    && (pass == Check ==> revision > 1 && UnderCap(ws[revision - 2].record))
  }

  predicate Knows(ws: seq<Write>, log: seq<Event>, clock: Time, a: nat, p: Phase) {
    match p
    case LookStarted(now) => 0 < now <= clock
    case LookDecided(now, before, r) =>
      && 0 < now <= clock && r.fireBy == FireBy(now) && r.fixState == NoFixState && r.state == NoWorkState
      && (before.Some? ==> Stored(ws, before.value) && !WindowOpen(before.value, now))
    case Listed(pass, seen) => Stored(ws, seen) && seen.state == if pass == Unpark then Parked else Running
    case CheckRuled(now, seen, state, retry) => CheckKnows(ws, clock, now, seen, state, retry)
    case CheckShown(now, seen, state, retry) =>
      CheckKnows(ws, clock, now, seen, state, retry) && Told(log, a, Attempt(seen))
    case CheckReported(now, seen, state, retry) =>
      CheckKnows(ws, clock, now, seen, state, retry) && state in OUTCOME_STATES
        && ReportedAfterTold(log, a, Attempt(seen))
    case CheckWaiting(now, seen, _) => now <= clock && Stored(ws, seen) && OpenFix(seen) && seen.state == Running
    case RetryReported(now, seen) =>
      && now <= clock && Stored(ws, seen) && seen.fixState == NoFixState && seen.state == Running
      && !WindowOpen(seen, now)
      && ReportedBy(log, a, Attempt(seen))
    case Concluding(now, seen, ending) =>
      && now <= clock && Stored(ws, seen) && seen.fixState == NoFixState && seen.state == Running
      && !WindowOpen(seen, now) && MayEnd(seen, ending)
      && (ending.Finished? ==> ReportedBy(log, a, Attempt(seen)))
    case Reaping(read) => read <= |ws|
    case Won(pass, rev) => WonWrite(ws, pass, a, rev) && WroteLast(log, pass, a, rev, JudgedBy(ws, rev))
    case Ended => true
  }

  predicate CheckKnows(ws: seq<Write>, clock: Time, now: Time, seen: Record, state: FixState, retry: bool) {
    now <= clock && Stored(ws, seen) && OpenFix(seen) && seen.state == Running && (retry ==> UnderCap(seen))
  }

  ghost predicate AllKnow(w: World) {
    forall a | a in w.actors :: Knows(w.writes, w.log, w.clock, a, w.actors[a])
  }

  /** What a pass knows stays true as others act. */
  lemma KnowsGrows(ws: seq<Write>, more: seq<Write>, log: seq<Event>, events: seq<Event>, clock: Time, d: nat,
                   a: nat, p: Phase)
    requires Knows(ws, log, clock, a, p)
    ensures Knows(ws + more, log + events, clock + d, a, p)
  {
    match p
    case CheckShown(_, seen, _, _) => ToldGrows(log, events, a, Attempt(seen));
    case CheckReported(_, seen, _, _) => ReportGrows(log, events, a, Attempt(seen));
    case Won(pass, rev) => WroteGrows(log, events, pass, a, rev, JudgedBy(ws, rev));
    case _ =>
  }

  // ---- the invariant ----

  predicate OrderGood(w: World, o: Order) {
    && o.actor in w.actors && w.actors[o.actor] == Ended
    && (o.pass != Unpark ==>
      WonWrite(w.writes, o.pass, o.actor, o.revision) && o.fireBy == w.writes[o.revision - 1].record.fireBy)
  }

  ghost predicate OrdersGood(w: World) {
    && (forall n | 0 <= n < |w.orders| :: OrderGood(w, w.orders[n]))
    && (forall m, n | 0 <= m < n < |w.orders| :: w.orders[m].actor != w.orders[n].actor)
  }

  /** An order was fired only after its write; a session started only where the record allows it. */
  predicate EventGood(w: World, n: nat)
    requires n < |w.log|
  {
    match w.log[n]
    case Fired(m) =>
      && m < |w.orders|
      && (w.orders[m].pass != Unpark ==>
        && 1 <= w.orders[m].revision <= |w.writes|
        && WroteLast(w.log[..n], w.orders[m].pass, w.orders[m].actor, w.orders[m].revision,
                     JudgedBy(w.writes, w.orders[m].revision)))
    case SessionStarted(p, s, _, _) =>
      && p < |w.processes| && w.processes[p].order < |w.orders|
      && MayStartSession(w.orders[w.processes[p].order], w.processes[p].seen, s.attempt)
      && s.basePipeline == w.processes[p].seen.value.basePipeline
    case _ => true
  }

  ghost predicate LogGood(w: World) { forall n | 0 <= n < |w.log| :: EventGood(w, n) }

  /** What a dispatch would put back opens no window over a fix state, and parks nothing with a stamp. */
  predicate Harmless(r: Reservation, clock: Time) {
    !r.NotReserved? ==> Shut(r.release, clock) && Plain(r.release)
  }

  /** A process past its reservation was allowed a session for its attempt. */
  predicate StageGood(o: Order, seen: Option<Record>, stage: Stage, clock: Time) {
    match stage
    case Cleared(k, r) => MayStartSession(o, seen, k) && Harmless(r, clock)
    case Admitted(k, r, _) => MayStartSession(o, seen, k) && Harmless(r, clock)
    case Failing(k, r, _) => MayStartSession(o, seen, k) && Harmless(r, clock)
    case _ => true
  }

  /** A dispatch of an order with a deadline started by that deadline, give or take the clock, and
      after the order's write; it is dead soon after. */
  predicate ProcessGood(w: World, p: Process) {
    && p.order < |w.orders| && StageGood(w.orders[p.order], p.seen, p.stage, w.clock)
    && p.startedAt <= w.clock && p.killAt == p.startedAt + DISPATCH_TIMEOUT + KILL_GRACE
    && (w.orders[p.order].fireBy != ZERO_TIME ==> p.startedAt - CLOCK_MARGIN <= w.orders[p.order].fireBy)
    && (w.orders[p.order].pass != Unpark ==>
      && 1 <= w.orders[p.order].revision <= |w.writes|
      && w.writes[w.orders[p.order].revision - 1].now <= p.startedAt)
  }

  ghost predicate ProcessesGood(w: World) { forall n | 0 <= n < |w.processes| :: ProcessGood(w, w.processes[n]) }

  ghost predicate Inv(w: World) {
    History(w.writes, w.clock) && AllKnow(w) && OrdersGood(w) && LogGood(w) && ProcessesGood(w)
  }

  // ---- how a step moves the world ----

  predicate Quiet(e: Event) { !e.Fired? && !e.SessionStarted? }

  /** Everything but orders and processes: time passes, records are written, events are logged, and
      one pass moves on. */
  function Moved(w: World, a: nat, p: Phase, more: seq<Write>, events: seq<Event>): World {
    w.(writes := w.writes + more, actors := w.actors[a := p], log := w.log + events)
  }

  /** The same, with no pass moving. */
  function Grown(w: World, d: nat, more: seq<Write>, events: seq<Event>): World {
    w.(clock := w.clock + d, writes := w.writes + more, log := w.log + events)
  }

  lemma GrownKnows(w: World, d: nat, more: seq<Write>, events: seq<Event>)
    requires AllKnow(w)
    ensures AllKnow(Grown(w, d, more, events))
  {
    var x := Grown(w, d, more, events);
    forall a | a in x.actors ensures Knows(x.writes, x.log, x.clock, a, x.actors[a]) {
      assert Knows(w.writes, w.log, w.clock, a, w.actors[a]);
      KnowsGrows(w.writes, more, w.log, events, w.clock, d, a, w.actors[a]);
    }
  }

  lemma GrownOrders(w: World, d: nat, more: seq<Write>, events: seq<Event>)
    requires OrdersGood(w)
    ensures OrdersGood(Grown(w, d, more, events))
  {
    var x := Grown(w, d, more, events);
    forall n | 0 <= n < |x.orders| ensures OrderGood(x, x.orders[n]) { assert OrderGood(w, w.orders[n]); }
  }

  lemma GrownLog(w: World, d: nat, more: seq<Write>, events: seq<Event>)
    requires LogGood(w) && forall e | e in events :: Quiet(e)
    ensures LogGood(Grown(w, d, more, events))
  {
    var x := Grown(w, d, more, events);
    forall n | 0 <= n < |x.log| ensures EventGood(x, n) {
      if n < |w.log| {
        assert EventGood(w, n) && x.log[n] == w.log[n] && x.log[..n] == w.log[..n];
      } else {
        assert x.log[n] == events[n - |w.log|] && Quiet(x.log[n]);
      }
    }
  }

  lemma GrownProcesses(w: World, d: nat, more: seq<Write>, events: seq<Event>)
    requires ProcessesGood(w)
    ensures ProcessesGood(Grown(w, d, more, events))
  {
    var x := Grown(w, d, more, events);
    forall n | 0 <= n < |x.processes| ensures ProcessGood(x, x.processes[n]) { assert ProcessGood(w, w.processes[n]); }
  }

  lemma GrownKeeps(w: World, d: nat, more: seq<Write>, events: seq<Event>)
    requires Inv(w) && History(w.writes + more, w.clock + d) && forall e | e in events :: Quiet(e)
    ensures Inv(Grown(w, d, more, events))
  {
    GrownKnows(w, d, more, events);
    GrownOrders(w, d, more, events);
    GrownLog(w, d, more, events);
    GrownProcesses(w, d, more, events);
  }

  /** No order is any pass's that has not ended. */
  predicate Free(w: World, a: nat) { a !in w.actors || w.actors[a] != Ended }

  lemma MoveOnly(w: World, a: nat, p: Phase)
    requires Inv(w) && Free(w, a) && Knows(w.writes, w.log, w.clock, a, p)
    ensures Inv(Move(w, a, p))
  {
    var x := Move(w, a, p);
    forall b | b in x.actors ensures Knows(x.writes, x.log, x.clock, b, x.actors[b]) {
      if b != a { assert b in w.actors && Knows(w.writes, w.log, w.clock, b, w.actors[b]); }
    }
    forall n | 0 <= n < |x.orders| ensures OrderGood(x, x.orders[n]) { assert OrderGood(w, w.orders[n]); }
    forall n | 0 <= n < |x.log| ensures EventGood(x, n) { assert EventGood(w, n); }
    forall n | 0 <= n < |x.processes| ensures ProcessGood(x, x.processes[n]) { assert ProcessGood(w, w.processes[n]); }
  }

  lemma MovedKeeps(w: World, a: nat, p: Phase, more: seq<Write>, events: seq<Event>)
    requires Inv(w) && Free(w, a) && History(w.writes + more, w.clock) && forall e | e in events :: Quiet(e)
    requires Knows(w.writes + more, w.log + events, w.clock, a, p)
    ensures Inv(Moved(w, a, p, more, events))
  {
    GrownKeeps(w, 0, more, events);
    MoveOnly(Grown(w, 0, more, events), a, p);
    assert Moved(w, a, p, more, events) == Move(Grown(w, 0, more, events), a, p);
  }

  /** A step of one pass: a conditional write, events, and its next phase. */
  lemma WroteKeeps(w: World, pass: Option<Pass>, a: nat, r: Record, ifRevision: nat, reply: Reply,
                   now: Time, next: Phase)
    requires Inv(w) && Free(w, a)
    requires |w.writes| == ifRevision ==>
      GoodWrite(w.writes + [Write(pass, a, r.(revision := ifRevision + 1), now)], ifRevision, w.clock)
    requires Knows(PutIf(w, pass, a, r, ifRevision, reply, now).writes,
                   PutIf(w, pass, a, r, ifRevision, reply, now).log, w.clock, a, next)
    ensures Inv(Move(PutIf(w, pass, a, r, ifRevision, reply, now), a, next))
  {
    if Lands(w, ifRevision, reply) {
      var x := Write(pass, a, r.(revision := ifRevision + 1), now);
      HistoryLand(w.writes, x, w.clock);
      MovedKeeps(w, a, next, [x], [Wrote(a, ifRevision + 1)]);
      assert Moved(w, a, next, [x], [Wrote(a, ifRevision + 1)]) == Move(Landed(w, pass, a, r, now), a, next);
    } else {
      MoveOnly(w, a, next);
    }
  }
}
