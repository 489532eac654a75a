/** Every step of the fix protocol keeps its invariant, and so does every run. */
module FixProtocolSteps {
  import opened Basics
  import opened FixRecord
  import opened FixProtocol
  import opened FixProtocolSafety

  lemma PhaseKnown(w: World, a: nat)
    requires Inv(w) && a in w.actors
    ensures Knows(w.writes, w.log, w.clock, a, w.actors[a])
  {}

  // ---- looks ----

  lemma LookStartKeeps(w: World, a: nat)
    requires Inv(w)
    ensures Inv(LookStart(w, a))
  {
    if a !in w.actors { MoveOnly(w, a, LookStarted(w.clock)); }
  }

  lemma LookReadKeeps(w: World, a: nat, eligible: bool, basePipeline: int, maxAttempts: int)
    requires Inv(w)
    ensures Inv(LookRead(w, a, eligible, basePipeline, maxAttempts))
  {
    if a in w.actors && w.actors[a].LookStarted? {
      PhaseKnown(w, a);
      if Current(w).Some? {
        CurrentStored(w);
        DispatchOverExactly(Current(w).value, w.actors[a].now);
      }
      MoveOnly(w, a, LookRead(w, a, eligible, basePipeline, maxAttempts).actors[a]);
    }
  }

  /** What a look writes is a good write over the record it read. */
  lemma LookWriteGood(w: World, a: nat)
    requires Inv(w) && a in w.actors && w.actors[a].LookDecided?
    ensures var d := w.actors[a];
      |w.writes| == ExpectedRevision(d.before) ==>
        GoodWrite(w.writes + [Write(Some(Look), a, d.record.(revision := |w.writes| + 1), d.now)], |w.writes|, w.clock)
  {
    PhaseKnown(w, a);
  }

  lemma LookPutKeeps(w: World, a: nat, reply: Reply)
    requires Inv(w)
    ensures Inv(LookPut(w, a, reply))
  {
    if a in w.actors && w.actors[a].LookDecided? {
      PhaseKnown(w, a);
      var d := w.actors[a];
      var n := ExpectedRevision(d.before);
      WinningPut(w, Look, a, d.record, n, reply, d.now, Wins(w, n, reply));
      LookWriteGood(w, a);
      WroteKeeps(w, Some(Look), a, d.record, n, reply, d.now, After(Wins(w, n, reply), Look, n + 1));
    }
  }

  /** A pass that wins its write knows it, and what it owed before. */
  lemma WinningPut(w: World, pass: Pass, a: nat, r: Record, ifRevision: nat, reply: Reply, now: Time, won: bool)
    requires won ==> Wins(w, ifRevision, reply)
    requires won && pass == Check ==> ifRevision > 0 && UnderCap(w.writes[ifRevision - 1].record)
    requires won ==> Earned(w.log, pass, a, if ifRevision == 0 then 0 else Attempt(w.writes[ifRevision - 1].record))
    ensures var x := PutIf(w, Some(pass), a, r, ifRevision, reply, now);
            Knows(x.writes, x.log, w.clock, a, After(won, pass, ifRevision + 1))
  {
    if won {
      var x := PutIf(w, Some(pass), a, r, ifRevision, reply, now);
      var l := |w.log|;
      assert x.log[l] == Wrote(a, ifRevision + 1) && x.log[..l] == w.log;
      assert JudgedBy(x.writes, ifRevision + 1)
          == if ifRevision == 0 then 0 else Attempt(w.writes[ifRevision - 1].record);
    }
  }

  // ---- exit checks ----

  lemma ListKeeps(w: World, a: nat, pass: Pass)
    requires Inv(w)
    ensures Inv(List(w, a, pass))
  {
    if List(w, a, pass) != w {
      CurrentStored(w);
      MoveOnly(w, a, Listed(pass, Current(w).value));
    }
  }

  lemma CheckJudgeKeeps(w: World, a: nat, ruling: Ruling, runStands: bool)
    requires Inv(w)
    ensures Inv(CheckJudge(w, a, ruling, runStands))
  {
    if a in w.actors && w.actors[a].Listed? && w.actors[a].pass == Check {
      PhaseKnown(w, a);
      MoveOnly(w, a, CheckJudge(w, a, ruling, runStands).actors[a]);
    }
  }

  lemma CheckShowKeeps(w: World, a: nat, ok: bool)
    requires Inv(w)
    ensures Inv(CheckShow(w, a, ok))
  {
    if a in w.actors && w.actors[a].CheckRuled? {
      PhaseKnown(w, a);
      var c := w.actors[a];
      if !ok && c.now < VerifyBound(c.seen) {
        MoveOnly(w, a, Ended);
      } else {
        var e := if ok then Shown(a, Attempt(c.seen)) else BoundPassed(a, Attempt(c.seen), VerifyBound(c.seen), c.now);
        assert (w.log + [e])[|w.log|] == e && Tells(e, a, Attempt(c.seen));
        assert w.writes + [] == w.writes;
        MovedKeeps(w, a, CheckShown(c.now, c.seen, c.state, c.retry), [], [e]);
      }
    }
  }

  lemma CheckReportKeeps(w: World, a: nat, ok: bool)
    requires Inv(w)
    ensures Inv(CheckReport(w, a, ok))
  {
    if a in w.actors && w.actors[a].CheckShown? {
      PhaseKnown(w, a);
      var c := w.actors[a];
      if !ok || c.state !in OUTCOME_STATES {
        MoveOnly(w, a, Ended);
      } else {
        var e := Reported(a, Attempt(c.seen));
        assert (w.log + [e])[|w.log|] == e && (w.log + [e])[..|w.log|] == w.log;
        assert w.writes + [] == w.writes;
        MovedKeeps(w, a, CheckReported(c.now, c.seen, c.state, c.retry), [], [e]);
      }
    }
  }

  /** What a settlement writes is a good write over the record it judged. */
  lemma CheckWriteGood(w: World, a: nat)
    requires Inv(w) && a in w.actors && w.actors[a].CheckReported?
    ensures var c := w.actors[a];
      var s := SettledRecord(c.seen, c.state, c.retry, c.now, w.clock);
      var pass := if c.retry then Some(Check) else None;
      |w.writes| == c.seen.revision ==>
        GoodWrite(w.writes + [Write(pass, a, s.(revision := |w.writes| + 1), w.clock)], |w.writes|, w.clock)
  {
    PhaseKnown(w, a);
    StoredShut(w.writes, w.clock, w.actors[a].seen);
  }

  lemma CheckRetryKeeps(w: World, a: nat, s: Record, reply: Reply)
    requires Inv(w) && a in w.actors && w.actors[a].CheckReported? && w.actors[a].retry
    requires var c := w.actors[a]; s == SettledRecord(c.seen, c.state, true, c.now, w.clock)
    ensures var n := w.actors[a].seen.revision;
      Inv(Move(PutIf(w, Some(Check), a, s, n, reply, w.clock), a, After(Wins(w, n, reply), Check, n + 1)))
  {
    PhaseKnown(w, a);
    CheckWriteGood(w, a);
    var n := w.actors[a].seen.revision;
    WinningPut(w, Check, a, s, n, reply, w.clock, Wins(w, n, reply));
    WroteKeeps(w, Some(Check), a, s, n, reply, w.clock, After(Wins(w, n, reply), Check, n + 1));
  }

  lemma CheckSettleKeeps(w: World, a: nat, s: Record, reply: Reply)
    requires Inv(w) && a in w.actors && w.actors[a].CheckReported? && !w.actors[a].retry
    requires var c := w.actors[a]; s == SettledRecord(c.seen, c.state, false, c.now, w.clock)
    ensures Inv(Move(PutIf(w, None, a, s, w.actors[a].seen.revision, reply, w.clock), a, Ended))
  {
    PhaseKnown(w, a);
    CheckWriteGood(w, a);
    WroteKeeps(w, None, a, s, w.actors[a].seen.revision, reply, w.clock, Ended);
  }

  lemma CheckPutKeeps(w: World, a: nat, reply: Reply)
    requires Inv(w)
    ensures Inv(CheckPut(w, a, reply))
  {
    if a in w.actors && w.actors[a].CheckReported? {
      var c := w.actors[a];
      var s := SettledRecord(c.seen, c.state, c.retry, c.now, w.clock);
      if c.retry { CheckRetryKeeps(w, a, s, reply); } else { CheckSettleKeeps(w, a, s, reply); }
    }
  }

  lemma CheckWaitKeeps(w: World, a: nat, reply: Reply)
    requires Inv(w)
    ensures Inv(CheckWait(w, a, reply))
  {
    if a in w.actors && w.actors[a].CheckWaiting? {
      PhaseKnown(w, a);
      var c := w.actors[a];
      StoredShut(w.writes, w.clock, c.seen);
      var s := c.seen.(judgedAt := c.now,
                       fixState := if c.seen.fixState == AwaitingRun && c.started then Verifying else c.seen.fixState);
      WroteKeeps(w, None, a, s, c.seen.revision, reply, c.now, Ended);
    }
  }

  // ---- re-slings of failed sessions ----

  lemma RetryJudgeKeeps(w: World, a: nat, accepted: bool)
    requires Inv(w)
    ensures Inv(RetryJudge(w, a, accepted))
  {
    if a in w.actors && w.actors[a].Listed? && w.actors[a].pass == Retry {
      PhaseKnown(w, a);
      var r := w.actors[a].seen;
      if r.fixState != NoFixState || WindowOpen(r, w.clock) || !accepted {
        MoveOnly(w, a, Ended);
      } else {
        var e := Reported(a, Attempt(r));
        assert (w.log + [e])[|w.log|] == e;
        assert w.writes + [] == w.writes;
        MovedKeeps(w, a, RetryReported(w.clock, r), [], [e]);
      }
    }
  }

  lemma RetryPutKeeps(w: World, a: nat, reply: Reply)
    requires Inv(w)
    ensures Inv(RetryPut(w, a, reply))
  {
    if a in w.actors && w.actors[a].RetryReported? {
      PhaseKnown(w, a);
      var r := w.actors[a].seen;
      var s := r.(reslungAt := w.clock, fireBy := FireBy(w.clock));
      WinningPut(w, Retry, a, s, r.revision, reply, w.clock, Wins(w, r.revision, reply));
      WroteKeeps(w, Some(Retry), a, s, r.revision, reply, w.clock,
                 After(Wins(w, r.revision, reply), Retry, r.revision + 1));
      RuntimeKeeps(Move(PutIf(w, Some(Retry), a, s, r.revision, reply, w.clock), a,
                        After(Wins(w, r.revision, reply), Retry, r.revision + 1)), RetryPut(w, a, reply).runtime);
    }
  }

  // ---- orders and processes ----

  lemma FireKeeps(w: World, a: nat, o: Order)
    requires Inv(w) && a in w.actors && w.actors[a] != Ended && o.actor == a
    requires o.pass != Unpark ==>
      && WonWrite(w.writes, o.pass, a, o.revision) && o.fireBy == w.writes[o.revision - 1].record.fireBy
      && WroteLast(w.log, o.pass, a, o.revision, JudgedBy(w.writes, o.revision))
    ensures Inv(Fire(w, a, o))
  {
    MoveOnly(w, a, Ended);
    var m, x := Move(w, a, Ended), Fire(w, a, o);
    forall b | b in x.actors ensures Knows(x.writes, x.log, x.clock, b, x.actors[b]) {
      assert Knows(m.writes, m.log, m.clock, b, m.actors[b]);
      KnowsGrows(m.writes, [], m.log, [Fired(|w.orders|)], m.clock, 0, b, m.actors[b]);
      assert m.writes + [] == m.writes;
    }
    FiredOrders(w, a, o);
    FiredLog(w, a, o);
    forall n | 0 <= n < |x.processes| ensures ProcessGood(x, x.processes[n]) { assert ProcessGood(w, w.processes[n]); }
  }

  lemma FiredOrders(w: World, a: nat, o: Order)
    requires OrdersGood(w) && a in w.actors && w.actors[a] != Ended && o.actor == a
    requires o.pass != Unpark ==>
      WonWrite(w.writes, o.pass, a, o.revision) && o.fireBy == w.writes[o.revision - 1].record.fireBy
    ensures OrdersGood(Fire(w, a, o))
  {
    var x := Fire(w, a, o);
    forall n | 0 <= n < |x.orders| ensures OrderGood(x, x.orders[n]) {
      if n < |w.orders| { assert OrderGood(w, w.orders[n]); }
    }
    forall i, j | 0 <= i < j < |x.orders| ensures x.orders[i].actor != x.orders[j].actor {
      assert OrderGood(w, w.orders[i]);
    }
  }

  lemma FiredLog(w: World, a: nat, o: Order)
    requires LogGood(w) && ProcessesGood(w)
    requires o.pass != Unpark ==>
      1 <= o.revision <= |w.writes| && WroteLast(w.log, o.pass, o.actor, o.revision, JudgedBy(w.writes, o.revision))
    ensures LogGood(Fire(w, a, o))
  {
    var x := Fire(w, a, o);
    forall n | 0 <= n < |x.log| ensures EventGood(x, n) {
      if n < |w.log| {
        assert EventGood(w, n) && x.log[n] == w.log[n] && x.log[..n] == w.log[..n];
      } else {
        assert x.log[..n] == w.log;
      }
    }
  }

  lemma FireWonKeeps(w: World, a: nat)
    requires Inv(w)
    ensures Inv(FireWon(w, a))
  {
    if a in w.actors && w.actors[a].Won? {
      PhaseKnown(w, a);
      var p := w.actors[a];
      var r := w.writes[p.revision - 1].record;
      FireKeeps(w, a, Order(p.pass, a, p.revision, r.fireBy, r.basePipeline));
    }
  }

  lemma FireUnparkedKeeps(w: World, a: nat)
    requires Inv(w)
    ensures Inv(FireUnparked(w, a))
  {
    if a in w.actors && w.actors[a].Listed? && w.actors[a].pass == Unpark {
      var r := w.actors[a].seen;
      FireKeeps(w, a, Order(Unpark, a, r.revision, r.fireBy, r.basePipeline));
    }
  }

  lemma ProcessStartKeeps(w: World, n: nat, reading: Time)
    requires Inv(w)
    ensures Inv(ProcessStart(w, n, reading))
  {
    var x := ProcessStart(w, n, reading);
    if x != w {
      var o := w.orders[n];
      assert OrderGood(w, o);
      if o.pass != Unpark { assert GoodWrite(w.writes, o.revision - 1, w.clock); }
      forall i | 0 <= i < |x.processes| ensures ProcessGood(x, x.processes[i]) {
        if i < |w.processes| { assert ProcessGood(w, w.processes[i]); }
      }
      forall i | 0 <= i < |x.log| ensures EventGood(x, i) {
        assert EventGood(w, i);
        if x.log[i].SessionStarted? { assert x.processes[x.log[i].process] == w.processes[x.log[i].process]; }
      }
      forall b | b in x.actors ensures Knows(x.writes, x.log, x.clock, b, x.actors[b]) {
        assert Knows(w.writes, w.log, w.clock, b, w.actors[b]);
      }
      forall i | 0 <= i < |x.orders| ensures OrderGood(x, x.orders[i]) { assert OrderGood(w, w.orders[i]); }
    }
  }

  lemma AtKeeps(w: World, n: nat, stage: Stage)
    requires Inv(w) && n < |w.processes|
    requires StageGood(w.orders[w.processes[n].order], w.processes[n].seen, stage, w.clock)
    ensures Inv(At(w, n, stage))
  {
    var x := At(w, n, stage);
    forall i | 0 <= i < |x.processes| ensures ProcessGood(x, x.processes[i]) { assert ProcessGood(w, w.processes[i]); }
    forall i | 0 <= i < |x.log| ensures EventGood(x, i) { assert EventGood(w, i); }
    forall b | b in x.actors ensures Knows(x.writes, x.log, x.clock, b, x.actors[b]) {
      assert Knows(w.writes, w.log, w.clock, b, w.actors[b]);
    }
    forall i | 0 <= i < |x.orders| ensures OrderGood(x, x.orders[i]) { assert OrderGood(w, w.orders[i]); }
  }

  lemma ProcessKnown(w: World, n: nat)
    requires Inv(w) && n < |w.processes|
    ensures ProcessGood(w, w.processes[n])
  {}

  /** A write that no order follows. */
  lemma LandedKeeps(w: World, a: nat, r: Record)
    requires Inv(w) && Shut(r, w.clock) && Plain(r)
    ensures Inv(Landed(w, None, a, r, w.clock))
  {
    var n := |w.writes| + 1;
    var x := Write(None, a, r.(revision := n), w.clock);
    assert GoodWrite(w.writes + [x], |w.writes|, w.clock);
    HistoryLand(w.writes, x, w.clock);
    GrownKeeps(w, 0, [x], [Wrote(a, n)]);
    assert Landed(w, None, a, r, w.clock) == Grown(w, 0, [x], [Wrote(a, n)]);
  }

  /** The runtime's jobs, and what passes owe them, are no concern of the record's. */
  lemma RuntimeKeeps(w: World, rt: Runtime)
    requires Inv(w)
    ensures Inv(w.(runtime := rt))
  {
    var x := w.(runtime := rt);
    forall i | 0 <= i < |x.processes| ensures ProcessGood(x, x.processes[i]) { assert ProcessGood(w, w.processes[i]); }
    forall i | 0 <= i < |x.log| ensures EventGood(x, i) { assert EventGood(w, i); }
    forall b | b in x.actors ensures Knows(x.writes, x.log, x.clock, b, x.actors[b]) {
      assert Knows(w.writes, w.log, w.clock, b, w.actors[b]);
    }
    forall i | 0 <= i < |x.orders| ensures OrderGood(x, x.orders[i]) { assert OrderGood(w, w.orders[i]); }
  }

  lemma LogKeeps(w: World, e: Event)
    requires Inv(w) && Quiet(e)
    ensures Inv(w.(log := w.log + [e]))
  {
    assert w.writes + [] == w.writes;
    GrownKeeps(w, 0, [], [e]);
    assert w.(log := w.log + [e]) == Grown(w, 0, [], [e]);
  }

  lemma JobEventKeeps(w: World, rt: Runtime, e: Event)
    requires Inv(w) && Quiet(e)
    ensures Inv(w.(runtime := rt, log := w.log + [e]))
  {
    LogKeeps(w, e);
    RuntimeKeeps(w.(log := w.log + [e]), rt);
  }

  lemma StopJobKeeps(w: World, s: Session, stopper: Stopper)
    requires Inv(w)
    ensures Inv(StopJob(w, s, stopper))
  {
    JobEventKeeps(w, StopJob(w, s, stopper).runtime, JobStopped(s, stopper));
  }

  lemma CreateJobKeeps(w: World, n: nat, s: Session)
    requires Inv(w)
    ensures Inv(CreateJob(w, n, s))
  {
    JobEventKeeps(w, CreateJob(w, n, s).runtime, JobCreated(n, s));
  }

  lemma AdmitKeeps(w: World, n: nat, s: Session, created: bool)
    requires Inv(w) && n < |w.processes| && w.processes[n].stage.Cleared? && w.processes[n].seen.Some?
    requires s == SessionFor(w.processes[n], w.processes[n].stage.attempt)
    ensures Inv(Admit(w, n, s, created))
  {
    ProcessKnown(w, n);
    var k := w.processes[n].stage;
    var e := SessionStarted(n, s, created, LandedReservation(k.reservation));
    StartKeeps(w, n, e);
    AtKeeps(Grown(w, 0, [], [e]), n, Admitted(k.attempt, k.reservation, created));
    assert w.writes + [] == w.writes && w.(log := w.log + [e]) == Grown(w, 0, [], [e]);
  }

  lemma StartKeeps(w: World, n: nat, e: Event)
    requires Inv(w) && n < |w.processes| && w.processes[n].order < |w.orders|
    requires e.SessionStarted? && e.process == n
    requires MayStartSession(w.orders[w.processes[n].order], w.processes[n].seen, e.session.attempt)
    requires e.session.basePipeline == w.processes[n].seen.value.basePipeline
    ensures Inv(Grown(w, 0, [], [e]))
  {
    var x := Grown(w, 0, [], [e]);
    GrownKnows(w, 0, [], [e]);
    GrownOrders(w, 0, [], [e]);
    GrownProcesses(w, 0, [], [e]);
    assert w.writes + [] == w.writes;
    forall i | 0 <= i < |x.log| ensures EventGood(x, i) {
      if i < |w.log| { assert EventGood(w, i) && x.log[i] == w.log[i] && x.log[..i] == w.log[..i]; }
    }
  }

  lemma SessionStartKeeps(w: World, n: nat, secret: Secret)
    requires Inv(w)
    ensures Inv(SessionStart(w, n, secret))
  {
    if Live(w, n) && w.processes[n].stage.Cleared? && w.processes[n].seen.Some? {
      ProcessKnown(w, n);
      var k := w.processes[n].stage;
      var s := SessionFor(w.processes[n], k.attempt);
      var failed := Failing(k.attempt, k.reservation, false);
      CreateJobKeeps(w, n, s);
      if s in w.runtime.jobs {
        AtKeeps(w, n, failed);
        AdmitKeeps(w, n, s, false);
      } else {
        AdmitKeeps(CreateJob(w, n, s), n, s, true);
        AtKeeps(CreateJob(w, n, s), n, failed);
        StopJobKeeps(CreateJob(w, n, s), s, Starter(n));
        AtKeeps(StopJob(CreateJob(w, n, s), s, Starter(n)), n, failed);
      }
    }
  }

  lemma AbandonKeeps(w: World, n: nat)
    requires Inv(w)
    ensures Inv(Abandon(w, n))
  {
    if Live(w, n) && w.processes[n].stage.Failing? && w.processes[n].seen.Some? {
      ProcessKnown(w, n);
      var k := w.processes[n].stage;
      AtKeeps(w, n, Failing(k.attempt, k.reservation, false));
      StopJobKeeps(At(w, n, Failing(k.attempt, k.reservation, false)), SessionFor(w.processes[n], k.attempt),
                   Creator(n));
    }
  }

  lemma PreflightReleaseKeeps(w: World, n: nat, reply: Reply)
    requires Inv(w)
    ensures Inv(PreflightRelease(w, n, reply))
  {
    if Live(w, n) && w.processes[n].seen.Some? {
      var r := w.processes[n].seen.value;
      var x := r.(state := NoWorkState, reslungAt := ZERO_TIME, fireBy := ZERO_TIME);
      AtKeeps(w, n, Returned);
      if r.fixState == NoFixState {
        LandedKeeps(w, n, x);
        AtKeeps(Landed(w, None, n, x, w.clock), n, Returned);
      }
    }
  }

  lemma ClearedKeeps(w: World, n: nat, attempt: int, r: Reservation)
    requires Inv(w) && n < |w.processes| && Harmless(r, w.clock)
    requires MayStartSession(w.orders[w.processes[n].order], w.processes[n].seen, attempt)
    ensures Inv(At(w, n, Cleared(attempt, r)))
  {
    AtKeeps(w, n, Cleared(attempt, r));
  }

  lemma ReserveKeeps(w: World, n: nat, attempt: int, deadline: Time, reply: Reply)
    requires Inv(w)
    ensures Inv(Reserve(w, n, attempt, deadline, reply))
  {
    if Live(w, n) && MayStartSession(w.orders[w.processes[n].order], w.processes[n].seen, attempt) {
      AtKeeps(w, n, Returned);
      if Current(w).Some? { assert GoodWrite(w.writes, |w.writes| - 1, w.clock); }
      var seen := w.processes[n].seen.value;
      var r := Pending(seen, attempt, deadline);
      var release := if Current(w).Some? then Current(w).value else NothingDispatched(seen, attempt);
      var k := ReservationFor(r, release, |w.writes| + 1, reply);
      ClearedKeeps(w, n, attempt, k);
      LandedKeeps(w, n, r);
      ClearedKeeps(Landed(w, None, n, r, w.clock), n, attempt, k);
    }
  }

  lemma ReserveUnreadKeeps(w: World, n: nat, attempt: int, deadline: Time, reply: Reply)
    requires Inv(w)
    ensures Inv(ReserveUnread(w, n, attempt, deadline, reply))
  {
    if Live(w, n) && MayStartSession(w.orders[w.processes[n].order], w.processes[n].seen, attempt) {
      var seen := w.processes[n].seen.value;
      ClearedKeeps(w, n, attempt, if reply == Acknowledged then NotReserved
                   else Claimed(Pending(seen, attempt, deadline), NothingDispatched(seen, attempt), 0));
    }
  }

  lemma RunningPutKeeps(w: World, n: nat, deadline: Time, reply: Reply)
    requires Inv(w)
    ensures Inv(RunningPut(w, n, deadline, reply))
  {
    if Live(w, n) && w.processes[n].stage.Admitted? && w.processes[n].seen.Some? {
      ProcessKnown(w, n);
      var k := w.processes[n].stage;
      var r := Rebuilt(w.processes[n].seen.value, Running, k.attempt, deadline);
      LandedKeeps(w, n, r);
      var x := if reply == LostError then w else Landed(w, None, n, r, w.clock);
      LogKeeps(x, RunningFailed(n));
      AtKeeps(x, n, Recorded);
      AtKeeps(x.(log := x.log + [RunningFailed(n)]), n, Failing(k.attempt, k.reservation, k.created));
    }
  }

  lemma ReleaseKeeps(w: World, n: nat)
    requires Inv(w)
    ensures Inv(Release(w, n))
  {
    if GivesUp(w, n) {
      ProcessKnown(w, n);
      AtKeeps(w, n, Returned);
      var k := w.processes[n].stage.reservation;
      if !k.NotReserved? {
        LandedKeeps(w, n, k.release);
        AtKeeps(Landed(w, None, n, k.release, w.clock), n, Returned);
      }
    }
  }

  lemma AnswerKeeps(w: World, n: nat, state: WorkState, attempt: int)
    requires Inv(w)
    ensures Inv(Answer(w, n, state, attempt))
  {
    if Live(w, n) && w.processes[n].seen.Some? {
      var r := Rebuilt(w.processes[n].seen.value, state, attempt, ZERO_TIME);
      AtKeeps(w, n, Returned);
      LandedKeeps(w, n, r);
      AtKeeps(Landed(w, None, n, r, w.clock), n, Returned);
    }
  }

  lemma ReturnKeeps(w: World, n: nat)
    requires Inv(w)
    ensures Inv(Return(w, n))
  {
    if Live(w, n) { AtKeeps(w, n, Returned); }
  }

  // ---- the end of a session ----

  lemma ConcludeKeeps(w: World, a: nat, ending: Ending, accepted: bool)
    requires Inv(w)
    ensures Inv(Conclude(w, a, ending, accepted))
  {
    if a in w.actors && w.actors[a].Listed? && w.actors[a].pass == Retry {
      PhaseKnown(w, a);
      var r := w.actors[a].seen;
      MoveOnly(w, a, Ended);
      if r.fixState == NoFixState && !WindowOpen(r, w.clock) && MayEnd(r, ending) && (ending.Finished? ==> accepted) {
        var p := Concluding(w.clock, r, ending);
        if ending.Finished? {
          assert w.writes + [] == w.writes && (w.log + [Reported(a, Attempt(r))])[|w.log|] == Reported(a, Attempt(r));
          MovedKeeps(w, a, p, [], [Reported(a, Attempt(r))]);
        } else {
          MoveOnly(w, a, p);
        }
      }
    }
  }

  lemma ConcludedGood(w: World, a: nat)
    requires Inv(w) && a in w.actors && w.actors[a].Concluding?
    ensures var c := w.actors[a];
      |w.writes| == c.seen.revision ==>
        GoodWrite(w.writes + [Write(None, a, ConcludedRecord(c.seen, c.ending).(revision := |w.writes| + 1), c.now)],
                  |w.writes|, w.clock)
  {
    PhaseKnown(w, a);
    assert GoodWrite(w.writes, w.actors[a].seen.revision - 1, w.clock);
  }

  lemma ConcludePutKeeps(w: World, a: nat, reply: Reply)
    requires Inv(w)
    ensures Inv(ConcludePut(w, a, reply))
  {
    if a in w.actors && w.actors[a].Concluding? {
      var c := w.actors[a];
      ConcludedGood(w, a);
      WroteKeeps(w, None, a, ConcludedRecord(c.seen, c.ending), c.seen.revision, reply, c.now, Ended);
      var x := Move(PutIf(w, None, a, ConcludedRecord(c.seen, c.ending), c.seen.revision, reply, c.now), a, Ended);
      RuntimeKeeps(x, Owe(x, a, c.seen, CauseOf(c.ending)).runtime);
    }
  }

  predicate OfRuntime(s: Step) {
    s.Concludes? || s.ConcludePuts? || s.Closes? || s.ReapLists? || s.Reaps? || s.JobEnds? || s.JobDeletes?
    || s.JobExpires?
  }

  lemma CloseSessionKeeps(w: World, a: nat)
    requires Inv(w)
    ensures Inv(CloseSession(w, a))
  {
    if a in w.runtime.closing && a in w.actors && w.actors[a] == Ended {
      var d, rt := w.runtime.closing[a], w.runtime.(closing := w.runtime.closing - {a});
      RuntimeKeeps(w, rt);
      StopJobKeeps(w.(runtime := rt), d.session, Closer(a, d));
    }
  }

  lemma JobStepKeeps(w: World, s: Step)
    requires Inv(w) && (s.JobEnds? || s.JobDeletes? || s.JobExpires?)
    ensures Inv(Do(w, s))
  {
    match s
    case JobEnds(j) => RuntimeKeeps(w, JobEnd(w, j).runtime);
    case JobDeletes(j) => JobEventKeeps(w, JobDelete(w, j).runtime, JobDeleted(j));
    case JobExpires(j) => JobEventKeeps(w, JobExpire(w, j).runtime, JobExpired(j));
  }

  lemma RuntimeStepKeeps(w: World, s: Step)
    requires Inv(w) && OfRuntime(s)
    ensures Inv(Do(w, s))
  {
    match s
    case Concludes(a, e, ok) => ConcludeKeeps(w, a, e, ok);
    case ConcludePuts(a, reply) => ConcludePutKeeps(w, a, reply);
    case Closes(a) => CloseSessionKeeps(w, a);
    case ReapLists(a) => if a !in w.actors { MoveOnly(w, a, Reaping(|w.writes|)); }
    case Reaps(a, j) => if a in w.actors && w.actors[a].Reaping? { StopJobKeeps(w, j, Reaper(a, w.actors[a].read)); }
    case JobEnds(_) => JobStepKeeps(w, s);
    case JobDeletes(_) => JobStepKeeps(w, s);
    case JobExpires(_) => JobStepKeeps(w, s);
  }

  // ---- everybody else ----

  lemma OtherRecordShut(w: World, o: Other)
    requires History(w.writes, w.clock) && OtherRecord(w, o).Some?
    ensures Shut(OtherRecord(w, o).value, w.clock) && Plain(OtherRecord(w, o).value)
  {
    if |w.writes| > 0 { assert GoodWrite(w.writes, |w.writes| - 1, w.clock); }
  }

  lemma OtherWriteKeeps(w: World, a: nat, o: Other)
    requires Inv(w)
    ensures Inv(OtherWrite(w, a, o))
  {
    if OtherRecord(w, o).Some? {
      OtherRecordShut(w, o);
      LandedKeeps(w, a, OtherRecord(w, o).value);
    }
  }

  lemma TickKeeps(w: World, d: nat)
    requires Inv(w)
    ensures Inv(w.(clock := w.clock + d))
  {
    HistoryTick(w.writes, w.clock, d);
    assert w.writes + [] == w.writes && w.log + [] == w.log;
    GrownKeeps(w, d, [], []);
  }

  // ---- runs ----

  predicate OfProcess(s: Step) {
    s.ProcessStarts? || s.PreflightReleases? || s.Reserves? || s.ReservesUnread? || s.SessionStarts?
    || s.RunningPuts? || s.Abandons? || s.Releases? || s.Answers? || s.Returns?
  }

  /** What a dispatch may do in place of a reservation. */
  predicate Plainly(s: Step) { s.PreflightReleases? || s.Answers? || s.Returns? }

  /** What a dispatch does from its session's start on. */
  predicate OfSession(s: Step) { s.SessionStarts? || s.RunningPuts? || s.Abandons? || s.Releases? }

  lemma SessionStepKeeps(w: World, s: Step)
    requires Inv(w) && OfSession(s)
    ensures Inv(Do(w, s))
  {
    match s
    case SessionStarts(n, secret) => SessionStartKeeps(w, n, secret);
    case RunningPuts(n, t, r) => RunningPutKeeps(w, n, t, r);
    case Abandons(n) => AbandonKeeps(w, n);
    case Releases(n) => ReleaseKeeps(w, n);
  }

  lemma PlainlyKeeps(w: World, s: Step)
    requires Inv(w) && Plainly(s)
    ensures Inv(Do(w, s))
  {
    match s
    case PreflightReleases(n, r) => PreflightReleaseKeeps(w, n, r);
    case Answers(n, st, k) => AnswerKeeps(w, n, st, k);
    case Returns(n) => ReturnKeeps(w, n);
  }

  lemma ProcessStepKeeps(w: World, s: Step)
    requires Inv(w) && OfProcess(s) && !OfSession(s)
    ensures Inv(Do(w, s))
  {
    match s
    case ProcessStarts(n, t) => ProcessStartKeeps(w, n, t);
    case Reserves(n, k, t, r) => ReserveKeeps(w, n, k, t, r);
    case ReservesUnread(n, k, t, r) => ReserveUnreadKeeps(w, n, k, t, r);
    case _ => PlainlyKeeps(w, s);
  }

  predicate OfCheck(s: Step) {
    s.CheckJudges? || s.CheckShows? || s.CheckReports? || s.CheckPuts? || s.CheckWaits?
  }

  lemma CheckStepKeeps(w: World, s: Step)
    requires Inv(w) && OfCheck(s)
    ensures Inv(Do(w, s))
  {
    match s
    case CheckJudges(a, r, st) => CheckJudgeKeeps(w, a, r, st);
    case CheckShows(a, ok) => CheckShowKeeps(w, a, ok);
    case CheckReports(a, ok) => CheckReportKeeps(w, a, ok);
    case CheckPuts(a, r) => CheckPutKeeps(w, a, r);
    case CheckWaits(a, r) => CheckWaitKeeps(w, a, r);
  }

  lemma PassStepKeeps(w: World, s: Step)
    requires Inv(w) && !OfProcess(s) && !OfCheck(s) && !OfRuntime(s)
    ensures Inv(Do(w, s))
  {
    match s
    case TickBy(d) => TickKeeps(w, d);
    case LookStarts(a) => LookStartKeeps(w, a);
    case LookReads(a, e, b, m) => LookReadKeeps(w, a, e, b, m);
    case LookPuts(a, r) => LookPutKeeps(w, a, r);
    case Lists(a, p) => ListKeeps(w, a, p);
    case RetryJudges(a, ok) => RetryJudgeKeeps(w, a, ok);
    case RetryPuts(a, r) => RetryPutKeeps(w, a, r);
    case Fires(a) => FireWonKeeps(w, a);
    case Unparks(a) => FireUnparkedKeeps(w, a);
    case OtherWrites(a, o) => OtherWriteKeeps(w, a, o);
  }

  lemma StepKeeps(w: World, s: Step)
    requires Inv(w)
    ensures Inv(Do(w, s))
  {
    if OfSession(s) {
      SessionStepKeeps(w, s);
    } else if OfProcess(s) {
      ProcessStepKeeps(w, s);
    } else if OfCheck(s) {
      CheckStepKeeps(w, s);
    } else if OfRuntime(s) {
      RuntimeStepKeeps(w, s);
    } else {
      PassStepKeeps(w, s);
    }
  }

  /** Every run from an empty store keeps the invariant. */
  lemma {:induction false} RunKeeps(clock: Time, steps: seq<Step>)
    requires 0 < clock
    ensures Inv(Run(Start(clock), steps))
  {
    if steps != [] {
      RunKeeps(clock, steps[..|steps| - 1]);
      StepKeeps(Run(Start(clock), steps[..|steps| - 1]), steps[|steps| - 1]);
    }
  }
}
