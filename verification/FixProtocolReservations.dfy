/** What a dispatch's reservation is, and what giving it up may write over. */
module FixProtocolReservations {
  import opened Basics
  import opened FixRecord
  import opened FixProtocol
  import opened FixProtocolSafety
  import opened FixProtocolSteps

  // ---- pending records ----

  /** The record write k replaced. */
  function Before(ws: seq<Write>, k: nat): Option<Record>
    requires k < |ws|
  {
    if k == 0 then None else Some(ws[k - 1].record)
  }

  /** A pending record names its session, and replaced a record that held none for its attempt. */
  predicate Fresh(ws: seq<Write>, k: nat)
    requires k < |ws|
  {
    var r := ws[k].record;
    r.state == PendingPrompt ==> r.session && !Taken(Before(ws, k), r.attempt)
  }

  /** Revision rev is process n's own reservation, for the session. */
  predicate Reserved(ws: seq<Write>, n: nat, s: Session, rev: nat) {
    && 2 <= rev <= |ws|
    && var x := ws[rev - 1];
       && x.pass.None? && x.actor == n && x.record.state == PendingPrompt && x.record.session
       && SessionOf(x.record) == s && !Taken(Before(ws, rev - 1), s.attempt)
  }

  /** What may be put back holds no session for the attempt; a pending one names its session. */
  predicate Restful(r: Record, attempt: int) {
    !Taken(Some(r), attempt) && (r.state == PendingPrompt ==> r.session)
  }

  predicate Sound(ws: seq<Write>, n: nat, s: Session, r: Reservation) {
    match r
    case NotReserved => true
    case ReservedAt(rev, release) =>
      Reserved(ws, n, s, rev) && release == ws[rev - 2].record && Restful(release, s.attempt)
    case Claimed(claim, release, at) =>
      && claim.state == PendingPrompt && claim.session && SessionOf(claim) == s && Restful(release, s.attempt)
      && (at != 0 ==>
            Reserved(ws, n, s, at) && SameContent(ws[at - 1].record, claim) && release == ws[at - 2].record)
  }

  predicate Holding(ws: seq<Write>, n: nat, p: Process) {
    && (p.seen.Some? ==> Stored(ws, p.seen.value))
    && match p.stage
       case Cleared(k, r) => p.seen.Some? && Sound(ws, n, SessionFor(p, k), r)
       case Admitted(k, r, _) => p.seen.Some? && Sound(ws, n, SessionFor(p, k), r)
       case Failing(k, r, _) => p.seen.Some? && Sound(ws, n, SessionFor(p, k), r)
       case _ => true
  }

  ghost predicate Reserving(w: World) {
    && (forall k | 0 <= k < |w.writes| :: Fresh(w.writes, k))
    && (forall n | 0 <= n < |w.processes| :: Holding(w.writes, n, w.processes[n]))
  }

  // ---- every step keeps it ----

  predicate Extends(ws: seq<Write>, xs: seq<Write>) { |ws| <= |xs| && xs[..|ws|] == ws }

  lemma ReservedStays(ws: seq<Write>, xs: seq<Write>, n: nat, s: Session, rev: nat)
    requires Reserved(ws, n, s, rev) && Extends(ws, xs)
    ensures Reserved(xs, n, s, rev)
  {
    assert xs[rev - 1] == ws[rev - 1] && xs[rev - 2] == ws[rev - 2];
  }

  lemma SoundStays(ws: seq<Write>, xs: seq<Write>, n: nat, s: Session, r: Reservation)
    requires Sound(ws, n, s, r) && Extends(ws, xs)
    ensures Sound(xs, n, s, r)
  {
    var rev := LandedReservation(r);
    if rev != 0 {
      ReservedStays(ws, xs, n, s, rev);
      assert xs[rev - 1] == ws[rev - 1] && xs[rev - 2] == ws[rev - 2];
    }
  }

  lemma HoldingStays(ws: seq<Write>, xs: seq<Write>, n: nat, p: Process)
    requires Holding(ws, n, p) && Extends(ws, xs)
    ensures Holding(xs, n, p)
  {
    if p.seen.Some? { assert xs[p.seen.value.revision - 1] == ws[p.seen.value.revision - 1]; }
    match p.stage
    case Cleared(k, r) => SoundStays(ws, xs, n, SessionFor(p, k), r);
    case Admitted(k, r, _) => SoundStays(ws, xs, n, SessionFor(p, k), r);
    case Failing(k, r, _) => SoundStays(ws, xs, n, SessionFor(p, k), r);
    case _ =>
  }

  ghost predicate FreshFrom(xs: seq<Write>, n: nat) { forall k | n <= k < |xs| :: Fresh(xs, k) }

  ghost predicate Written(w: World, x: World) { Extends(w.writes, x.writes) && FreshFrom(x.writes, |w.writes|) }

  /** More was written, freshly; process n is elsewhere, and holds what it should. */
  lemma ReservingStays(w: World, x: World, n: nat)
    requires Reserving(w) && Written(w, x) && |w.processes| <= |x.processes| <= |w.processes| + 1
    requires forall k | 0 <= k < |w.processes| && k != n :: x.processes[k] == w.processes[k]
    requires |x.processes| > |w.processes| ==> n == |w.processes|
    requires n < |x.processes| ==> Holding(x.writes, n, x.processes[n])
    ensures Reserving(x)
  {
    forall k | 0 <= k < |x.writes| ensures Fresh(x.writes, k) {
      if k < |w.writes| {
        assert Fresh(w.writes, k) && x.writes[k] == w.writes[k] && (k > 0 ==> x.writes[k - 1] == w.writes[k - 1]);
      }
    }
    forall k | 0 <= k < |x.processes| ensures Holding(x.writes, k, x.processes[k]) {
      if k != n { HoldingStays(w.writes, x.writes, k, w.processes[k]); }
    }
  }

  /** Passes write no pending record, and move no process. */
  predicate Aside(w: World, x: World) {
    && x.processes == w.processes && Extends(w.writes, x.writes)
    && forall k | |w.writes| <= k < |x.writes| :: x.writes[k].record.state != PendingPrompt
  }

  lemma AsideKeeps(w: World, x: World)
    requires Reserving(w) && Aside(w, x)
    ensures Reserving(x)
  {
    ReservingStays(w, x, |w.processes|);
  }

  lemma ConcludePutAside(w: World, a: nat, reply: Reply)
    requires Inv(w)
    ensures Aside(w, ConcludePut(w, a, reply))
  {
    if a in w.actors { PhaseKnown(w, a); }
  }

  lemma RuntimeAside(w: World, s: Step)
    requires Inv(w) && OfRuntime(s)
    ensures Aside(w, Do(w, s))
  {
    if s.ConcludePuts? { ConcludePutAside(w, s.a, s.reply); }
  }

  lemma CheckAside(w: World, s: Step)
    requires Inv(w) && OfCheck(s)
    ensures Aside(w, Do(w, s))
  {
    if (s.CheckPuts? || s.CheckWaits?) && s.a in w.actors { PhaseKnown(w, s.a); }
  }

  lemma PassAside(w: World, s: Step)
    requires Inv(w) && !OfProcess(s) && !OfRuntime(s) && !OfCheck(s)
    ensures Aside(w, Do(w, s))
  {
    if (s.LookPuts? || s.RetryPuts?) && s.a in w.actors { PhaseKnown(w, s.a); }
  }

  lemma StepAside(w: World, s: Step)
    requires Inv(w) && !OfProcess(s)
    ensures Aside(w, Do(w, s))
  {
    if OfRuntime(s) { RuntimeAside(w, s); } else if OfCheck(s) { CheckAside(w, s); } else { PassAside(w, s); }
  }

  /** The reservation of a dispatch whose guard let it through. */
  lemma ReservedSound(w: World, n: nat, seen: Record, attempt: int, deadline: Time, reply: Reply)
    requires Inv(w) && Reserving(w) && Current(w).Some? && !Taken(Current(w), attempt)
    ensures var r := Pending(seen, attempt, deadline);
      var x := PutIf(w, None, n, r, |w.writes|, reply, w.clock);
      && Written(w, x)
      && Sound(x.writes, n, Session(seen.basePipeline, attempt),
               ReservationFor(r, Current(w).value, |w.writes| + 1, reply))
  {
    assert Fresh(w.writes, |w.writes| - 1);
  }

  lemma ReserveHolds(w: World, n: nat, attempt: int, deadline: Time, reply: Reply)
    requires Inv(w) && Reserving(w)
    ensures Reserving(Reserve(w, n, attempt, deadline, reply))
  {
    if Live(w, n) && MayStartSession(w.orders[w.processes[n].order], w.processes[n].seen, attempt)
      && !Taken(Current(w), attempt) && w.processes[n].stage == Deciding
    {
      assert Holding(w.writes, n, w.processes[n]);
      var x := Reserve(w, n, attempt, deadline, reply);
      ReservedSound(w, n, w.processes[n].seen.value, attempt, deadline, reply);
      HoldingStays(w.writes, x.writes, n, w.processes[n]);
      ReservingStays(w, x, n);
    } else if Live(w, n) {
      ReservingStays(w, At(w, n, Returned), n);
    }
  }

  lemma ReserveUnreadHolds(w: World, n: nat, attempt: int, deadline: Time, reply: Reply)
    requires Reserving(w)
    ensures Reserving(ReserveUnread(w, n, attempt, deadline, reply))
  {
    if n < |w.processes| {
      assert Holding(w.writes, n, w.processes[n]);
      ReservingStays(w, ReserveUnread(w, n, attempt, deadline, reply), n);
    }
  }

  lemma SessionStartHolds(w: World, n: nat, secret: Secret)
    requires Reserving(w)
    ensures Reserving(SessionStart(w, n, secret))
  {
    if n < |w.processes| {
      assert Holding(w.writes, n, w.processes[n]);
      ReservingStays(w, SessionStart(w, n, secret), n);
    }
  }

  lemma AbandonHolds(w: World, n: nat)
    requires Reserving(w)
    ensures Reserving(Abandon(w, n))
  {
    if n < |w.processes| {
      assert Holding(w.writes, n, w.processes[n]);
      ReservingStays(w, Abandon(w, n), n);
    }
  }

  lemma RunningPutHolds(w: World, n: nat, deadline: Time, reply: Reply)
    requires Reserving(w)
    ensures Reserving(RunningPut(w, n, deadline, reply))
  {
    if n < |w.processes| {
      assert Holding(w.writes, n, w.processes[n]);
      var x := RunningPut(w, n, deadline, reply);
      HoldingStays(w.writes, x.writes, n, w.processes[n]);
      ReservingStays(w, x, n);
    }
  }

  /** What a dispatch that gives up holds. */
  predicate Gives(w: World, n: nat, s: Session, r: Reservation) {
    && GivesUp(w, n) && w.processes[n].seen.Some?
    && s == SessionFor(w.processes[n], w.processes[n].stage.attempt) && r == w.processes[n].stage.reservation
  }

  /** What it would write over is pending, for its session. */
  lemma UndoesPending(w: World, n: nat, s: Session, r: Reservation)
    requires Inv(w) && Reserving(w) && Gives(w, n, s, r) && Undoes(Current(w), r)
    ensures Current(w).value.state == PendingPrompt && Claims(Current(w).value, s) && Restful(r.release, s.attempt)
  {
    assert Holding(w.writes, n, w.processes[n]);
    CurrentStored(w);
  }

  lemma ReleaseHolds(w: World, n: nat)
    requires Inv(w) && Reserving(w)
    ensures Reserving(Release(w, n))
  {
    if GivesUp(w, n) {
      assert Holding(w.writes, n, w.processes[n]);
      var s, r := SessionFor(w.processes[n], w.processes[n].stage.attempt), w.processes[n].stage.reservation;
      var x := Release(w, n);
      if Undoes(Current(w), r) {
        UndoesPending(w, n, s, r);
        assert Fresh(x.writes, |w.writes|);
      }
      HoldingStays(w.writes, x.writes, n, w.processes[n].(stage := Returned));
      ReservingStays(w, x, n);
    }
  }

  lemma PlainlyHolds(w: World, s: Step)
    requires Reserving(w) && Plainly(s)
    ensures Reserving(Do(w, s))
  {
    var n, x := s.process, Do(w, s);
    if n < |w.processes| {
      assert Holding(w.writes, n, w.processes[n]);
      PlainlyReturns(w, s, n);
      HoldingStays(w.writes, x.writes, n, x.processes[n]);
      ReservingStays(w, x, n);
    }
  }

  lemma PlainlyReturns(w: World, s: Step, n: nat)
    requires Plainly(s) && n == s.process < |w.processes|
    ensures var x := Do(w, s);
      && Written(w, x) && |x.processes| == |w.processes|
      && (x.processes[n] == w.processes[n] || x.processes[n] == w.processes[n].(stage := Returned))
      && forall k | 0 <= k < |w.processes| && k != n :: x.processes[k] == w.processes[k]
  {}

  lemma ProcessStartHolds(w: World, order: nat, reading: Time)
    requires Inv(w) && Reserving(w)
    ensures Reserving(ProcessStart(w, order, reading))
  {
    if Current(w).Some? { CurrentStored(w); }
    ReservingStays(w, ProcessStart(w, order, reading), |w.processes|);
  }

  lemma SessionHolds(w: World, s: Step)
    requires Inv(w) && Reserving(w) && OfSession(s)
    ensures Reserving(Do(w, s))
  {
    match s
    case SessionStarts(n, secret) => SessionStartHolds(w, n, secret);
    case RunningPuts(n, t, r) => RunningPutHolds(w, n, t, r);
    case Abandons(n) => AbandonHolds(w, n);
    case Releases(n) => ReleaseHolds(w, n);
  }

  lemma ProcessHolds(w: World, s: Step)
    requires Inv(w) && Reserving(w) && OfProcess(s) && !OfSession(s)
    ensures Reserving(Do(w, s))
  {
    match s
    case ProcessStarts(n, t) => ProcessStartHolds(w, n, t);
    case Reserves(n, k, t, r) => ReserveHolds(w, n, k, t, r);
    case ReservesUnread(n, k, t, r) => ReserveUnreadHolds(w, n, k, t, r);
    case _ => PlainlyHolds(w, s);
  }

  lemma StepReserves(w: World, s: Step)
    requires Inv(w) && Reserving(w)
    ensures Reserving(Do(w, s))
  {
    if OfSession(s) {
      SessionHolds(w, s);
    } else if OfProcess(s) {
      ProcessHolds(w, s);
    } else {
      StepAside(w, s);
      AsideKeeps(w, Do(w, s));
    }
  }

  lemma {:induction false} RunReserves(clock: Time, steps: seq<Step>)
    requires 0 < clock
    ensures Reserving(Run(Start(clock), steps))
  {
    if steps != [] {
      RunKeeps(clock, steps[..|steps| - 1]);
      RunReserves(clock, steps[..|steps| - 1]);
      StepReserves(Run(Start(clock), steps[..|steps| - 1]), steps[|steps| - 1]);
    }
  }

  // ---- giving up ----

  /** Revision k of the record holds no session for the attempt. */
  predicate Vacant(ws: seq<Write>, k: nat, attempt: int) { 1 <= k <= |ws| && !Taken(Some(ws[k - 1].record), attempt) }

  ghost predicate FreedBetween(ws: seq<Write>, i: nat, j: nat, attempt: int) {
    exists k | i < k < j :: Vacant(ws, k, attempt)
  }

  /** The dispatch's own reservation is the record. */
  predicate OwnIsCurrent(w: World, r: Reservation) { LandedReservation(r) == |w.writes| }

  /** The record is not the dispatch's own write, and it cannot tell: the reply to its reservation was an
      error, and the record is pending and says what that would have. */
  predicate Mistakes(w: World, r: Reservation) {
    && r.Claimed? && r.at != |w.writes| && Current(w).Some? && Current(w).value.state == PendingPrompt
    && SameContent(Current(w).value, r.claim)
  }

  /** What the write puts back, and over what. */
  ghost predicate PutsBack(w: World, x: World, n: nat, s: Session, r: Reservation) {
    && w.writes != [] && Current(w).value.state == PendingPrompt && Claims(Current(w).value, s)
    && !r.NotReserved? && !Taken(Some(r.release), s.attempt)
    && x.writes == w.writes + [Write(None, n, r.release.(revision := |w.writes| + 1), w.clock)]
    && x.runtime == w.runtime
    && (OwnIsCurrent(w, r) ==> Reserved(w.writes, n, s, |w.writes|) && r.release == w.writes[|w.writes| - 2].record)
    && (Mistakes(w, r) ==>
          r.at == 0 || (Reserved(w.writes, n, s, r.at) && FreedBetween(w.writes, r.at, |w.writes|, s.attempt)))
  }

  /** In every run, a dispatch that gives up writes exactly when its own reservation is the record, or the
      record is another write it cannot tell from its own. Either way it writes over a pending record of
      its own session, touches no job, and puts back a record that holds no session for the attempt: what
      its reservation replaced, if that is the record. It mistakes another's only if its own never landed,
      or some write since took the session off the record. */
  lemma ReleasesExactly(clock: Time, steps: seq<Step>, n: nat, s: Session, r: Reservation)
    requires 0 < clock && Gives(Run(Start(clock), steps), n, s, r)
    ensures var w := Run(Start(clock), steps);
      && (Release(w, n).writes != w.writes <==> OwnIsCurrent(w, r) || Mistakes(w, r))
      && (Release(w, n).writes != w.writes ==> PutsBack(w, Release(w, n), n, s, r))
  {
    RunKeeps(clock, steps);
    RunReserves(clock, steps);
    ReleasedExactly(Run(Start(clock), steps), n, s, r);
  }

  lemma ReleasedExactly(w: World, n: nat, s: Session, r: Reservation)
    requires Inv(w) && Reserving(w) && Gives(w, n, s, r)
    ensures Release(w, n).writes != w.writes <==> OwnIsCurrent(w, r) || Mistakes(w, r)
    ensures Release(w, n).writes != w.writes ==> PutsBack(w, Release(w, n), n, s, r)
  {
    UndoesExactly(w, n, s, r);
    if Undoes(Current(w), r) {
      UndoesPending(w, n, s, r);
      if Mistakes(w, r) && r.at != 0 { MistakenFreed(w, n, s, r); }
      assert Holding(w.writes, n, w.processes[n]);
    }
  }

  lemma UndoesExactly(w: World, n: nat, s: Session, r: Reservation)
    requires Inv(w) && Reserving(w) && Gives(w, n, s, r)
    ensures Undoes(Current(w), r) <==> OwnIsCurrent(w, r) || Mistakes(w, r)
    ensures w.writes != []
  {
    assert Holding(w.writes, n, w.processes[n]);
    if Current(w).Some? { CurrentStored(w); }
  }

  lemma MistakenFreed(w: World, n: nat, s: Session, r: Reservation)
    requires Inv(w) && Reserving(w) && Gives(w, n, s, r) && Mistakes(w, r) && r.at != 0
    ensures Reserved(w.writes, n, s, r.at) && FreedBetween(w.writes, r.at, |w.writes|, s.attempt)
  {
    assert Holding(w.writes, n, w.processes[n]);
    assert Fresh(w.writes, |w.writes| - 1);
    assert Vacant(w.writes, |w.writes| - 1, s.attempt);
  }
}
