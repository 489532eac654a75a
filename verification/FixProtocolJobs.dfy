/** What the log of a run says of its sessions' jobs: which are held, who started them, and who may have
    had them deleted, for what. */
module FixProtocolJobs {
  import opened Basics
  import opened FixRecord
  import opened FixProtocol
  import opened FixProtocolSafety
  import opened FixProtocolSteps
  import opened FixProtocolReservations

  // ---- a name's job, by the log ----

  datatype Hold = NoJob | Up | Stopping

  function HoldAfter(h: Hold, e: Event, s: Session): Hold {
    match e
    case JobCreated(_, t) => if t == s then Up else h
    case JobStopped(t, _) => if t == s then Stopping else h
    case JobDeleted(t) => if t == s then NoJob else h
    case JobExpired(t) => if t == s then NoJob else h
    case _ => h
  }

  function HoldIn(log: seq<Event>, s: Session): Hold {
    if log == [] then NoJob else HoldAfter(HoldIn(log[..|log| - 1], s), log[|log| - 1], s)
  }

  function HoldOf(jobs: map<Session, Job>, s: Session): Hold {
    if s !in jobs then NoJob else if jobs[s].stopping then Stopping else Up
  }

  // ---- evidence ----

  predicate StartedBy(log: seq<Event>, n: nat) {
    exists i | 0 <= i < |log| :: log[i].SessionStarted? && log[i].process == n
  }

  predicate Makes(e: Event, n: nat, s: Session) {
    e.SessionStarted? && e.process == n && e.session == s && e.created
  }

  predicate Made(log: seq<Event>, n: nat, s: Session) { exists i | 0 <= i < |log| :: Makes(log[i], n, s) }

  /** The dispatch made the session, and then its running record's write failed. */
  predicate LostRecord(log: seq<Event>, n: nat, s: Session) {
    exists j | 0 <= j < |log| :: log[j] == RunningFailed(n) && Made(log[..j], n, s)
  }

  /** The pass read a running record with no fix state that names the session, and meter has taken the
      attempt's outcome from it; or its merge request is open, and the record it read has been replaced; or
      it has itself replaced that record by one parked with no session. */
  predicate DutyGood(ws: seq<Write>, log: seq<Event>, a: nat, d: Duty) {
    && 1 <= d.read <= |ws|
    && var r := ws[d.read - 1].record;
       && r.state == Running && r.fixState == NoFixState && r.session && SessionOf(r) == d.session
       && match d.cause
          case Judged => ReportedBy(log, a, Attempt(r))
          case Opened => d.read < |ws|
          case Refused =>
            d.read < |ws| && ws[d.read].actor == a && ws[d.read].record == ParkedForRetry(r).(revision := d.read + 1)
  }

  predicate StopGood(ws: seq<Write>, log: seq<Event>, s: Session, stopper: Stopper) {
    match stopper
    case Creator(n) => LostRecord(log, n, s)
    case Closer(a, d) => d.session == s && DutyGood(ws, log, a, d)
    case Reaper(_, read) => Unclaimed(ws, read, s)
    case Starter(n) => |log| > 0 && log[|log| - 1] == JobCreated(n, s)
  }

  /** A dispatch starts one session at most: the one it has just made, or one that is up. */
  predicate StartGood(ws: seq<Write>, log: seq<Event>, n: nat, s: Session, created: bool, reservation: nat) {
    && !StartedBy(log, n)
    && (if created then |log| > 0 && log[|log| - 1] == JobCreated(n, s) else HoldIn(log, s) == Up)
    && (reservation != 0 ==> Reserved(ws, n, s, reservation))
  }

  predicate JobEventGood(ws: seq<Write>, log: seq<Event>, i: nat)
    requires i < |log|
  {
    match log[i]
    case JobCreated(_, s) => HoldIn(log[..i], s) == NoJob
    case SessionStarted(n, s, created, reservation) => StartGood(ws, log[..i], n, s, created, reservation)
    case JobStopped(s, stopper) => HoldIn(log[..i], s) == Up && StopGood(ws, log[..i], s, stopper)
    case JobDeleted(s) => HoldIn(log[..i], s) == Stopping
    case JobExpired(s) => HoldIn(log[..i], s) == Up
    case _ => true
  }

  predicate ProcessLogged(log: seq<Event>, n: nat, p: Process) {
    match p.stage
    case Deciding => !StartedBy(log, n)
    case Cleared(_, _) => !StartedBy(log, n)
    case Admitted(k, _, created) => created ==> p.seen.Some? && Made(log, n, SessionFor(p, k))
    case Failing(k, _, created) => created ==> p.seen.Some? && LostRecord(log, n, SessionFor(p, k))
    case _ => true
  }

  ghost predicate EventsGood(ws: seq<Write>, log: seq<Event>) { forall i | 0 <= i < |log| :: JobEventGood(ws, log, i) }
  ghost predicate HoldsMatch(w: World) { forall s :: HoldOf(w.runtime.jobs, s) == HoldIn(w.log, s) }
  ghost predicate AllLogged(w: World) { forall n | 0 <= n < |w.processes| :: ProcessLogged(w.log, n, w.processes[n]) }
  ghost predicate DutiesGood(w: World) {
    forall a | a in w.runtime.closing :: DutyGood(w.writes, w.log, a, w.runtime.closing[a])
  }

  ghost predicate JobsKnown(w: World) { EventsGood(w.writes, w.log) && HoldsMatch(w) && AllLogged(w) && DutiesGood(w) }

  // ---- it stays ----

  predicate JobQuiet(e: Event) {
    !e.JobCreated? && !e.SessionStarted? && !e.RunningFailed? && !e.JobStopped? && !e.JobDeleted? && !e.JobExpired?
  }

  predicate Longer(log: seq<Event>, more: seq<Event>) { |log| <= |more| && more[..|log|] == log }

  lemma MadeStays(log: seq<Event>, more: seq<Event>, n: nat, s: Session)
    requires Made(log, n, s) && Longer(log, more)
    ensures Made(more, n, s)
  {
    var i :| 0 <= i < |log| && Makes(log[i], n, s);
    assert more[i] == log[i];
  }

  lemma LostStays(log: seq<Event>, more: seq<Event>, n: nat, s: Session)
    requires LostRecord(log, n, s) && Longer(log, more)
    ensures LostRecord(more, n, s)
  {
    var j :| 0 <= j < |log| && log[j] == RunningFailed(n) && Made(log[..j], n, s);
    assert more[j] == log[j] && more[..j] == log[..j];
  }

  lemma DutyStays(ws: seq<Write>, xs: seq<Write>, log: seq<Event>, more: seq<Event>, a: nat, d: Duty)
    requires DutyGood(ws, log, a, d) && Extends(ws, xs) && Longer(log, more)
    ensures DutyGood(xs, more, a, d)
  {
    assert xs[d.read - 1] == ws[d.read - 1] && (d.read < |ws| ==> xs[d.read] == ws[d.read]);
    if d.cause == Judged {
      var e := Reported(a, Attempt(ws[d.read - 1].record));
      var i :| 0 <= i < |log| && log[i] == e;
      assert more[i] == e;
    }
  }

  lemma EventStays(ws: seq<Write>, xs: seq<Write>, log: seq<Event>, more: seq<Event>, i: nat)
    requires Extends(ws, xs) && Longer(log, more) && i < |log| && JobEventGood(ws, log, i)
    ensures JobEventGood(xs, more, i)
  {
    assert more[i] == log[i] && more[..i] == log[..i];
    match log[i]
    case SessionStarted(n, s, _, rev) => if rev != 0 { ReservedStays(ws, xs, n, s, rev); }
    case JobStopped(_, Closer(a, d)) => DutyStays(ws, xs, log[..i], more[..i], a, d);
    case JobStopped(_, Reaper(_, read)) => if read > 0 { assert xs[read - 1] == ws[read - 1]; }
    case _ =>
  }

  lemma DutiesStay(w: World, x: World)
    requires DutiesGood(w) && Extends(w.writes, x.writes) && Longer(w.log, x.log)
    requires forall a | a in x.runtime.closing ::
      (a in w.runtime.closing && x.runtime.closing[a] == w.runtime.closing[a])
      || DutyGood(x.writes, x.log, a, x.runtime.closing[a])
    ensures DutiesGood(x)
  {
    forall a | a in x.runtime.closing ensures DutyGood(x.writes, x.log, a, x.runtime.closing[a]) {
      if a in w.runtime.closing && x.runtime.closing[a] == w.runtime.closing[a] {
        DutyStays(w.writes, x.writes, w.log, x.log, a, w.runtime.closing[a]);
      }
    }
  }

  lemma EventsStay(w: World, x: World)
    requires EventsGood(w.writes, w.log) && Extends(w.writes, x.writes) && Longer(w.log, x.log)
    requires forall i | |w.log| <= i < |x.log| :: JobEventGood(x.writes, x.log, i)
    ensures EventsGood(x.writes, x.log)
  {
    forall i | 0 <= i < |x.log| ensures JobEventGood(x.writes, x.log, i) {
      if i < |w.log| { EventStays(w.writes, x.writes, w.log, x.log, i); }
    }
  }

  lemma LoggedStays(log: seq<Event>, more: seq<Event>, n: nat, p: Process)
    requires ProcessLogged(log, n, p) && Longer(log, more)
    requires forall i | |log| <= i < |more| :: more[i].SessionStarted? ==> more[i].process != n
    ensures ProcessLogged(more, n, p)
  {
    if StartedBy(more, n) {
      var i :| 0 <= i < |more| && more[i].SessionStarted? && more[i].process == n;
      assert more[i] == log[i];
    }
    match p.stage
    case Admitted(k, _, created) => if created { MadeStays(log, more, n, SessionFor(p, k)); }
    case Failing(k, _, created) => if created { LostStays(log, more, n, SessionFor(p, k)); }
    case _ =>
  }

  // ---- steps that say nothing of jobs ----

  predicate Quietly(w: World, x: World) {
    && Extends(w.writes, x.writes) && Longer(w.log, x.log)
    && forall i | |w.log| <= i < |x.log| :: JobQuiet(x.log[i])
  }

  predicate StageQuiet(p: Process, q: Process) {
    || q == p
    || q.stage == Recorded || q.stage == Returned
    || (p.stage == Deciding && q.stage.Cleared?)
  }

  predicate ProcessesQuiet(w: World, x: World) {
    && |w.processes| <= |x.processes|
    && (forall n | 0 <= n < |w.processes| :: StageQuiet(w.processes[n], x.processes[n]))
    && (forall n | |w.processes| <= n < |x.processes| :: x.processes[n].stage == Deciding)
  }

  ghost predicate DutiesQuiet(w: World, x: World) {
    forall a | a in x.runtime.closing ::
      (a in w.runtime.closing && x.runtime.closing[a] == w.runtime.closing[a])
      || DutyGood(x.writes, x.log, a, x.runtime.closing[a])
  }

  ghost predicate Silent(w: World, x: World) {
    && Quietly(w, x) && ProcessesQuiet(w, x) && DutiesQuiet(w, x)
    && forall s :: HoldOf(x.runtime.jobs, s) == HoldOf(w.runtime.jobs, s)
  }

  lemma {:induction false} QuietHold(log: seq<Event>, more: seq<Event>, s: Session)
    requires Longer(log, more) && forall i | |log| <= i < |more| :: JobQuiet(more[i])
    ensures HoldIn(more, s) == HoldIn(log, s)
    decreases |more|
  {
    if |log| < |more| {
      var front := more[..|more| - 1];
      assert front[..|log|] == log;
      QuietHold(log, front, s);
      assert JobQuiet(more[|more| - 1]);
    } else {
      assert more == log;
    }
  }

  lemma StartersKnown(w: World, n: nat)
    requires Inv(w) && StartedBy(w.log, n)
    ensures n < |w.processes|
  {
    var i :| 0 <= i < |w.log| && w.log[i].SessionStarted? && w.log[i].process == n;
    assert EventGood(w, i);
  }

  lemma SilentLogged(w: World, x: World)
    requires Inv(w) && AllLogged(w) && Silent(w, x)
    ensures AllLogged(x)
  {
    forall n | 0 <= n < |x.processes| ensures ProcessLogged(x.log, n, x.processes[n]) {
      if n < |w.processes| {
        LoggedStays(w.log, x.log, n, w.processes[n]);
        assert StageQuiet(w.processes[n], x.processes[n]);
      } else if StartedBy(x.log, n) {
        var i :| 0 <= i < |x.log| && x.log[i].SessionStarted? && x.log[i].process == n;
        assert w.log[i] == x.log[i];
        StartersKnown(w, n);
      }
    }
  }

  lemma SilentKeeps(w: World, x: World)
    requires Inv(w) && JobsKnown(w) && Silent(w, x)
    ensures JobsKnown(x)
  {
    EventsStay(w, x);
    DutiesStay(w, x);
    SilentLogged(w, x);
    forall s ensures HoldOf(x.runtime.jobs, s) == HoldIn(x.log, s) { QuietHold(w.log, x.log, s); }
  }

  // ---- an event about a job ----

  lemma HoldAppends(log: seq<Event>, e: Event, s: Session)
    ensures HoldIn(log + [e], s) == HoldAfter(HoldIn(log, s), e, s)
  {
    assert (log + [e])[..|log|] == log;
  }

  lemma OneEvent(w: World, rt: Runtime, e: Event)
    requires JobsKnown(w) && JobEventGood(w.writes, w.log + [e], |w.log|) && !e.SessionStarted?
    requires rt.closing == w.runtime.closing
    requires forall s :: HoldOf(rt.jobs, s) == HoldAfter(HoldOf(w.runtime.jobs, s), e, s)
    ensures JobsKnown(w.(runtime := rt, log := w.log + [e]))
  {
    var x := w.(runtime := rt, log := w.log + [e]);
    EventsStay(w, x);
    DutiesStay(w, x);
    forall s ensures HoldOf(x.runtime.jobs, s) == HoldIn(x.log, s) { HoldAppends(w.log, e, s); }
    forall n | 0 <= n < |x.processes| ensures ProcessLogged(x.log, n, x.processes[n]) {
      LoggedStays(w.log, x.log, n, w.processes[n]);
    }
  }

  lemma AtKnown(w: World, n: nat, stage: Stage)
    requires JobsKnown(w) && n < |w.processes| && ProcessLogged(w.log, n, w.processes[n].(stage := stage))
    ensures JobsKnown(At(w, n, stage))
  {
    var x := At(w, n, stage);
    forall k | 0 <= k < |x.processes| ensures ProcessLogged(x.log, k, x.processes[k]) {
      assert ProcessLogged(w.log, k, w.processes[k]);
    }
  }

  lemma StopJobKnown(w: World, s: Session, stopper: Stopper)
    requires JobsKnown(w) && StopGood(w.writes, w.log, s, stopper)
    ensures JobsKnown(StopJob(w, s, stopper))
  {
    var x := StopJob(w, s, stopper);
    if s in w.runtime.jobs && !w.runtime.jobs[s].stopping {
      assert HoldOf(w.runtime.jobs, s) == HoldIn(w.log, s);
      assert (w.log + [JobStopped(s, stopper)])[..|w.log|] == w.log;
      OneEvent(w, x.runtime, JobStopped(s, stopper));
    }
  }

  lemma CreateJobKnown(w: World, n: nat, s: Session)
    requires JobsKnown(w) && s !in w.runtime.jobs
    ensures JobsKnown(CreateJob(w, n, s))
  {
    assert HoldOf(w.runtime.jobs, s) == HoldIn(w.log, s);
    assert (w.log + [JobCreated(n, s)])[..|w.log|] == w.log;
    OneEvent(w, CreateJob(w, n, s).runtime, JobCreated(n, s));
  }

  lemma GoneKnown(w: World, s: Session, e: Event)
    requires JobsKnown(w) && s in w.runtime.jobs
    requires e == if w.runtime.jobs[s].stopping then JobDeleted(s) else JobExpired(s)
    ensures JobsKnown(Gone(w, s, e))
  {
    assert HoldOf(w.runtime.jobs, s) == HoldIn(w.log, s);
    assert (w.log + [e])[..|w.log|] == w.log;
    OneEvent(w, Gone(w, s, e).runtime, e);
  }

  lemma AdmitKnown(w: World, n: nat, s: Session, created: bool)
    requires JobsKnown(w) && Reserving(w) && n < |w.processes| && w.processes[n].stage.Cleared?
    requires w.processes[n].seen.Some? && s == SessionFor(w.processes[n], w.processes[n].stage.attempt)
    requires if created then |w.log| > 0 && w.log[|w.log| - 1] == JobCreated(n, s)
             else s in w.runtime.jobs && !w.runtime.jobs[s].stopping
    ensures JobsKnown(Admit(w, n, s, created))
  {
    var k := w.processes[n].stage;
    var e := SessionStarted(n, s, created, LandedReservation(k.reservation));
    var x := Admit(w, n, s, created);
    assert Holding(w.writes, n, w.processes[n]) && ProcessLogged(w.log, n, w.processes[n]);
    assert HoldOf(w.runtime.jobs, s) == HoldIn(w.log, s);
    assert x.log[..|w.log|] == w.log && x.log[|w.log|] == e;
    EventsStay(w, x);
    DutiesStay(w, x);
    forall t ensures HoldOf(x.runtime.jobs, t) == HoldIn(x.log, t) { HoldAppends(w.log, e, t); }
    forall m | 0 <= m < |x.processes| ensures ProcessLogged(x.log, m, x.processes[m]) {
      if m != n {
        LoggedStays(w.log, x.log, m, w.processes[m]);
      } else if created {
        assert Makes(x.log[|w.log|], n, s);
      }
    }
  }

  // ---- every step ----

  lemma SessionStartKnown(w: World, n: nat, secret: Secret)
    requires Inv(w) && Reserving(w) && JobsKnown(w)
    ensures JobsKnown(SessionStart(w, n, secret))
  {
    if Live(w, n) && w.processes[n].stage.Cleared? && w.processes[n].seen.Some? {
      var k := w.processes[n].stage;
      var s := SessionFor(w.processes[n], k.attempt);
      var failed := Failing(k.attempt, k.reservation, false);
      if s in w.runtime.jobs {
        if w.runtime.jobs[s].stopping { AtKnown(w, n, failed); } else { AdmitKnown(w, n, s, false); }
      } else {
        CreateJobKnown(w, n, s);
        var x := CreateJob(w, n, s);
        match secret
        case Mounted =>
          assert Reserving(x);
          AdmitKnown(x, n, s, true);
        case Undone =>
          StopJobKnown(x, s, Starter(n));
          AtKnown(StopJob(x, s, Starter(n)), n, failed);
        case Stuck => AtKnown(x, n, failed);
      }
    }
  }

  lemma LandedKnown(w: World, n: nat, r: Record)
    requires Inv(w) && JobsKnown(w)
    ensures JobsKnown(Landed(w, None, n, r, w.clock))
  {
    SilentKeeps(w, Landed(w, None, n, r, w.clock));
  }

  lemma RunningPutKnown(w: World, n: nat, deadline: Time, reply: Reply)
    requires Inv(w) && JobsKnown(w)
    ensures JobsKnown(RunningPut(w, n, deadline, reply))
  {
    if Live(w, n) && w.processes[n].stage.Admitted? && w.processes[n].seen.Some? {
      var k := w.processes[n].stage;
      var r := Rebuilt(w.processes[n].seen.value, Running, k.attempt, deadline);
      LandedKnown(w, n, r);
      var x := if reply == LostError then w else Landed(w, None, n, r, w.clock);
      if reply == Acknowledged {
        AtKnown(x, n, Recorded);
      } else {
        FailKnown(x, n);
      }
    }
  }

  lemma FailKnown(w: World, n: nat)
    requires JobsKnown(w) && n < |w.processes| && w.processes[n].stage.Admitted? && w.processes[n].seen.Some?
    ensures var k := w.processes[n].stage;
      JobsKnown(At(w.(log := w.log + [RunningFailed(n)]), n, Failing(k.attempt, k.reservation, k.created)))
  {
    var k, e := w.processes[n].stage, RunningFailed(n);
    var x := w.(log := w.log + [e]);
    OneEvent(w, w.runtime, e);
    assert ProcessLogged(w.log, n, w.processes[n]);
    assert x.log[|w.log|] == e && x.log[..|w.log|] == w.log;
    AtKnown(x, n, Failing(k.attempt, k.reservation, k.created));
  }

  lemma AbandonKnown(w: World, n: nat)
    requires JobsKnown(w)
    ensures JobsKnown(Abandon(w, n))
  {
    if Live(w, n) && w.processes[n].stage.Failing? && w.processes[n].stage.created && w.processes[n].seen.Some? {
      var k := w.processes[n].stage;
      assert ProcessLogged(w.log, n, w.processes[n]);
      AtKnown(w, n, Failing(k.attempt, k.reservation, false));
      StopJobKnown(At(w, n, Failing(k.attempt, k.reservation, false)), SessionFor(w.processes[n], k.attempt),
                   Creator(n));
    }
  }

  lemma ReleaseKnown(w: World, n: nat)
    requires Inv(w) && JobsKnown(w)
    ensures JobsKnown(Release(w, n))
  {
    SilentKeeps(w, Release(w, n));
  }

  lemma SessionKnown(w: World, s: Step)
    requires Inv(w) && Reserving(w) && JobsKnown(w) && OfSession(s)
    ensures JobsKnown(Do(w, s))
  {
    match s
    case SessionStarts(n, secret) => SessionStartKnown(w, n, secret);
    case RunningPuts(n, t, r) => RunningPutKnown(w, n, t, r);
    case Abandons(n) => AbandonKnown(w, n);
    case Releases(n) => ReleaseKnown(w, n);
  }

  lemma CloseSessionKnown(w: World, a: nat)
    requires JobsKnown(w)
    ensures JobsKnown(CloseSession(w, a))
  {
    if a in w.runtime.closing {
      var d, x := w.runtime.closing[a], w.(runtime := w.runtime.(closing := w.runtime.closing - {a}));
      assert DutyGood(w.writes, w.log, a, d);
      DutiesStay(w, x);
      assert HoldsMatch(x);
      StopJobKnown(x, d.session, Closer(a, d));
    }
  }

  /** The steps that stop, remove or end a job. */
  predicate OfJobs(s: Step) { s.Closes? || s.Reaps? || s.JobDeletes? || s.JobExpires? }

  lemma JobsStepKnown(w: World, s: Step)
    requires JobsKnown(w) && OfJobs(s)
    ensures JobsKnown(Do(w, s))
  {
    match s
    case Closes(a) => CloseSessionKnown(w, a);
    case Reaps(a, j) => if Reap(w, a, j) != w { StopJobKnown(w, j, Reaper(a, w.actors[a].read)); }
    case JobDeletes(j) => if JobDelete(w, j) != w { GoneKnown(w, j, JobDeleted(j)); }
    case JobExpires(j) => if JobExpire(w, j) != w { GoneKnown(w, j, JobExpired(j)); }
  }

  lemma ConcludePutSilent(w: World, a: nat, reply: Reply)
    requires Inv(w)
    ensures Silent(w, ConcludePut(w, a, reply))
  {
    if a in w.actors && w.actors[a].Concluding? {
      PhaseKnown(w, a);
      var c, x := w.actors[a], ConcludePut(w, a, reply);
      ConcludeDuty(w, a, reply);
      assert forall b | b in x.runtime.closing && b != a :: b in w.runtime.closing;
    }
  }

  lemma ConcludeDuty(w: World, a: nat, reply: Reply)
    requires Inv(w) && a in w.actors && w.actors[a].Concluding?
    ensures var c, x := w.actors[a], ConcludePut(w, a, reply);
      c.seen.session && ClosesAfter(w, c.seen.revision, c.ending, reply) ==>
        DutyGood(x.writes, x.log, a, Duty(SessionOf(c.seen), c.seen.revision, CauseOf(c.ending)))
  {
    PhaseKnown(w, a);
    var c, x := w.actors[a], ConcludePut(w, a, reply);
    assert x.writes[c.seen.revision - 1] == w.writes[c.seen.revision - 1];
    if c.ending.Finished? {
      var e := Reported(a, Attempt(c.seen));
      var i :| 0 <= i < |w.log| && w.log[i] == e;
      assert x.log[i] == e;
    }
  }

  lemma RetryPutSilent(w: World, a: nat, reply: Reply)
    requires Inv(w)
    ensures Silent(w, RetryPut(w, a, reply))
  {
    if a in w.actors && w.actors[a].RetryReported? {
      PhaseKnown(w, a);
      RetryDuty(w, a, reply);
    }
  }

  lemma RetryDuty(w: World, a: nat, reply: Reply)
    requires Inv(w) && a in w.actors && w.actors[a].RetryReported?
    ensures var r, x := w.actors[a].seen, RetryPut(w, a, reply);
      r.session ==> DutyGood(x.writes, x.log, a, Duty(SessionOf(r), r.revision, Judged))
  {
    PhaseKnown(w, a);
    var r, x := w.actors[a].seen, RetryPut(w, a, reply);
    assert x.writes[r.revision - 1] == w.writes[r.revision - 1];
    var e := Reported(a, Attempt(r));
    var i :| 0 <= i < |w.log| && w.log[i] == e;
    assert x.log[i] == e;
  }

  lemma RuntimeSilent(w: World, s: Step)
    requires Inv(w) && OfRuntime(s) && !OfJobs(s)
    ensures Silent(w, Do(w, s))
  {
    if s.ConcludePuts? { ConcludePutSilent(w, s.a, s.reply); }
  }

  lemma PlainlySilent(w: World, s: Step)
    requires Plainly(s)
    ensures Silent(w, Do(w, s))
  {}

  lemma ReservesSilent(w: World, s: Step)
    requires OfProcess(s) && !OfSession(s) && !Plainly(s)
    ensures Silent(w, Do(w, s))
  {}

  lemma ProcessSilent(w: World, s: Step)
    requires OfProcess(s) && !OfSession(s)
    ensures Silent(w, Do(w, s))
  {
    if Plainly(s) { PlainlySilent(w, s); } else { ReservesSilent(w, s); }
  }

  lemma CheckSilent(w: World, s: Step)
    requires OfCheck(s)
    ensures Silent(w, Do(w, s))
  {}

  lemma PassSilent(w: World, s: Step)
    requires !OfProcess(s) && !OfRuntime(s) && !OfCheck(s) && !s.RetryPuts?
    ensures Silent(w, Do(w, s))
  {}

  lemma StepKnown(w: World, s: Step)
    requires Inv(w) && Reserving(w) && JobsKnown(w)
    ensures JobsKnown(Do(w, s))
  {
    if OfSession(s) {
      SessionKnown(w, s);
    } else if OfJobs(s) {
      JobsStepKnown(w, s);
    } else {
      if OfProcess(s) {
        ProcessSilent(w, s);
      } else if OfRuntime(s) {
        RuntimeSilent(w, s);
      } else if OfCheck(s) {
        CheckSilent(w, s);
      } else if s.RetryPuts? {
        RetryPutSilent(w, s.a, s.reply);
      } else {
        PassSilent(w, s);
      }
      SilentKeeps(w, Do(w, s));
    }
  }

  lemma {:induction false} RunKnows(clock: Time, steps: seq<Step>)
    requires 0 < clock
    ensures JobsKnown(Run(Start(clock), steps))
  {
    if steps != [] {
      RunKeeps(clock, steps[..|steps| - 1]);
      RunReserves(clock, steps[..|steps| - 1]);
      RunKnows(clock, steps[..|steps| - 1]);
      StepKnown(Run(Start(clock), steps[..|steps| - 1]), steps[|steps| - 1]);
    }
  }
}
