/** What the code makes sure of about a fix's sessions: when a start makes a job, what lies between two
    jobs of one name, who stops one, and what lies between two starts for one attempt. */
module FixProtocolSessions {
  import opened Basics
  import opened FixProtocol
  import opened FixProtocolSteps
  import opened FixProtocolReservations
  import opened FixProtocolJobs

  // ---- a name's jobs ----

  predicate Creates(e: Event, s: Session) { e.JobCreated? && e.session == s }
  predicate Stops(e: Event, s: Session) { e.JobStopped? && e.session == s }
  predicate Removes(e: Event, s: Session) { (e.JobDeleted? || e.JobExpired?) && e.session == s }

  predicate GoneSince(log: seq<Event>, i: nat, s: Session) { exists j | i < j < |log| :: Removes(log[j], s) }
  predicate StoppedSince(log: seq<Event>, i: nat, s: Session) { exists j | i < j < |log| :: Stops(log[j], s) }

  /** Every job the name was given is gone. */
  predicate AllGone(log: seq<Event>, s: Session) {
    forall i | 0 <= i < |log| && Creates(log[i], s) :: GoneSince(log, i, s)
  }

  predicate UpFrom(log: seq<Event>, i: nat, s: Session)
    requires i < |log|
  {
    Creates(log[i], s) && !GoneSince(log, i, s) && !StoppedSince(log, i, s)
  }

  /** One of them is there, and nobody has had it stopped. */
  predicate OneUp(log: seq<Event>, s: Session) { exists i | 0 <= i < |log| :: UpFrom(log, i, s) }

  predicate StoppedLast(log: seq<Event>, l: nat, s: Session)
    requires l < |log|
  {
    Stops(log[l], s) && forall i | l < i < |log| :: !Creates(log[i], s)
  }

  lemma PrefixGood(ws: seq<Write>, log: seq<Event>, k: nat)
    requires EventsGood(ws, log) && k <= |log|
    ensures EventsGood(ws, log[..k])
  {
    forall i | 0 <= i < k ensures JobEventGood(ws, log[..k], i) {
      assert JobEventGood(ws, log, i) && log[..k][..i] == log[..i];
    }
  }

  /** The log's last word on a name, as its whole history. */
  lemma {:induction false} HoldMeans(ws: seq<Write>, log: seq<Event>, s: Session)
    requires EventsGood(ws, log)
    ensures HoldIn(log, s) == NoJob <==> AllGone(log, s)
    ensures HoldIn(log, s) == Up <==> OneUp(log, s)
    ensures HoldIn(log, s) == Stopping ==> exists l | 0 <= l < |log| :: StoppedLast(log, l, s)
  {
    if log != [] {
      var front, e := log[..|log| - 1], log[|log| - 1];
      PrefixGood(ws, log, |log| - 1);
      HoldMeans(ws, front, s);
      assert JobEventGood(ws, log, |log| - 1);
      assert log == front + [e];
      if Creates(e, s) {
        CreatedMeans(front, e, s);
      } else if Stops(e, s) {
        StoppedMeans(front, e, s);
      } else if Removes(e, s) {
        RemovedMeans(front, e, s);
      } else {
        OtherMeans(front, e, s);
      }
    }
  }

  lemma CreatedMeans(log: seq<Event>, e: Event, s: Session)
    requires Creates(e, s) && AllGone(log, s)
    ensures !AllGone(log + [e], s) && OneUp(log + [e], s)
  {
    assert (log + [e])[|log|] == e;
    assert UpFrom(log + [e], |log|, s);
  }

  lemma StoppedMeans(log: seq<Event>, e: Event, s: Session)
    requires Stops(e, s) && OneUp(log, s)
    ensures !AllGone(log + [e], s) && !OneUp(log + [e], s)
    ensures StoppedLast(log + [e], |log|, s)
  {
    var more := log + [e];
    assert more[|log|] == e;
    var i :| 0 <= i < |log| && UpFrom(log, i, s);
    assert Creates(more[i], s) && !GoneSince(more, i, s);
    forall k | 0 <= k < |more| ensures !UpFrom(more, k, s) {
      if k < |log| { assert StoppedSince(more, k, s); }
    }
  }

  lemma RemovedMeans(log: seq<Event>, e: Event, s: Session)
    requires Removes(e, s)
    ensures AllGone(log + [e], s) && !OneUp(log + [e], s)
  {
    var more := log + [e];
    assert more[|log|] == e;
    forall k | 0 <= k < |more| && Creates(more[k], s) ensures GoneSince(more, k, s) { assert Removes(more[|log|], s); }
  }

  lemma OtherMeans(log: seq<Event>, e: Event, s: Session)
    requires !Creates(e, s) && !Stops(e, s) && !Removes(e, s)
    ensures AllGone(log + [e], s) <==> AllGone(log, s)
    ensures OneUp(log + [e], s) <==> OneUp(log, s)
    ensures forall l | 0 <= l < |log| && StoppedLast(log, l, s) :: StoppedLast(log + [e], l, s)
  {
    var more := log + [e];
    forall k | 0 <= k < |log|
      ensures GoneSince(more, k, s) <==> GoneSince(log, k, s)
      ensures StoppedSince(more, k, s) <==> StoppedSince(log, k, s)
    {
      SinceAppends(log, e, s, k);
    }
    assert forall k | 0 <= k < |log| :: more[k] == log[k] && (UpFrom(more, k, s) <==> UpFrom(log, k, s));
  }

  lemma SinceAppends(log: seq<Event>, e: Event, s: Session, k: nat)
    requires k < |log| && !Stops(e, s) && !Removes(e, s)
    ensures GoneSince(log + [e], k, s) <==> GoneSince(log, k, s)
    ensures StoppedSince(log + [e], k, s) <==> StoppedSince(log, k, s)
  {
    var more := log + [e];
    assert more[|log|] == e && forall j | 0 <= j < |log| :: more[j] == log[j];
  }

  // ---- starts ----

  /** What a start comes to, by the end of its log: a job made, one handed back, or neither. */
  predicate MakesJob(log: seq<Event>, more: seq<Event>, n: nat, s: Session) {
    |more| > |log| && more[|log|] == JobCreated(n, s)
  }

  predicate HandsBack(log: seq<Event>, more: seq<Event>, n: nat, s: Session) {
    |more| > |log| && more[|log|].SessionStarted? && more[|log|].process == n && more[|log|].session == s
    && !more[|log|].created
  }

  /** In every run, the start of a session makes a job exactly when every job the name ever had is gone,
      and is handed one exactly when one is there that nobody has had stopped; otherwise it is refused. */
  lemma StartsExactly(clock: Time, steps: seq<Step>, n: nat, secret: Secret)
    requires 0 < clock
    requires var w := Run(Start(clock), steps); Live(w, n) && w.processes[n].stage.Cleared?
    ensures var w := Run(Start(clock), steps);
      var x := SessionStart(w, n, secret);
      && w.processes[n].seen.Some?
      && var s := SessionFor(w.processes[n], w.processes[n].stage.attempt);
         && (MakesJob(w.log, x.log, n, s) <==> AllGone(w.log, s))
         && (HandsBack(w.log, x.log, n, s) <==> OneUp(w.log, s))
         && (x.log == w.log <==> !AllGone(w.log, s) && !OneUp(w.log, s))
  {
    RunKeeps(clock, steps);
    RunReserves(clock, steps);
    RunKnows(clock, steps);
    StartExactly(Run(Start(clock), steps), n, secret);
  }

  lemma StartExactly(w: World, n: nat, secret: Secret)
    requires Reserving(w) && JobsKnown(w) && Live(w, n) && w.processes[n].stage.Cleared?
    ensures var x := SessionStart(w, n, secret);
      && w.processes[n].seen.Some?
      && var s := SessionFor(w.processes[n], w.processes[n].stage.attempt);
         && (MakesJob(w.log, x.log, n, s) <==> AllGone(w.log, s))
         && (HandsBack(w.log, x.log, n, s) <==> OneUp(w.log, s))
         && (x.log == w.log <==> !AllGone(w.log, s) && !OneUp(w.log, s))
  {
    assert Holding(w.writes, n, w.processes[n]);
    var s := SessionFor(w.processes[n], w.processes[n].stage.attempt);
    HoldMeans(w.writes, w.log, s);
    assert HoldOf(w.runtime.jobs, s) == HoldIn(w.log, s);
    StartByHold(w, n, s, secret);
  }

  lemma StartByHold(w: World, n: nat, s: Session, secret: Secret)
    requires Live(w, n) && w.processes[n].stage.Cleared? && w.processes[n].seen.Some?
    requires s == SessionFor(w.processes[n], w.processes[n].stage.attempt)
    ensures var x, h := SessionStart(w, n, secret), HoldOf(w.runtime.jobs, s);
      && (MakesJob(w.log, x.log, n, s) <==> h == NoJob)
      && (HandsBack(w.log, x.log, n, s) <==> h == Up)
      && (x.log == w.log <==> h == Stopping)
  {}

  // ---- between two jobs of one name ----

  /** The name's job went between i and k: it finished and its time was up; or somebody had it stopped
      after i, with the evidence that it was his to stop, and it was deleted. */
  ghost predicate WentBetween(ws: seq<Write>, log: seq<Event>, i: nat, k: nat, s: Session)
    requires i < k < |log|
  {
    || log[k] == JobExpired(s)
    || (log[k] == JobDeleted(s) && exists l | i < l < k :: StoppedFor(ws, log, l, s))
  }

  predicate StoppedFor(ws: seq<Write>, log: seq<Event>, l: nat, s: Session)
    requires l < |log|
  {
    log[l].JobStopped? && log[l].session == s && StopGood(ws, log[..l], s, log[l].stopper)
  }

  /** In every run, between two jobs of one name the first went: at the end of its time, or stopped by a
      dispatch that had made one of that name and lost its running record; by a sweep that had read a
      running record naming it and had reported its outcome, opened its merge request, or parked that
      record without it; by a sweep that had read a record not naming it; or by the very start that
      made it. */
  lemma OneJobAtATime(clock: Time, steps: seq<Step>, i: nat, j: nat, s: Session)
    requires 0 < clock
    requires var log := Run(Start(clock), steps).log;
      i < j < |log| && Creates(log[i], s) && Creates(log[j], s)
    ensures var w := Run(Start(clock), steps);
      exists k | i < k < j :: WentBetween(w.writes, w.log, i, k, s)
  {
    RunKnows(clock, steps);
    WentOnce(Run(Start(clock), steps).writes, Run(Start(clock), steps).log, i, j, s);
  }

  lemma WentOnce(ws: seq<Write>, log: seq<Event>, i: nat, j: nat, s: Session)
    requires EventsGood(ws, log) && i < j < |log| && Creates(log[i], s) && Creates(log[j], s)
    ensures exists k | i < k < j :: WentBetween(ws, log, i, k, s)
  {
    assert JobEventGood(ws, log, j);
    PrefixGood(ws, log, j);
    HoldMeans(ws, log[..j], s);
    assert Creates(log[..j][i], s);
    var k :| i < k < j && Removes(log[..j][k], s);
    RemovalFor(ws, log, i, k, s);
  }

  lemma RemovalFor(ws: seq<Write>, log: seq<Event>, i: nat, k: nat, s: Session)
    requires EventsGood(ws, log) && i < k < |log| && Creates(log[i], s) && Removes(log[k], s)
    ensures WentBetween(ws, log, i, k, s)
  {
    assert JobEventGood(ws, log, k);
    if log[k].JobDeleted? {
      PrefixGood(ws, log, k);
      HoldMeans(ws, log[..k], s);
      var l :| 0 <= l < k && StoppedLast(log[..k], l, s);
      assert Creates(log[..k][i], s) && log[..k][l] == log[l];
      assert JobEventGood(ws, log, l);
      assert i < l < k && StoppedFor(ws, log, l, s);
    }
  }

  /** In every run, a dispatch that had a job stopped for want of its record had made it, and never was
      handed one. */
  lemma AdoptersNeverStop(clock: Time, steps: seq<Step>, l: nat, n: nat, s: Session)
    requires 0 < clock
    requires var log := Run(Start(clock), steps).log; l < |log| && log[l] == JobStopped(s, Creator(n))
    ensures var log := Run(Start(clock), steps).log;
      && LostRecord(log[..l], n, s)
      && forall i | 0 <= i < |log| && log[i].SessionStarted? && log[i].process == n :: Makes(log[i], n, s)
  {
    RunKnows(clock, steps);
    StopperMade(Run(Start(clock), steps).writes, Run(Start(clock), steps).log, l, n, s);
  }

  lemma StartsOnce(ws: seq<Write>, log: seq<Event>, i: nat, j: nat)
    requires EventsGood(ws, log) && i < |log| && j < |log| && log[i].SessionStarted? && log[j].SessionStarted?
    requires log[i].process == log[j].process
    ensures i == j
  {
    if i < j { NotTwice(ws, log, i, j); }
    if j < i { NotTwice(ws, log, j, i); }
  }

  lemma NotTwice(ws: seq<Write>, log: seq<Event>, i: nat, j: nat)
    requires EventsGood(ws, log) && i < j < |log| && log[i].SessionStarted? && log[j].SessionStarted?
    ensures log[i].process != log[j].process
  {
    assert JobEventGood(ws, log, j);
    assert log[..j][i] == log[i];
  }

  lemma StopperMade(ws: seq<Write>, log: seq<Event>, l: nat, n: nat, s: Session)
    requires EventsGood(ws, log) && l < |log| && log[l] == JobStopped(s, Creator(n))
    ensures LostRecord(log[..l], n, s)
    ensures forall i | 0 <= i < |log| && log[i].SessionStarted? && log[i].process == n :: Makes(log[i], n, s)
  {
    assert JobEventGood(ws, log, l);
    var j :| 0 <= j < l && log[..l][j] == RunningFailed(n) && Made(log[..l][..j], n, s);
    var k :| 0 <= k < j && Makes(log[..l][..j][k], n, s);
    assert log[k] == log[..l][..j][k];
    forall i | 0 <= i < |log| && log[i].SessionStarted? && log[i].process == n ensures Makes(log[i], n, s) {
      StartsOnce(ws, log, i, k);
    }
  }

  /** A dispatch stops by name. In every run, the job it has stopped is the one it made exactly when that
      has not gone since; otherwise it is a later one of the name. */
  lemma StopsItsOwnExactly(clock: Time, steps: seq<Step>, i: nat, l: nat, n: nat, s: Session)
    requires 0 < clock
    requires var log := Run(Start(clock), steps).log;
      i < l < |log| && log[i] == JobCreated(n, s) && log[l] == JobStopped(s, Creator(n))
    ensures var log := Run(Start(clock), steps).log[..l];
      && (UpFrom(log, i, s) <==> !GoneSince(log, i, s))
      && (GoneSince(log, i, s) ==> exists j | i < j < l :: UpFrom(log, j, s))
  {
    RunKnows(clock, steps);
    OwnOrLater(Run(Start(clock), steps).writes, Run(Start(clock), steps).log, i, l, s);
  }

  lemma OwnOrLater(ws: seq<Write>, log: seq<Event>, i: nat, l: nat, s: Session)
    requires EventsGood(ws, log) && i < l < |log| && Creates(log[i], s) && Stops(log[l], s)
    ensures UpFrom(log[..l], i, s) <==> !GoneSince(log[..l], i, s)
    ensures GoneSince(log[..l], i, s) ==> exists j | i < j < l :: UpFrom(log[..l], j, s)
  {
    assert JobEventGood(ws, log, l);
    PrefixGood(ws, log, l);
    HoldMeans(ws, log[..l], s);
    var j :| 0 <= j < l && UpFrom(log[..l], j, s);
    assert Creates(log[..l][i], s);
    if j < i { WentFirst(ws, log[..l], j, i, s); }
    if i < j { WentFirst(ws, log[..l], i, j, s); }
  }

  lemma WentFirst(ws: seq<Write>, log: seq<Event>, i: nat, j: nat, s: Session)
    requires EventsGood(ws, log) && i < j < |log| && Creates(log[i], s) && Creates(log[j], s)
    ensures GoneSince(log, i, s)
  {
    assert JobEventGood(ws, log, j);
    PrefixGood(ws, log, j);
    HoldMeans(ws, log[..j], s);
    assert Creates(log[..j][i], s);
    var k :| i < k < j && Removes(log[..j][k], s);
    assert Removes(log[k], s);
  }

  // ---- between two starts for one attempt ----

  /** Both starts had reservations of their own; the later was made only once some write between them
      had taken the session off the record. */
  ghost predicate Apart(ws: seq<Write>, n: nat, i: nat, m: nat, j: nat, s: Session) {
    && Reserved(ws, n, s, i) && Reserved(ws, m, s, j)
    && if i < j then FreedBetween(ws, i, j, s.attempt) else j < i && FreedBetween(ws, j, i, s.attempt)
  }

  /** In every run, two starts of one session are two dispatches'; and one of them went on without a
      reservation that landed, or their reservations lie apart. */
  lemma StartsApart(clock: Time, steps: seq<Step>, i: nat, j: nat)
    requires 0 < clock
    requires var log := Run(Start(clock), steps).log;
      i < j < |log| && log[i].SessionStarted? && log[j].SessionStarted? && log[i].session == log[j].session
    ensures var w := Run(Start(clock), steps);
      var x, y := w.log[i], w.log[j];
      && x.process != y.process
      && (x.reservation == 0 || y.reservation == 0
          || Apart(w.writes, x.process, x.reservation, y.process, y.reservation, x.session))
  {
    RunKnows(clock, steps);
    StartedApart(Run(Start(clock), steps).writes, Run(Start(clock), steps).log, i, j);
  }

  lemma StartedApart(ws: seq<Write>, log: seq<Event>, i: nat, j: nat)
    requires EventsGood(ws, log) && i < j < |log|
    requires log[i].SessionStarted? && log[j].SessionStarted? && log[i].session == log[j].session
    ensures var x, y := log[i], log[j];
      && x.process != y.process
      && (x.reservation == 0 || y.reservation == 0
          || Apart(ws, x.process, x.reservation, y.process, y.reservation, x.session))
  {
    var x, y := log[i], log[j];
    NotTwice(ws, log, i, j);
    assert JobEventGood(ws, log, i) && JobEventGood(ws, log, j);
    if x.reservation != 0 && y.reservation != 0 {
      if x.reservation < y.reservation {
        ReservedApart(ws, x.process, x.reservation, y.process, y.reservation, x.session);
      } else {
        ReservedApart(ws, y.process, y.reservation, x.process, x.reservation, x.session);
      }
    }
  }

  lemma ReservedApart(ws: seq<Write>, n: nat, i: nat, m: nat, j: nat, s: Session)
    requires Reserved(ws, n, s, i) && Reserved(ws, m, s, j) && n != m && i <= j
    ensures i < j && FreedBetween(ws, i, j, s.attempt)
  {
    assert Vacant(ws, j - 1, s.attempt);
  }
}
