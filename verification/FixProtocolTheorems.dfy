/** What the fix protocol promises over every run: whose orders fire, when, and after what. */
module FixProtocolTheorems {
  import opened Basics
  import opened FixRecord
  import opened FixProtocol
  import opened FixProtocolSafety
  import opened FixProtocolSteps
  import opened FixProtocolOwners

  // ---- one order, one write ----

  /** The pass made write k, one that fires. */
  predicate Made(ws: seq<Write>, a: nat, k: nat) { k < |ws| && ws[k].pass.Some? && ws[k].actor == a }

  /** An order that is not an unpark's has its own landed write, made by the pass that fired it, carrying
      the deadline the order carries; nothing else was fired from that write. */
  ghost predicate WinsItsWrite(w: World, n: nat)
    requires n < |w.orders|
  {
    var o := w.orders[n];
    && WonWrite(w.writes, o.pass, o.actor, o.revision)
    && o.fireBy == FireBy(w.writes[o.revision - 1].now) && o.fireBy != ZERO_TIME
    && forall m | 0 <= m < |w.orders| && m != n :: w.orders[m].revision != o.revision
  }

  /** An order has a write of its own exactly when it is not an unpark's. An unpark's carries no
      deadline and was fired from a parked record as it stood. */
  lemma OrdersWinTheirWrites(clock: Time, steps: seq<Step>, n: nat)
    requires 0 < clock && n < |Run(Start(clock), steps).orders|
    ensures var w := Run(Start(clock), steps);
      var o := w.orders[n];
      && (o.pass != Unpark <==> exists k :: Made(w.writes, o.actor, k))
      && (o.pass != Unpark ==> WinsItsWrite(w, n))
      && (o.pass == Unpark ==> FromParked(w.writes, o) && o.fireBy == ZERO_TIME)
  {
    RunKeeps(clock, steps);
    RunOwns(clock, steps);
    OrderOwnsOrNot(Run(Start(clock), steps), n);
  }

  lemma OrderOwnsOrNot(w: World, n: nat)
    requires Inv(w) && Owners(w) && n < |w.orders|
    ensures var o := w.orders[n];
      && (o.pass != Unpark <==> exists k :: Made(w.writes, o.actor, k))
      && (o.pass != Unpark ==> WinsItsWrite(w, n))
      && (o.pass == Unpark ==> FromParked(w.writes, o) && o.fireBy == ZERO_TIME)
  {
    var o := w.orders[n];
    assert OrderGood(w, o) && OrderOwned(w, o);
    if o.pass == Unpark {
      assert GoodWrite(w.writes, o.revision - 1, w.clock);
    } else {
      assert Made(w.writes, o.actor, o.revision - 1);
      OwnWriteAlone(w, n);
    }
  }

  lemma OwnWriteAlone(w: World, n: nat)
    requires Inv(w) && Owners(w) && n < |w.orders| && w.orders[n].pass != Unpark
    ensures WinsItsWrite(w, n)
  {
    var o := w.orders[n];
    assert OrderGood(w, o);
    assert GoodWrite(w.writes, o.revision - 1, w.clock);
    forall m | 0 <= m < |w.orders| && m != n ensures w.orders[m].revision != o.revision {
      assert OrderGood(w, w.orders[m]) && OrderOwned(w, w.orders[m]);
    }
  }

  /** A conditional write that lost, or whose reply was an error (landed or not). */
  predicate LosesWrite(w: World, s: Step) {
    match s
    case LookPuts(a, reply) =>
      a in w.actors && w.actors[a].LookDecided? && !Wins(w, ExpectedRevision(w.actors[a].before), reply)
    case CheckPuts(a, reply) => a in w.actors && w.actors[a].CheckReported?
      && !Wins(w, w.actors[a].seen.revision, reply)
    case RetryPuts(a, reply) => a in w.actors && w.actors[a].RetryReported?
      && !Wins(w, w.actors[a].seen.revision, reply)
    case _ => false
  }

  function PassOf(s: Step): nat
    requires s.LookPuts? || s.CheckPuts? || s.RetryPuts?
  {
    s.a
  }

  predicate NeverFires(w: World, a: nat) {
    a in w.actors && w.actors[a] == Ended && forall n | 0 <= n < |w.orders| :: w.orders[n].actor != a
  }

  lemma NeverFiresStep(w: World, s: Step, a: nat)
    requires NeverFires(w, a)
    ensures NeverFires(Do(w, s), a)
  {
    if MayOwn(s) { NeverFiresOwn(w, s, a); } else { StepUnfiring(w, s); }
  }

  lemma NeverFiresOwn(w: World, s: Step, a: nat)
    requires NeverFires(w, a) && MayOwn(s)
    ensures NeverFires(Do(w, s), a)
  {}

  lemma {:induction false} NeverFiresRun(w: World, steps: seq<Step>, a: nat)
    requires NeverFires(w, a)
    ensures NeverFires(Run(w, steps), a)
  {
    if steps != [] {
      NeverFiresRun(w, steps[..|steps| - 1], a);
      NeverFiresStep(Run(w, steps[..|steps| - 1]), steps[|steps| - 1], a);
    }
  }

  /** A pass that did not win its write fires nothing, however the run goes on. */
  lemma LoserFiresNothing(clock: Time, steps: seq<Step>, lost: Step, more: seq<Step>)
    requires 0 < clock && LosesWrite(Run(Start(clock), steps), lost)
    ensures forall n | 0 <= n < |Run(Do(Run(Start(clock), steps), lost), more).orders| ::
      Run(Do(Run(Start(clock), steps), lost), more).orders[n].actor != PassOf(lost)
  {
    RunKeeps(clock, steps);
    var w, a := Run(Start(clock), steps), PassOf(lost);
    forall n | 0 <= n < |w.orders| ensures w.orders[n].actor != a { assert OrderGood(w, w.orders[n]); }
    assert NeverFires(Do(w, lost), a);
    NeverFiresRun(Do(w, lost), more, a);
  }

  // ---- windows ----

  /** No write that an order follows lands over a record whose fire window is open by the writer's
      clock. */
  lemma WindowsRespected(clock: Time, steps: seq<Step>, i: nat)
    requires 0 < clock
    ensures var ws := Run(Start(clock), steps).writes;
      0 < i < |ws| && ws[i].pass.Some? ==> !WindowOpen(ws[i - 1].record, ws[i].now)
  {
    RunKeeps(clock, steps);
    var w := Run(Start(clock), steps);
    if 0 < i < |w.writes| { assert GoodWrite(w.writes, i, w.clock); }
  }

  /** Once the window of an order is over, every dispatch process it started, and every one it will
      ever start, is dead. */
  lemma NoDispatchOutlivesItsWindow(clock: Time, steps: seq<Step>, more: seq<Step>, n: nat)
    requires 0 < clock
    requires var w := Run(Start(clock), steps);
      n < |w.orders| && w.orders[n].fireBy != ZERO_TIME && EndOf(w.orders[n].fireBy) <= w.clock
    ensures var w, x := Run(Start(clock), steps), Run(Start(clock), steps + more);
      forall i | 0 <= i < |x.processes| && x.processes[i].order == n :: !Alive(x.processes[i], w.clock)
  {
    RunKeeps(clock, steps + more);
    RunSplits(Start(clock), steps, more);
    var w, x := Run(Start(clock), steps), Run(Start(clock), steps + more);
    OrdersStay(w, more, n);
    forall i | 0 <= i < |x.processes| && x.processes[i].order == n ensures !Alive(x.processes[i], w.clock) {
      assert ProcessGood(x, x.processes[i]);
    }
  }

  lemma {:induction false} RunSplits(w: World, steps: seq<Step>, more: seq<Step>)
    ensures Run(w, steps + more) == Run(Run(w, steps), more)
  {
    if more == [] {
      assert steps + more == steps;
    } else {
      var n := |steps + more| - 1;
      assert (steps + more)[..n] == steps + more[..|more| - 1] && (steps + more)[n] == more[|more| - 1];
      RunSplits(w, steps, more[..|more| - 1]);
    }
  }

  lemma OrderStays(w: World, s: Step, n: nat)
    requires n < |w.orders|
    ensures n < |Do(w, s).orders| && Do(w, s).orders[n] == w.orders[n]
  {
    if !MayOwn(s) { StepUnfiring(w, s); }
  }

  lemma {:induction false} OrdersStay(w: World, steps: seq<Step>, n: nat)
    requires n < |w.orders|
    ensures n < |Run(w, steps).orders| && Run(w, steps).orders[n] == w.orders[n]
  {
    if steps != [] {
      OrdersStay(w, steps[..|steps| - 1], n);
      OrderStays(Run(w, steps[..|steps| - 1]), steps[|steps| - 1], n);
    }
  }

  // ---- settlement ----

  ghost predicate FiredInOrder(w: World, n: nat, o: Order)
    requires n <= |w.log|
  {
    2 <= o.revision <= |w.writes| &&
    var k := Attempt(w.writes[o.revision - 2].record);
    exists i, j, l | 0 <= i < j < l < n ::
      Tells(w.log[i], o.actor, k) && w.log[j] == Reported(o.actor, k) && w.log[l] == Wrote(o.actor, o.revision)
  }

  lemma EarnedInOrder(w: World, n: nat, o: Order)
    requires n <= |w.log| && 2 <= o.revision <= |w.writes|
    requires WroteLast(w.log[..n], Check, o.actor, o.revision, Attempt(w.writes[o.revision - 2].record))
    ensures FiredInOrder(w, n, o)
  {
    var k, log := Attempt(w.writes[o.revision - 2].record), w.log[..n];
    var l :| 0 <= l < |log| && log[l] == Wrote(o.actor, o.revision) && Earned(log[..l], Check, o.actor, k);
    var j :| 0 <= j < l && log[..l][j] == Reported(o.actor, k) && Told(log[..l][..j], o.actor, k);
    var i :| 0 <= i < j && Tells(log[..l][..j][i], o.actor, k);
    assert w.log[i] == log[..l][..j][i] && w.log[j] == log[..l][j] && w.log[l] == log[l];
  }

  /** An exit check's order for a further attempt: first somebody was told (or the check had waited
      past its bound), then meter accepted the outcome, then the record write landed, then it fired. */
  lemma SettlesInOrder(clock: Time, steps: seq<Step>, n: nat)
    requires 0 < clock
    requires var w := Run(Start(clock), steps);
      n < |w.log| && w.log[n].Fired? && w.log[n].order < |w.orders| && w.orders[w.log[n].order].pass == Check
    ensures var w := Run(Start(clock), steps);
      FiredInOrder(w, n, w.orders[w.log[n].order])
  {
    RunKeeps(clock, steps);
    CheckOrderEarned(Run(Start(clock), steps), n);
  }

  lemma CheckOrderEarned(w: World, n: nat)
    requires Inv(w) && n < |w.log| && w.log[n].Fired? && w.log[n].order < |w.orders|
        && w.orders[w.log[n].order].pass == Check
    ensures FiredInOrder(w, n, w.orders[w.log[n].order])
  {
    var o := w.orders[w.log[n].order];
    assert EventGood(w, n) && OrderGood(w, o);
    EarnedInOrder(w, n, o);
  }

  /** The same for the re-sling of a failed session: reported, then written, then fired. */
  lemma RetriesInOrder(clock: Time, steps: seq<Step>, n: nat)
    requires 0 < clock
    requires var w := Run(Start(clock), steps);
      n < |w.log| && w.log[n].Fired? && w.log[n].order < |w.orders| && w.orders[w.log[n].order].pass == Retry
    ensures var w := Run(Start(clock), steps);
      var o := w.orders[w.log[n].order];
      1 <= o.revision <= |w.writes| &&
      exists j, l | 0 <= j < l < n ::
        w.log[j] == Reported(o.actor, JudgedBy(w.writes, o.revision)) && w.log[l] == Wrote(o.actor, o.revision)
  {
    RunKeeps(clock, steps);
    var w := Run(Start(clock), steps);
    var o := w.orders[w.log[n].order];
    assert EventGood(w, n) && OrderGood(w, o);
    var k, log := JudgedBy(w.writes, o.revision), w.log[..n];
    var l :| 0 <= l < |log| && log[l] == Wrote(o.actor, o.revision) && Earned(log[..l], Retry, o.actor, k);
    var j :| 0 <= j < l && log[..l][j] == Reported(o.actor, k);
    assert w.log[j] == log[..l][j] && w.log[l] == log[l];
  }

  /** No exit check orders an attempt past max_attempts, and no dispatch starts a session for one. */
  lemma AttemptsCapped(clock: Time, steps: seq<Step>)
    requires 0 < clock
    ensures var w := Run(Start(clock), steps);
      forall n | 0 <= n < |w.orders| && w.orders[n].pass == Check ::
        2 <= w.orders[n].revision <= |w.writes| && UnderCap(w.writes[w.orders[n].revision - 2].record)
    ensures var w := Run(Start(clock), steps);
      forall n | 0 <= n < |w.log| && w.log[n].SessionStarted? :: SessionUnderCap(w, w.log[n])
  {
    RunKeeps(clock, steps);
    OrdersUnderCap(Run(Start(clock), steps));
    SessionsUnderCap(Run(Start(clock), steps));
  }

  lemma OrdersUnderCap(w: World)
    requires Inv(w)
    ensures forall n | 0 <= n < |w.orders| && w.orders[n].pass == Check ::
      2 <= w.orders[n].revision <= |w.writes| && UnderCap(w.writes[w.orders[n].revision - 2].record)
  {
    forall n | 0 <= n < |w.orders| && w.orders[n].pass == Check
      ensures 2 <= w.orders[n].revision <= |w.writes| && UnderCap(w.writes[w.orders[n].revision - 2].record)
    {
      assert OrderGood(w, w.orders[n]);
    }
  }

  predicate SessionUnderCap(w: World, e: Event)
    requires e.SessionStarted?
  {
    && e.process < |w.processes| && w.processes[e.process].seen.Some?
    && var r := w.processes[e.process].seen.value;
       r.fixState == NoFixState && (r.maxAttempts > 0 ==> e.session.attempt <= r.maxAttempts)
  }

  lemma SessionsUnderCap(w: World)
    requires Inv(w)
    ensures forall n | 0 <= n < |w.log| && w.log[n].SessionStarted? :: SessionUnderCap(w, w.log[n])
  {
    forall n | 0 <= n < |w.log| && w.log[n].SessionStarted? ensures SessionUnderCap(w, w.log[n]) {
      assert EventGood(w, n);
    }
  }
}
