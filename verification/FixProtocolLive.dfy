/** When two orders of one fix can have live dispatches at once, and when they cannot. */
module FixProtocolLive {
  import opened Basics
  import opened FixRecord
  import opened FixProtocol
  import opened FixProtocolSafety
  import opened FixProtocolSteps
  import opened FixProtocolOwners
  import opened FixProtocolTheorems

  // ---- windows that stay shut keep later orders out ----

  /** Write k ends, or brings forward, a fire window that was open by its writer's clock. */
  predicate ClosesWindow(ws: seq<Write>, k: nat)
    requires k < |ws|
  {
    && k > 0 && WindowOpen(ws[k - 1].record, ws[k].now)
    && (WindowEnd(ws[k].record).None? || WindowEnd(ws[k].record).value < WindowEnd(ws[k - 1].record).value)
  }

  predicate WindowsKept(ws: seq<Write>, i: nat, j: nat)
    requires i <= j < |ws|
  {
    forall k | i < k <= j :: !ClosesWindow(ws, k)
  }

  /** The record's window lasts at least until end. */
  predicate Covers(r: Record, end: Time) { WindowEnd(r).Some? && end <= WindowEnd(r).value }

  lemma {:induction false} WindowHeld(ws: seq<Write>, clock: Time, i: nat, j: nat)
    requires History(ws, clock) && i <= j < |ws| && ws[i].pass.Some? && WindowsKept(ws, i, j)
    requires clock < EndOf(ws[i].record.fireBy)
    ensures Covers(ws[j].record, EndOf(ws[i].record.fireBy))
    decreases j
  {
    assert GoodWrite(ws, i, clock) && GoodWrite(ws, j, clock);
    if i < j {
      WindowHeld(ws, clock, i, j - 1);
      assert !ClosesWindow(ws, j);
    }
  }

  /** The write an order was fired from, by its index. */
  predicate FiredFrom(w: World, n: nat, i: nat) { n < |w.orders| && i < |w.writes| && w.orders[n].revision == i + 1 }

  lemma OrderWindow(w: World, n: nat, i: nat)
    requires Inv(w) && FiredFrom(w, n, i) && w.orders[n].pass != Unpark
    ensures w.writes[i].pass.Some? && w.orders[n].fireBy == w.writes[i].record.fireBy
        && w.writes[i].record.fireBy != ZERO_TIME
    ensures WindowEnd(w.writes[i].record) == Some(EndOf(w.orders[n].fireBy))
  {
    assert OrderGood(w, w.orders[n]) && GoodWrite(w.writes, i, w.clock);
  }

  /** A firing write lands over no open window, and a parked record has none. */
  lemma LaterUncovered(w: World, m: nat, j: nat, end: Time)
    requires Inv(w) && Owners(w) && FiredFrom(w, m, j) && w.clock < end
    ensures if w.orders[m].pass == Unpark then !Covers(w.writes[j].record, end)
      else j == 0 || !Covers(w.writes[j - 1].record, end)
  {
    assert OrderGood(w, w.orders[m]) && OrderOwned(w, w.orders[m]) && GoodWrite(w.writes, j, w.clock);
  }

  /** While an order's window is open, and no write since has closed a window, no other order has been
      fired from its write or a later one: not by a look, an exit check, a re-sling or an unpark. */
  lemma NoLaterOrder(clock: Time, steps: seq<Step>, n: nat, i: nat, m: nat, j: nat)
    requires 0 < clock
    requires var w := Run(Start(clock), steps);
      && FiredFrom(w, n, i) && w.orders[n].pass != Unpark && FiredFrom(w, m, j) && i <= j
      && w.clock < EndOf(w.orders[n].fireBy) && WindowsKept(w.writes, i, j)
    ensures m == n
  {
    RunKeeps(clock, steps);
    RunOwns(clock, steps);
    LaterIsSame(Run(Start(clock), steps), n, i, m, j);
  }

  lemma LaterIsSame(w: World, n: nat, i: nat, m: nat, j: nat)
    requires Inv(w) && Owners(w) && FiredFrom(w, n, i) && w.orders[n].pass != Unpark && FiredFrom(w, m, j) && i <= j
    requires w.clock < EndOf(w.orders[n].fireBy) && WindowsKept(w.writes, i, j)
    ensures m == n
  {
    OrderWindow(w, n, i);
    var end := EndOf(w.orders[n].fireBy);
    if w.orders[m].pass == Unpark {
      WindowHeld(w.writes, w.clock, i, j);
      LaterUncovered(w, m, j, end);
    } else if i < j {
      WindowHeld(w.writes, w.clock, i, j - 1);
      LaterUncovered(w, m, j, end);
    } else if m != n {
      OwnWriteAlone(w, n);
    }
  }

  lemma ProcessInWindow(w: World, p: nat)
    requires Inv(w) && p < |w.processes| && w.orders[w.processes[p].order].pass != Unpark
    ensures w.processes[p].killAt <= EndOf(w.orders[w.processes[p].order].fireBy)
  {
    assert ProcessGood(w, w.processes[p]);
    var n := w.processes[p].order;
    assert OrderGood(w, w.orders[n]);
    OrderWindow(w, n, w.orders[n].revision - 1);
  }

  /** Two orders with live dispatches at once: some write since the earlier one's, and no later than the
      record the other was fired from, closed a window that was open. */
  lemma OneLiveOrder(clock: Time, steps: seq<Step>, p: nat, q: nat, i: nat, j: nat)
    requires 0 < clock
    requires var w := Run(Start(clock), steps);
      && p < |w.processes| && q < |w.processes| && i <= j
      && FiredFrom(w, w.processes[p].order, i) && FiredFrom(w, w.processes[q].order, j)
      && w.orders[w.processes[p].order].pass != Unpark
      && Alive(w.processes[p], w.clock) && Alive(w.processes[q], w.clock)
      && w.processes[p].order != w.processes[q].order
    ensures exists k ::
      i < k <= j < |Run(Start(clock), steps).writes| && ClosesWindow(Run(Start(clock), steps).writes, k)
  {
    RunKeeps(clock, steps);
    RunOwns(clock, steps);
    var w := Run(Start(clock), steps);
    ProcessInWindow(w, p);
    if WindowsKept(w.writes, i, j) { LaterIsSame(w, w.processes[p].order, i, w.processes[q].order, j); }
  }

  // ---- what one more pass can do ----

  /** A pass that begins now may fire over this record. */
  predicate MayFire(cur: Option<Record>, now: Time) {
    || MayDispatch(cur, now)
    || (cur.Some? && (cur.value.state == Parked || RetryDue(cur.value, now) || CheckDue(cur.value, now)))
  }

  predicate RetryDue(r: Record, now: Time) { r.state == Running && RetryOpen(r, now) }
  predicate RetryOpen(r: Record, now: Time) { r.fixState == NoFixState && !WindowOpen(r, now) }

  predicate CheckDue(r: Record, now: Time) { r.state == Running && CheckOpen(r, now) }
  predicate CheckOpen(r: Record, now: Time) { OpenFix(r) && !Throttled(r, now) && MayRetry(r, true) }

  /** A step of pass a, or the start of a dispatch of an order that is not one of the first n. */
  predicate Own(s: Step, a: nat, n: nat) {
    match s
    case LookStarts(b) => b == a
    case LookReads(b, _, _, _) => b == a
    case LookPuts(b, _) => b == a
    case Lists(b, _) => b == a
    case CheckJudges(b, _, _) => b == a
    case CheckShows(b, _) => b == a
    case CheckReports(b, _) => b == a
    case CheckPuts(b, _) => b == a
    case CheckWaits(b, _) => b == a
    case RetryJudges(b, _) => b == a
    case RetryPuts(b, _) => b == a
    case Concludes(b, _, _) => b == a
    case ConcludePuts(b, _) => b == a
    case Closes(b) => b == a
    case ReapLists(b) => b == a
    case Reaps(b, _) => b == a
    case Fires(b) => b == a
    case Unparks(b) => b == a
    case ProcessStarts(m, _) => m >= n
    case _ => false
  }

  predicate OwnSteps(ss: seq<Step>, a: nat, n: nat) { forall i | 0 <= i < |ss| :: Own(ss[i], a, n) }

  /** Beside live process p, a process of an order fired since. */
  predicate SecondLive(w: World, x: World, p: nat) {
    && p < |w.processes| && p < |x.processes| && x.processes[p] == w.processes[p] && Alive(x.processes[p], x.clock)
    && exists q | |w.processes| <= q < |x.processes| ::
         |w.orders| <= x.processes[q].order < |x.orders| && Alive(x.processes[q], x.clock)
  }

  /** Some reading the clock's margin allows is in time for the deadline. */
  predicate Timely(fireBy: Time, clock: Time) { fireBy == ZERO_TIME || clock - CLOCK_MARGIN <= fireBy }

  predicate ListedFiring(pass: Pass, seen: Record, revision: nat, now: Time) {
    match pass
    case Look => false
    case Check => seen.revision == revision && CheckOpen(seen, now)
    case Retry => seen.revision == revision && RetryOpen(seen, now)
    case Unpark => Timely(seen.fireBy, now)
  }

  /** The pass can still fire an order that can start: it has not begun and the record lets it, or the
      record it goes by is still the store's, or it has won. */
  predicate Firing(w: World, a: nat) {
    if a !in w.actors then MayFire(Current(w), w.clock)
    else match w.actors[a]
      case LookStarted(now) => MayDispatch(Current(w), now) && Timely(FireBy(now), w.clock)
      case LookDecided(_, before, r) => ExpectedRevision(before) == |w.writes| && Timely(r.fireBy, w.clock)
      case Listed(pass, seen) => ListedFiring(pass, seen, |w.writes|, w.clock)
      case CheckRuled(_, seen, state, retry) => retry && state in OUTCOME_STATES && seen.revision == |w.writes|
      case CheckShown(_, seen, state, retry) => retry && state in OUTCOME_STATES && seen.revision == |w.writes|
      case CheckReported(_, seen, _, retry) => retry && seen.revision == |w.writes|
      case CheckWaiting(_, _, _) => false
      case Concluding(_, _, _) => false
      case Reaping(_) => false
      case RetryReported(_, seen) => seen.revision == |w.writes|
      case Won(_, rev) => 1 <= rev <= |w.writes| && Timely(w.writes[rev - 1].record.fireBy, w.clock)
      case Ended => false
  }

  // -- it cannot, where the record does not let it --

  predicate Stuck(w: World, x: World, a: nat) {
    && x.clock == w.clock && x.processes == w.processes && |w.orders| <= |x.orders|
    && (forall n | |w.orders| <= n < |x.orders| :: !Timely(x.orders[n].fireBy, x.clock))
    && !Firing(x, a)
  }

  predicate Puts(s: Step) { s.LookPuts? || s.CheckPuts? || s.CheckWaits? || s.RetryPuts? || s.Fires? || s.Unparks? }

  lemma StuckPuts(w: World, x: World, s: Step, a: nat)
    requires Stuck(w, x, a) && Own(s, a, |w.orders|) && Puts(s)
    ensures Stuck(w, Do(x, s), a)
  {}

  lemma StuckRuntime(w: World, x: World, s: Step, a: nat)
    requires Stuck(w, x, a) && Own(s, a, |w.orders|) && OfRuntime(s)
    ensures Stuck(w, Do(x, s), a)
  {}

  lemma StuckStep(w: World, x: World, s: Step, a: nat)
    requires Stuck(w, x, a) && Own(s, a, |w.orders|)
    ensures Stuck(w, Do(x, s), a)
  {
    if Puts(s) { StuckPuts(w, x, s, a); } else if OfRuntime(s) { StuckRuntime(w, x, s, a); }
  }

  lemma {:induction false} StuckRun(w: World, ss: seq<Step>, a: nat)
    requires !Firing(w, a) && OwnSteps(ss, a, |w.orders|)
    ensures Stuck(w, Run(w, ss), a)
  {
    if ss != [] {
      StuckRun(w, ss[..|ss| - 1], a);
      StuckStep(w, Run(w, ss[..|ss| - 1]), ss[|ss| - 1], a);
    }
  }

  // -- it can, where the record does --

  /** One order more, that may start now. */
  predicate FiredOne(w: World, x: World) {
    && x.clock == w.clock && x.processes == w.processes && |x.orders| == |w.orders| + 1
    && Timely(x.orders[|w.orders|].fireBy, w.clock)
  }

  /** How many steps a pass is from firing, at most. */
  function Away(w: World, a: nat): nat {
    if a !in w.actors then 7
    else match w.actors[a]
      case Listed(_, _) => 6
      case LookStarted(_) => 5
      case CheckRuled(_, _, _, _) => 5
      case CheckShown(_, _, _, _) => 4
      case LookDecided(_, _, _) => 3
      case CheckReported(_, _, _, _) => 3
      case RetryReported(_, _) => 3
      case _ => 0
  }

  /** The next step of a pass that can fire. */
  function Next(w: World, a: nat): Step {
    if a !in w.actors then
      if MayDispatch(Current(w), w.clock) then LookStarts(a)
      else if Current(w).Some? && Current(w).value.state == Parked then Lists(a, Unpark)
      else if Current(w).Some? && RetryDue(Current(w).value, w.clock) then Lists(a, Retry)
      else Lists(a, Check)
    else match w.actors[a]
      case LookStarted(_) => LookReads(a, true, 0, 0)
      case LookDecided(_, _, _) => LookPuts(a, Acknowledged)
      case Listed(pass, _) =>
        if pass == Unpark then Unparks(a)
        else if pass == Check then CheckJudges(a, Ruling.Settled(NotFixed), true) else RetryJudges(a, true)
      case CheckRuled(_, _, _, _) => CheckShows(a, true)
      case CheckShown(_, _, _, _) => CheckReports(a, true)
      case CheckReported(_, _, _, _) => CheckPuts(a, Acknowledged)
      case RetryReported(_, _) => RetryPuts(a, Acknowledged)
      case _ => Fires(a)
  }

  /** It has moved on, and can still fire. */
  predicate Nearer(w: World, x: World, a: nat) {
    && x.clock == w.clock && x.processes == w.processes && x.orders == w.orders
    && Firing(x, a) && Away(x, a) < Away(w, a)
  }

  lemma BeginsNearer(w: World, a: nat)
    requires Inv(w) && Firing(w, a) && a !in w.actors
    ensures Nearer(w, Do(w, Next(w, a)), a)
  {
    if Current(w).Some? {
      CurrentStored(w);
      assert GoodWrite(w.writes, |w.writes| - 1, w.clock);
    }
  }

  lemma ReadsNearer(w: World, a: nat)
    requires Inv(w) && Firing(w, a) && a in w.actors && w.actors[a].LookStarted?
    ensures Nearer(w, Do(w, Next(w, a)), a)
  {
    if Current(w).Some? { CurrentStored(w); }
  }

  lemma ListedNearer(w: World, a: nat)
    requires Inv(w) && Firing(w, a) && a in w.actors && w.actors[a].Listed? && w.actors[a].pass != Unpark
    ensures Nearer(w, Do(w, Next(w, a)), a)
  {
    PhaseKnown(w, a);
  }

  lemma TellsNearer(w: World, a: nat)
    requires Inv(w) && Firing(w, a) && a in w.actors && (w.actors[a].CheckRuled? || w.actors[a].CheckShown?)
    ensures Nearer(w, Do(w, Next(w, a)), a)
  {}

  lemma PutsNearer(w: World, a: nat)
    requires Inv(w) && Firing(w, a) && a in w.actors
    requires w.actors[a].LookDecided? || w.actors[a].CheckReported? || w.actors[a].RetryReported?
    ensures Nearer(w, Do(w, Next(w, a)), a)
  {}

  predicate Last(w: World, a: nat) {
    a in w.actors && (w.actors[a].Won? || (w.actors[a].Listed? && w.actors[a].pass == Unpark))
  }

  lemma LastFires(w: World, a: nat)
    requires Firing(w, a) && Last(w, a)
    ensures FiredOne(w, Do(w, Next(w, a)))
  {}

  lemma NextNearer(w: World, a: nat)
    requires Inv(w) && Firing(w, a) && !Last(w, a)
    ensures Nearer(w, Do(w, Next(w, a)), a)
  {
    if a !in w.actors {
      BeginsNearer(w, a);
    } else {
      match w.actors[a]
      case LookStarted(_) => ReadsNearer(w, a);
      case Listed(_, _) => ListedNearer(w, a);
      case CheckRuled(_, _, _, _) => TellsNearer(w, a);
      case CheckShown(_, _, _, _) => TellsNearer(w, a);
      case LookDecided(_, _, _) => PutsNearer(w, a);
      case CheckReported(_, _, _, _) => PutsNearer(w, a);
      case RetryReported(_, _) => PutsNearer(w, a);
    }
  }

  lemma NextOwn(w: World, a: nat)
    ensures Own(Next(w, a), a, |w.orders|)
  {}

  lemma {:induction false} FiresAlone(w: World, a: nat) returns (ss: seq<Step>)
    requires Inv(w) && Firing(w, a)
    ensures OwnSteps(ss, a, |w.orders|) && FiredOne(w, Run(w, ss))
    decreases Away(w, a)
  {
    var s := Next(w, a);
    NextOwn(w, a);
    RunFirst(w, s, []);
    if Last(w, a) {
      LastFires(w, a);
      ss := [s];
    } else {
      NextNearer(w, a);
      StepKeeps(w, s);
      var rest := FiresAlone(Do(w, s), a);
      RunFirst(w, s, rest);
      ss := [s] + rest;
    }
  }

  lemma RunFirst(w: World, s: Step, rest: seq<Step>)
    ensures Run(w, [s] + rest) == Run(Do(w, s), rest)
    ensures Run(w, [s]) == Do(w, s)
  {
    RunSplits(w, [s], rest);
    assert [s][..0] == [];
  }

  function DecideSteps(a: nat, basePipeline: int, maxAttempts: int): seq<Step> {
    [LookStarts(a), LookReads(a, true, basePipeline, maxAttempts)]
  }
  function LookSteps(a: nat, basePipeline: int, maxAttempts: int): seq<Step> {
    DecideSteps(a, basePipeline, maxAttempts) + [LookPuts(a, Acknowledged), Fires(a)]
  }

  lemma RunOne(w: World, steps: seq<Step>, n: nat)
    requires n < |steps|
    ensures Run(w, steps[..n + 1]) == Do(Run(w, steps[..n]), steps[n])
  {
    assert steps[..n + 1][..n] == steps[..n];
  }

  lemma RunTwo(w: World, s: seq<Step>)
    requires |s| == 2
    ensures Run(w, s) == Do(Do(w, s[0]), s[1])
  {
    RunOne(w, s, 0);
    RunOne(w, s, 1);
    assert s[..2] == s;
  }

  predicate Ready(w: World, x: World, a: nat, p: Phase) {
    && x.clock == w.clock && x.processes == w.processes && x.orders == w.orders && x.writes == w.writes
    && a in x.actors && x.actors[a] == p
  }

  predicate WonReady(w: World, x: World, a: nat, pass: Pass) {
    && x.clock == w.clock && x.processes == w.processes && x.orders == w.orders
    && |x.writes| == |w.writes| + 1 && x.writes[|w.writes|].record.fireBy == FireBy(w.clock)
    && a in x.actors && x.actors[a] == Won(pass, |w.writes| + 1)
  }

  lemma WonFires(w: World, x: World, a: nat, pass: Pass)
    requires WonReady(w, x, a, pass)
    ensures FiredOne(w, FireWon(x, a))
    ensures FireWon(x, a).writes == x.writes && FireWon(x, a).actors == x.actors[a := Ended]
    ensures FireWon(x, a).orders
         == w.orders + [Order(pass, a, |w.writes| + 1, FireBy(w.clock), x.writes[|w.writes|].record.basePipeline)]
  {}

  lemma LookDecides(w: World, a: nat, basePipeline: int, maxAttempts: int)
    requires a !in w.actors && MayDispatch(Current(w), w.clock)
    ensures Ready(w, Run(w, DecideSteps(a, basePipeline, maxAttempts)), a,
                  LookDecided(w.clock, Current(w), FreshRecord(basePipeline, maxAttempts, w.clock)))
    ensures Run(w, DecideSteps(a, basePipeline, maxAttempts)).actors.Keys == w.actors.Keys + {a}
    ensures Run(w, DecideSteps(a, basePipeline, maxAttempts)).runtime == w.runtime
  {
    RunTwo(w, DecideSteps(a, basePipeline, maxAttempts));
  }

  lemma LookWins(w: World, x: World, a: nat, r: Record)
    requires Ready(w, x, a, LookDecided(w.clock, Current(w), r)) && ExpectedRevision(Current(w)) == |w.writes|
    requires r.fireBy == FireBy(w.clock)
    ensures WonReady(w, LookPut(x, a, Acknowledged), a, Look)
    ensures LookPut(x, a, Acknowledged).writes
        == w.writes + [Write(Some(Look), a, r.(revision := |w.writes| + 1), w.clock)]
  {}

  lemma LookFires(w: World, x: World, a: nat, r: Record)
    requires Ready(w, x, a, LookDecided(w.clock, Current(w), r)) && ExpectedRevision(Current(w)) == |w.writes|
    requires r.fireBy == FireBy(w.clock)
    ensures var y := Run(x, [LookPuts(a, Acknowledged), Fires(a)]);
      && FiredOne(w, y)
      && y.writes == w.writes + [Write(Some(Look), a, r.(revision := |w.writes| + 1), w.clock)]
      && y.orders == w.orders + [Order(Look, a, |w.writes| + 1, r.fireBy, r.basePipeline)]
      && y.actors.Keys == x.actors.Keys && y.runtime == x.runtime
  {
    LookWins(w, x, a, r);
    WonFires(w, LookPut(x, a, Acknowledged), a, Look);
    RunTwo(x, [LookPuts(a, Acknowledged), Fires(a)]);
  }

  /** A look nobody disturbs writes one record and fires one order from it. */
  lemma LookAloneFires(w: World, a: nat, basePipeline: int, maxAttempts: int)
    requires a !in w.actors && MayDispatch(Current(w), w.clock) && ExpectedRevision(Current(w)) == |w.writes|
    ensures var x := Run(w, LookSteps(a, basePipeline, maxAttempts));
      var r := FreshRecord(basePipeline, maxAttempts, w.clock).(revision := |w.writes| + 1);
      && FiredOne(w, x)
      && x.writes == w.writes + [Write(Some(Look), a, r, w.clock)]
      && x.orders == w.orders + [Order(Look, a, |w.writes| + 1, r.fireBy, basePipeline)]
      && x.actors.Keys == w.actors.Keys + {a} && x.runtime == w.runtime
  {
    LookDecides(w, a, basePipeline, maxAttempts);
    LookFires(w, Run(w, DecideSteps(a, basePipeline, maxAttempts)), a, FreshRecord(basePipeline, maxAttempts, w.clock));
    RunSplits(w, DecideSteps(a, basePipeline, maxAttempts), [LookPuts(a, Acknowledged), Fires(a)]);
  }

  lemma StartsBeside(w: World, steps: seq<Step>, x: World, p: nat, s: Step)
    requires s == ProcessStarts(|w.orders|, w.clock - CLOCK_MARGIN)
    requires Run(w, steps) == x && FiredOne(w, x) && p < |w.processes| && Alive(w.processes[p], w.clock)
    ensures SecondLive(w, Run(w, steps + [s]), p)
  {
    RunMore(w, steps, s);
    StartBeside(w, x, p, s);
  }

  lemma StartBeside(w: World, x: World, p: nat, s: Step)
    requires FiredOne(w, x) && p < |w.processes| && Alive(w.processes[p], w.clock)
    requires s == ProcessStarts(|w.orders|, w.clock - CLOCK_MARGIN)
    ensures SecondLive(w, Do(x, s), p)
  {
    assert Do(x, s).processes[|w.processes|].order == |w.orders|;
  }

  lemma RunMore(w: World, steps: seq<Step>, s: Step)
    ensures Run(w, steps + [s]) == Do(Run(w, steps), s)
  {
    assert (steps + [s])[..|steps|] == steps;
  }

  // -- exactly --

  /** In every reachable world with a live dispatch, and for every pass, begun or not: some way for that
      pass to go on puts a second order's live dispatch beside the first exactly when Firing. For a pass
      that has not begun, that is the stored record's MayFire. */
  lemma SecondLiveExactly(clock: Time, steps: seq<Step>, p: nat, a: nat)
    requires 0 < clock
    requires var w := Run(Start(clock), steps); p < |w.processes| && Alive(w.processes[p], w.clock)
    ensures var w := Run(Start(clock), steps);
      && ((exists ss :: OwnSteps(ss, a, |w.orders|) && SecondLive(w, Run(w, ss), p)) <==> Firing(w, a))
      && (a !in w.actors ==> (Firing(w, a) <==> MayFire(Current(w), w.clock)))
  {
    RunKeeps(clock, steps);
    BesideExactly(Run(Start(clock), steps), p, a);
  }

  lemma BesideExactly(w: World, p: nat, a: nat)
    requires Inv(w) && p < |w.processes| && Alive(w.processes[p], w.clock)
    ensures (exists ss :: OwnSteps(ss, a, |w.orders|) && SecondLive(w, Run(w, ss), p)) <==> Firing(w, a)
  {
    if Firing(w, a) {
      var firing := FiresAlone(w, a);
      var start := ProcessStarts(|w.orders|, w.clock - CLOCK_MARGIN);
      StartsBeside(w, firing, Run(w, firing), p, start);
      var ss := firing + [start];
      assert OwnSteps(ss, a, |w.orders|) && SecondLive(w, Run(w, ss), p);
    } else {
      forall ss | OwnSteps(ss, a, |w.orders|) ensures !SecondLive(w, Run(w, ss), p) { StuckRun(w, ss, a); }
    }
  }

  /** As long as no write since a live dispatch's order has closed a window, the record lets no pass
      fire beside it. */
  lemma KeptWindowShuts(clock: Time, steps: seq<Step>, p: nat, i: nat)
    requires 0 < clock
    requires var w := Run(Start(clock), steps);
      && p < |w.processes| && Alive(w.processes[p], w.clock)
      && FiredFrom(w, w.processes[p].order, i) && w.orders[w.processes[p].order].pass != Unpark
      && WindowsKept(w.writes, i, |w.writes| - 1)
    ensures var w := Run(Start(clock), steps); !MayFire(Current(w), w.clock)
  {
    RunKeeps(clock, steps);
    WindowShuts(Run(Start(clock), steps), p, i);
  }

  lemma WindowShuts(w: World, p: nat, i: nat)
    requires Inv(w) && p < |w.processes| && Alive(w.processes[p], w.clock)
    requires FiredFrom(w, w.processes[p].order, i) && w.orders[w.processes[p].order].pass != Unpark
    requires WindowsKept(w.writes, i, |w.writes| - 1)
    ensures !MayFire(Current(w), w.clock)
  {
    ProcessInWindow(w, p);
    OrderWindow(w, w.processes[p].order, i);
    WindowHeld(w.writes, w.clock, i, |w.writes| - 1);
    CoveredShuts(w, EndOf(w.orders[w.processes[p].order].fireBy));
  }

  lemma CoveredShuts(w: World, end: Time)
    requires Inv(w) && Current(w).Some? && Covers(Current(w).value, end) && w.clock < end
    ensures !MayFire(Current(w), w.clock)
  {
    assert GoodWrite(w.writes, |w.writes| - 1, w.clock);
  }
}
