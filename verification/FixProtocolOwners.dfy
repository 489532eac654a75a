/** Whose each write and each order is: a write that fires is its pass's own, and an unpark has none. */
module FixProtocolOwners {
  import opened Basics
  import opened FixRecord
  import opened FixProtocol
  import opened FixProtocolSafety
  import opened FixProtocolSteps

  /** The pass has made no write that fires. */
  predicate Unwritten(ws: seq<Write>, a: nat) {
    forall k | 0 <= k < |ws| :: ws[k].pass.Some? ==> ws[k].actor != a
  }

  /** A pass that made a firing write fires for it next, or is over. */
  predicate WriteOwned(w: World, k: nat)
    requires k < |w.writes|
  {
    var x := w.writes[k];
    x.pass.Some? ==>
      && x.pass.value != Unpark && x.actor in w.actors
      && (w.actors[x.actor] == Ended || w.actors[x.actor] == Won(x.pass.value, k + 1))
  }

  /** The order was fired from a parked record, with its deadline. */
  predicate FromParked(ws: seq<Write>, o: Order) {
    && 1 <= o.revision <= |ws| && ws[o.revision - 1].record.state == Parked
    && o.fireBy == ws[o.revision - 1].record.fireBy && o.basePipeline == ws[o.revision - 1].record.basePipeline
  }

  predicate OrderOwned(w: World, o: Order) {
    && o.actor in w.actors && w.actors[o.actor] == Ended
    && (o.pass == Unpark ==> Unwritten(w.writes, o.actor) && FromParked(w.writes, o))
  }

  ghost predicate Owners(w: World) {
    && (forall k | 0 <= k < |w.writes| :: WriteOwned(w, k))
    && (forall n | 0 <= n < |w.orders| :: OrderOwned(w, w.orders[n]))
  }

  predicate Settled(p: Phase) { p == Ended || p.Won? }

  /** Passes that are over, or have a write to fire for, stay so. */
  ghost predicate Steady(w: World, x: World) {
    forall b | b in w.actors && Settled(w.actors[b]) :: b in x.actors && x.actors[b] == w.actors[b]
  }

  /** Nothing but writes that do not fire. */
  ghost predicate Unfiring(w: World, x: World) {
    && |w.writes| <= |x.writes|
    && (forall k | 0 <= k < |w.writes| :: x.writes[k] == w.writes[k])
    && (forall k | |w.writes| <= k < |x.writes| :: x.writes[k].pass.None?)
    && x.orders == w.orders && Steady(w, x)
  }

  lemma UnfiringOwns(w: World, x: World)
    requires Owners(w) && Unfiring(w, x)
    ensures Owners(x)
  {
    forall k | 0 <= k < |x.writes| ensures WriteOwned(x, k) {
      if k < |w.writes| { assert WriteOwned(w, k); }
    }
    forall n | 0 <= n < |x.orders| ensures OrderOwned(x, x.orders[n]) { assert OrderOwned(w, w.orders[n]); }
  }

  /** A pass makes the write it will fire for, or loses it. */
  lemma PutOwns(w: World, pass: Pass, a: nat, r: Record, rev: nat, reply: Reply, now: Time, won: bool)
    requires Owners(w) && pass != Unpark && a in w.actors && !Settled(w.actors[a])
    requires won ==> Wins(w, rev, reply)
    ensures Owners(Move(PutIf(w, Some(pass), a, r, rev, reply, now), a, After(won, pass, rev + 1)))
  {
    var x := Move(PutIf(w, Some(pass), a, r, rev, reply, now), a, After(won, pass, rev + 1));
    forall k | 0 <= k < |x.writes| ensures WriteOwned(x, k) {
      if k < |w.writes| { assert WriteOwned(w, k); }
    }
    forall n | 0 <= n < |x.orders| ensures OrderOwned(x, x.orders[n]) { assert OrderOwned(w, w.orders[n]); }
  }

  lemma FireOwns(w: World, a: nat, o: Order)
    requires Owners(w) && a in w.actors && w.actors[a] != Ended && o.actor == a
    requires o.pass == Unpark ==> Unwritten(w.writes, a) && FromParked(w.writes, o)
    ensures Owners(Fire(w, a, o))
  {
    var x := Fire(w, a, o);
    forall k | 0 <= k < |x.writes| ensures WriteOwned(x, k) { assert WriteOwned(w, k); }
    forall n | 0 <= n < |x.orders| ensures OrderOwned(x, x.orders[n]) {
      if n < |w.orders| { assert OrderOwned(w, w.orders[n]); }
    }
  }

  lemma ListedUnwritten(w: World, a: nat)
    requires Owners(w) && a in w.actors && !Settled(w.actors[a])
    ensures Unwritten(w.writes, a)
  {
    forall k | 0 <= k < |w.writes| && w.writes[k].pass.Some? ensures w.writes[k].actor != a { assert WriteOwned(w, k); }
  }

  lemma UnparkOwns(w: World, a: nat)
    requires Inv(w) && Owners(w)
    ensures Owners(FireUnparked(w, a))
  {
    if a in w.actors && w.actors[a].Listed? && w.actors[a].pass == Unpark {
      PhaseKnown(w, a);
      ListedUnwritten(w, a);
      var r := w.actors[a].seen;
      FireOwns(w, a, Order(Unpark, a, r.revision, r.fireBy, r.basePipeline));
    }
  }

  lemma FireWonOwns(w: World, a: nat)
    requires Inv(w) && Owners(w)
    ensures Owners(FireWon(w, a))
  {
    if a in w.actors && w.actors[a].Won? {
      PhaseKnown(w, a);
      var p := w.actors[a];
      assert WriteOwned(w, p.revision - 1);
      var r := w.writes[p.revision - 1].record;
      FireOwns(w, a, Order(p.pass, a, p.revision, r.fireBy, r.basePipeline));
    }
  }

  lemma LookPutOwns(w: World, a: nat, reply: Reply)
    requires Owners(w)
    ensures Owners(LookPut(w, a, reply))
  {
    if a in w.actors && w.actors[a].LookDecided? {
      var d := w.actors[a];
      var n := ExpectedRevision(d.before);
      PutOwns(w, Look, a, d.record, n, reply, d.now, Wins(w, n, reply));
    }
  }

  lemma CheckPutOwns(w: World, a: nat, reply: Reply)
    requires Owners(w)
    ensures Owners(CheckPut(w, a, reply))
  {
    if a in w.actors && w.actors[a].CheckReported? {
      var c := w.actors[a];
      if c.retry {
        var s, n := SettledRecord(c.seen, c.state, c.retry, c.now, w.clock), c.seen.revision;
        PutOwns(w, Check, a, s, n, reply, w.clock, c.retry && Wins(w, n, reply));
      } else {
        UnfiringOwns(w, CheckPut(w, a, reply));
      }
    }
  }

  lemma RuntimeOwns(w: World, rt: Runtime)
    requires Owners(w)
    ensures Owners(w.(runtime := rt))
  {
    UnfiringOwns(w, w.(runtime := rt));
  }

  lemma RetryPutOwns(w: World, a: nat, reply: Reply)
    requires Owners(w)
    ensures Owners(RetryPut(w, a, reply))
  {
    if a in w.actors && w.actors[a].RetryReported? {
      var r := w.actors[a].seen;
      var s := r.(reslungAt := w.clock, fireBy := FireBy(w.clock));
      PutOwns(w, Retry, a, s, r.revision, reply, w.clock, Wins(w, r.revision, reply));
      RuntimeOwns(Move(PutIf(w, Some(Retry), a, s, r.revision, reply, w.clock), a,
                       After(Wins(w, r.revision, reply), Retry, r.revision + 1)), RetryPut(w, a, reply).runtime);
    }
  }

  predicate MayOwn(s: Step) { s.LookPuts? || s.CheckPuts? || s.RetryPuts? || s.Fires? || s.Unparks? }

  lemma SessionsUnfiring(w: World, s: Step)
    requires OfSession(s)
    ensures Unfiring(w, Do(w, s))
  {}

  lemma ProcessesUnfiring(w: World, s: Step)
    requires OfProcess(s) && !OfSession(s)
    ensures Unfiring(w, Do(w, s))
  {}

  lemma RuntimeUnfiring(w: World, s: Step)
    requires OfRuntime(s)
    ensures Unfiring(w, Do(w, s))
  {}

  lemma PassesUnfiring(w: World, s: Step)
    requires !OfProcess(s) && !OfRuntime(s) && !MayOwn(s)
    ensures Unfiring(w, Do(w, s))
  {}

  lemma StepUnfiring(w: World, s: Step)
    requires !MayOwn(s)
    ensures Unfiring(w, Do(w, s))
  {
    if OfSession(s) {
      SessionsUnfiring(w, s);
    } else if OfProcess(s) {
      ProcessesUnfiring(w, s);
    } else if OfRuntime(s) {
      RuntimeUnfiring(w, s);
    } else {
      PassesUnfiring(w, s);
    }
  }

  lemma MayOwnOwns(w: World, s: Step)
    requires Inv(w) && Owners(w) && MayOwn(s)
    ensures Owners(Do(w, s))
  {
    match s
    case LookPuts(a, reply) => LookPutOwns(w, a, reply);
    case CheckPuts(a, reply) => CheckPutOwns(w, a, reply);
    case RetryPuts(a, reply) => RetryPutOwns(w, a, reply);
    case Fires(a) => FireWonOwns(w, a);
    case Unparks(a) => UnparkOwns(w, a);
  }

  lemma StepOwns(w: World, s: Step)
    requires Inv(w) && Owners(w)
    ensures Owners(Do(w, s))
  {
    if MayOwn(s) {
      MayOwnOwns(w, s);
    } else {
      StepUnfiring(w, s);
      UnfiringOwns(w, Do(w, s));
    }
  }

  lemma {:induction false} RunOwns(clock: Time, steps: seq<Step>)
    requires 0 < clock
    ensures Owners(Run(Start(clock), steps))
  {
    if steps != [] {
      var front := steps[..|steps| - 1];
      RunKeeps(clock, front);
      RunOwns(clock, front);
      StepOwns(Run(Start(clock), front), steps[|steps| - 1]);
    }
  }
}
