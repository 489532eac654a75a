/** The work store, and the two passes that write a fix record and then fire: a look's dispatch and
    an exit check's settlement, as the controller runs them. Each, undisturbed, is its protocol
    steps in order; FixProtocol interleaves them. */
module FixSweep {
  import opened Basics
  import opened FixRecord
  import opened FixProtocol

  /** What a conditional write told its caller. */
  datatype Told = Applied | Stale | Failed

  class Memory {
    var recs: map<string, Record>
    /** Every write that landed, by anchor. */
    ghost var history: map<string, seq<Write>>

    ghost predicate Valid()
      reads this
    {
      && recs.Keys == history.Keys
      && forall k :: k in history ==>
        history[k] != [] && recs[k] == history[k][|history[k]| - 1].record && recs[k].revision == |history[k]|
    }

    ghost function Writes(anchor: string): seq<Write>
      reads this
    {
      if anchor in history then history[anchor] else []
    }

    constructor ()
      ensures Valid() && recs == map[] && history == map[]
    {
      recs, history := map[], map[];
    }

    /** The write lands exactly when the record is still at the revision the caller read, with a
        revision no earlier write of the anchor had; the caller knows it unless the reply failed. */
    method PutIf(anchor: string, r: Record, ifRevision: nat, reply: Reply,
                 ghost pass: Option<Pass>, ghost actor: nat, ghost now: Time) returns (told: Told)
      requires Valid()
      modifies this
      ensures Valid()
      ensures Writes(anchor) ==
        if |old(Writes(anchor))| == ifRevision && reply != LostError
        then old(Writes(anchor)) + [Write(pass, actor, r.(revision := ifRevision + 1), now)]
        else old(Writes(anchor))
      ensures told == Applied <==> |old(Writes(anchor))| == ifRevision && reply == Acknowledged
      ensures told == Stale <==> |old(Writes(anchor))| != ifRevision
      ensures forall k :: k != anchor ==> Writes(k) == old(Writes(k))
    {
      var revision := if anchor in recs then recs[anchor].revision else 0;
      if revision != ifRevision {
        return Stale;
      }
      if reply != LostError {
        var stamped := r.(revision := revision + 1);
        ghost var landed := Writes(anchor) + [Write(pass, actor, stamped, now)];
        recs := recs[anchor := stamped];
        history := history[anchor := landed];
      }
      told := if reply == Acknowledged then Applied else Failed;
    }
  }

  class Sweep {
    const store: Memory
    const anchor: string
    var clock: Time
    var orders: seq<Order>
    var log: seq<Event>
    ghost var actors: map<nat, Phase>
    ghost var processes: seq<Process>
    var runtime: Runtime

    constructor (store: Memory, anchor: string, clock: Time)
      requires store.Valid() && store.Writes(anchor) == []
      ensures this.store == store && this.anchor == anchor
      ensures World() == Start(clock)
    {
      this.store, this.anchor, this.clock := store, anchor, clock;
      orders, log, actors, processes := [], [], map[], [];
      runtime := Runtime(map[], map[]);
    }

    ghost function World(): FixProtocol.World
      reads this, store
    {
      FixProtocol.World(clock, store.Writes(anchor), actors, orders, processes, log, runtime)
    }

    method Put(ghost pass: Option<Pass>, a: nat, r: Record, ifRevision: nat, reply: Reply, now: Time)
      returns (won: bool)
      requires store.Valid()
      modifies this`log, store
      ensures store.Valid()
      ensures World() == PutIf(old(World()), pass, a, r, ifRevision, reply, now)
      ensures won == Wins(old(World()), ifRevision, reply)
    {
      var told := store.PutIf(anchor, r, ifRevision, reply, pass, a, now);
      if told == Applied || (told == Failed && reply == LandedError) {
        log := log + [Wrote(a, ifRevision + 1)];
      }
      won := told == Applied;
    }

    method Refire(pass: Pass, a: nat, revision: nat, r: Record)
      modifies this`log, this`orders, this`actors
      ensures World() == Fire(old(World()), a, Order(pass, a, revision, r.fireBy, r.basePipeline))
    {
      log := log + [Fired(|orders|)];
      orders := orders + [Order(pass, a, revision, r.fireBy, r.basePipeline)];
      actors := actors[a := Ended];
    }

    /** Records the fix and fires the order -- the order only if the record write won. */
    method Dispatch(a: nat, now: Time, before: Option<Record>, r: Record, reply: Reply) returns (fired: bool)
      requires store.Valid() && a in actors && actors[a] == LookDecided(now, before, r)
      modifies this`log, this`orders, this`actors, store
      ensures store.Valid()
      ensures World() == FireWon(LookPut(old(World()), a, reply), a)
      ensures fired == Wins(old(World()), ExpectedRevision(before), reply)
    {
      var ifRevision := if before.Some? then before.value.revision else 0;
      fired := Put(Some(Look), a, r, ifRevision, reply, now);
      actors := actors[a := After(fired, Look, ifRevision + 1)];
      assert World() == LookPut(old(World()), a, reply);
      if fired {
        Refire(Look, a, ifRevision + 1, r);
      }
    }

    /** GitLab, then meter: go says the record may be written. */
    method Tell(a: nat, now: Time, seen: Record, state: FixState, ghost retry: bool, shown: bool, accepted: bool)
      returns (go: bool)
      requires a in actors && actors[a] == CheckRuled(now, seen, state, retry)
      modifies this`log, this`actors
      ensures World() == CheckReport(CheckShow(old(World()), a, shown), a, accepted)
      ensures go == ((shown || now >= VerifyBound(seen)) && accepted && state in OUTCOME_STATES)
      ensures a in actors && actors[a] == if go then CheckReported(now, seen, state, retry) else Ended
    {
      var attempt := if seen.attempt < 1 then 1 else seen.attempt;
      if !shown && now < VerifyBound(seen) {
        actors := actors[a := Ended];
        return false;
      }
      log := log + [if shown then Shown(a, attempt) else BoundPassed(a, attempt, VerifyBound(seen), now)];
      actors := actors[a := CheckShown(now, seen, state, retry)];
      assert World() == CheckShow(old(World()), a, shown);
      if !accepted || state !in OUTCOME_STATES {
        actors := actors[a := Ended];
        return false;
      }
      log := log + [Reported(a, attempt)];
      actors := actors[a := CheckReported(now, seen, state, retry)];
      return true;
    }

    /** The record, then the next attempt's order. */
    method Record(a: nat, now: Time, seen: Record, state: FixState, retry: bool, reply: Reply) returns (fired: bool)
      requires store.Valid() && a in actors && actors[a] == CheckReported(now, seen, state, retry)
      modifies this`log, this`orders, this`actors, store
      ensures store.Valid()
      ensures World() == FireWon(CheckPut(old(World()), a, reply), a)
      ensures fired <==> retry && Wins(old(World()), seen.revision, reply)
    {
      var rec := seen.(judgedAt := now, outcomeAttempt := if seen.attempt < 1 then 1 else seen.attempt);
      if retry {
        rec := rec.(fixState := NoFixState, judgedAt := ZERO_TIME, reslungAt := clock, fireBy := FireBy(clock));
      } else if state == NotFixed {
        rec := rec.(fixState := Denied, state := NeedsHuman);
      } else {
        rec := rec.(fixState := state, state := Done);
      }
      var won := Put(if retry then Some(Check) else None, a, rec, seen.revision, reply, clock);
      fired := retry && won;
      actors := actors[a := After(fired, Check, seen.revision + 1)];
      assert World() == CheckPut(old(World()), a, reply);
      if fired {
        Refire(Check, a, seen.revision + 1, rec);
      }
    }

    /** Ends the attempt: GitLab, then meter, then the record, then the next attempt's order. shown
        and accepted are GitLab's and meter's replies. */
    method Settle(a: nat, now: Time, seen: Record, state: FixState, retry: bool, shown: bool, accepted: bool,
                  reply: Reply)
      returns (fired: bool)
      requires store.Valid() && a in actors && actors[a] == CheckRuled(now, seen, state, retry)
      modifies this`log, this`orders, this`actors, store
      ensures store.Valid()
      ensures World() ==
        FireWon(CheckPut(CheckReport(CheckShow(old(World()), a, shown), a, accepted), a, reply), a)
      ensures fired <==>
        && (shown || now >= VerifyBound(seen)) && accepted && state in OUTCOME_STATES
        && retry && Wins(old(World()), seen.revision, reply)
    {
      var go := Tell(a, now, seen, state, retry, shown, accepted);
      if go {
        fired := Record(a, now, seen, state, retry, reply);
      } else {
        fired := false;
      }
    }

    /** Asks the runtime to delete whatever job has the name; one it does not know is gone already. */
    method Stop(s: Session, stopper: Stopper)
      modifies this`log, this`runtime
      ensures World() == StopJob(old(World()), s, stopper)
    {
      if s in runtime.jobs && !runtime.jobs[s].stopping {
        runtime := runtime.(jobs := runtime.jobs[s := runtime.jobs[s].(stopping := true)]);
        log := log + [JobStopped(s, stopper)];
      }
    }

    /** Writes what the session came to over the record that was read, and is told how that went. */
    method WriteEnding(a: nat, now: Time, seen: Record, ending: Ending, reply: Reply) returns (told: Told)
      requires store.Valid() && a in actors && actors[a] == Concluding(now, seen, ending)
      modifies this`log, this`actors, store
      ensures store.Valid()
      ensures World() == Move(PutIf(old(World()), None, a, ConcludedRecord(seen, ending), seen.revision, reply, now), a,
                              Ended)
      ensures told == Applied <==> Wins(old(World()), seen.revision, reply)
      ensures told == Stale <==> |old(World()).writes| != seen.revision
    {
      var rec := seen;
      match ending {
        case Finished(state) => rec := rec.(state := Done, fixState := state);
        case MergeRequestOpen(state, deadline) => rec := rec.(fixState := state, verifyDeadline := deadline);
        case Skewed => rec := rec.(state := Parked, session := false, reslungAt := ZERO_TIME, fireBy := ZERO_TIME);
      }
      told := store.PutIf(anchor, rec, seen.revision, reply, None, a, now);
      if told == Applied || (told == Failed && reply == LandedError) {
        log := log + [Wrote(a, seen.revision + 1)];
      }
      actors := actors[a := Ended];
    }

    /** Ends a session: the record first; then, unless what became of that forbids it, the session the
        record named is closed. */
    method Conclude(a: nat, now: Time, seen: Record, ending: Ending, reply: Reply)
      requires store.Valid() && a in actors && actors[a] == Concluding(now, seen, ending) && a !in runtime.closing
      modifies this`log, this`actors, this`runtime, store
      ensures store.Valid()
      ensures World() == CloseSession(ConcludePut(old(World()), a, reply), a)
    {
      var told := WriteEnding(a, now, seen, ending, reply);
      var close := ending.Finished? || told == Applied || (ending.MergeRequestOpen? && told == Stale);
      assert close == ClosesAfter(old(World()), seen.revision, ending, reply);
      if close && seen.session {
        ghost var owed := Owe(World(), a, seen, CauseOf(ending));
        assert owed.runtime.closing - {a} == runtime.closing;
        Stop(SessionOf(seen), Closer(a, Duty(SessionOf(seen), seen.revision, CauseOf(ending))));
      }
    }
  }
}
