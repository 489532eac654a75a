/** What the exit check's answer (PipefixSpec) makes of the fix record (FixProtocol). */
module FixRuling {
  import opened Basics
  import opened FixRecord
  import opened FixProtocol
  import Facts = PipefixFacts
  import Spec = PipefixSpec

  function FixStateFor(s: Facts.State): FixState {
    match s
    case NoState => NoFixState
    case StateVerifying => Verifying
    case StateFixed => Fixed
    case StateFixedNewFailure => FixedNewFailure
    case StateNotFixed => NotFixed
    case StateFlaky => Flaky
    case StateUnverifiable => Unverifiable
    case StateRegressed => Regressed
    case StateTakenOver => TakenOver
    case StateClosedUnmerged => ClosedUnmerged
    case StateMerged => Merged
  }

  /** A verdict or a stop settles the attempt; a wait starts the waiting once a pipeline runs. */
  function RulingOf(res: Facts.Result): Ruling {
    match res.decision
    case DecisionVerdict => Settled(FixStateFor(res.state))
    case DecisionStopped => Settled(FixStateFor(res.state))
    case DecisionWait => NoVerdict(res.candidates != [])
    case DecisionCannotJudge => NoVerdict(false)
  }

  ghost function JudgeStep(w: World, a: nat, f: Facts.JudgeFacts, runStands: bool): World {
    CheckJudge(w, a, RulingOf(Spec.Answer(f, w.clock)), runStands)
  }

  /** A verdict and its state go together; a wait has neither. */
  predicate Shaped(res: Facts.Result) {
    if res.verdict.Some? then res.decision == Facts.DecisionVerdict && res.state == Facts.StateFor(res.verdict.value)
    else res.decision in {Facts.DecisionWait, Facts.DecisionCannotJudge}
  }

  lemma DecidedShaped(fix: Facts.FixFacts, d: Facts.DefinitionFacts, sel: Spec.Selection)
    ensures Shaped(Spec.Decided(fix, d, sel))
  {}

  lemma OpenShaped(fix: Facts.FixFacts, d: Facts.DefinitionFacts, sel: Spec.Selection, past: bool)
    ensures Shaped(Spec.OpenAnswer(fix, d, sel, past))
  {
    if !sel.malformed && !(!past && sel.read && !Spec.Settled(sel.candidates)) && !Spec.JobsMalformed(sel.candidates) {
      if past || (!Spec.FactUnread(d, sel) && !Spec.TraceUnread(fix, sel)) {
        DecidedShaped(fix, d, sel);
        assert Spec.OpenAnswer(fix, d, sel, past) == Spec.Decided(fix, d, sel);
      }
    }
  }

  lemma ShapedRuling(res: Facts.Result)
    requires Shaped(res)
    ensures RulingOf(res).Settled? ==> RulingOf(res).state in OUTCOME_STATES
    ensures RulingOf(res) == Settled(NotFixed) <==> res.verdict in {Some(Facts.FORGED), Some(Facts.NOT_FIXED)}
  {}

  /** A further attempt follows only a verdict that the fix does not work or altered what it is
      judged by; whatever settles an attempt is reported. */
  lemma RetriesFollowRefusals(f: Facts.JudgeFacts, now: Time)
    ensures var res := Spec.Answer(f, now);
      && (RulingOf(res).Settled? ==> RulingOf(res).state in OUTCOME_STATES)
      && (RulingOf(res) == Settled(NotFixed) <==> res.verdict in {Some(Facts.FORGED), Some(Facts.NOT_FIXED)})
  {
    if Spec.Identity(f, now).None? {
      OpenShaped(f.fix, f.definition, Spec.Select(f), Spec.Past(f, now));
      ShapedRuling(Spec.Answer(f, now));
    } else {
      IdentityRuling(f, now);
    }
  }

  lemma IdentityRuling(f: Facts.JudgeFacts, now: Time)
    requires Spec.Identity(f, now).Some?
    ensures var ruling := RulingOf(Spec.Identity(f, now).value);
      ruling.Settled? ==> ruling.state in {TakenOver, ClosedUnmerged, Merged}
  {}

  /** What one undisturbed look at a listed record does, replies included. */
  ghost function CheckAlone(w: World, a: nat, f: Facts.JudgeFacts, runStands: bool, shown: bool): World {
    CheckPut(CheckReport(CheckShow(JudgeStep(w, a, f, runStands), a, shown), a, true), a, Acknowledged)
  }

  /** A fix that cannot be judged, and whose GitLab stays down, still moves on: past its bound, one look
      that meter answers leaves a settled record, or a fresh window for a further attempt. */
  lemma OneLookMovesOn(w: World, a: nat, seen: Record, f: Facts.JudgeFacts, runStands: bool, shown: bool)
    requires a in w.actors && w.actors[a] == Listed(Check, seen) && |w.writes| == seen.revision
    requires 0 < w.clock && seen.state == Running && OpenFix(seen) && !Throttled(seen, w.clock)
        && w.clock >= VerifyBound(seen)
    ensures var x := CheckAlone(w, a, f, runStands, shown);
      && |x.writes| == |w.writes| + 1
      && var r := x.writes[|w.writes|].record;
         && r.outcomeAttempt == Attempt(seen)
         && (r.state in {Done, NeedsHuman} ==> !OpenFix(r) && r.fixState != NoFixState)
         && (r.state !in {Done, NeedsHuman} ==>
             r.fixState == NoFixState && WindowEnd(r) == Some(EndOf(FireBy(w.clock))))
  {
    RetriesFollowRefusals(f, w.clock);
    SettledAlone(w, a, seen, RulingOf(Spec.Answer(f, w.clock)), runStands, shown);
  }

  lemma SettledAlone(w: World, a: nat, seen: Record, ruling: Ruling, runStands: bool, shown: bool)
    requires a in w.actors && w.actors[a] == Listed(Check, seen) && |w.writes| == seen.revision
    requires 0 < w.clock && seen.state == Running && OpenFix(seen) && !Throttled(seen, w.clock)
        && w.clock >= VerifyBound(seen)
    requires ruling.Settled? ==> ruling.state in OUTCOME_STATES
    ensures var x := CheckPut(CheckReport(CheckShow(CheckJudge(w, a, ruling, runStands), a, shown), a, true), a,
                              Acknowledged);
      && |x.writes| == |w.writes| + 1
      && var r := x.writes[|w.writes|].record;
         && r.outcomeAttempt == Attempt(seen)
         && (r.state in {Done, NeedsHuman} ==> !OpenFix(r) && r.fixState != NoFixState)
         && (r.state !in {Done, NeedsHuman} ==>
             r.fixState == NoFixState && WindowEnd(r) == Some(EndOf(FireBy(w.clock))))
  {
    var judged := CheckJudge(w, a, ruling, runStands);
    var c := judged.actors[a];
    var told := CheckReport(CheckShow(judged, a, shown), a, true);
    assert told.actors[a] == CheckReported(w.clock, seen, c.state, c.retry) && told.writes == w.writes;
  }
}
