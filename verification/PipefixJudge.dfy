/** The exit check as it is written: loops that fill lists, maps and flags, early
    returns, and the ladder at the end. Each method is proved to compute what
    PipefixSpec says. */
module PipefixJudge {
  import opened Basics
  import opened CiDelta
  import opened PipefixFacts
  import opened PipefixSpec
  import opened Listing
  import opened Ordering

  datatype Missing =
    | NoTime | NoRecord | NoTargets | UnnamedTarget | TargetTwice(job: string)
    | NoBasePipeline | BaseJobNoStatus(job: string) | BaseJobTwice(job: string)
    | TargetNotInBase(job: string) | TargetNotFailed(job: string) | TargetAllowed(job: string)
    | NoBaseSHA | NoFixCommit | NoMR | NoExcerptVersion | NoSignatureVersion | NoExecChanges | NoDeadline
    | MRUnread | OtherMR | NoHeadSHA

  function Miss(bad: bool, what: Missing, missing: seq<Missing>): (r: seq<Missing>)
    ensures r == [] <==> !bad && missing == []
    ensures missing == [] ==> (r != [] <==> bad)
  {
    if bad then missing + [what] else missing
  }

  method MissingTargets(fix: FixFacts, start: seq<Missing>) returns (missing: seq<Missing>)
    ensures missing == [] <==>
      && start == []
      && (forall t :: t in fix.targets ==> t.Name() != "")
      && (forall i, j :: 0 <= i < j < |fix.targets| ==> fix.targets[i].Name() != fix.targets[j].Name())
  {
    missing := start;
    var names: set<string> := {};
    for i := 0 to |fix.targets|
      invariant names == set k | 0 <= k < i :: fix.targets[k].Name()
      invariant missing == [] <==>
        && start == []
        && (forall k :: 0 <= k < i ==> fix.targets[k].Name() != "")
        && (forall k, j :: 0 <= k < j < i ==> fix.targets[k].Name() != fix.targets[j].Name())
    {
      var t := fix.targets[i];
      missing := Miss(t.Name() == "", UnnamedTarget, missing);
      missing := Miss(t.Name() in names, TargetTwice(t.Name()), missing);
      names := names + {t.Name()};
    }
  }

  method MissingBase(fix: FixFacts, start: seq<Missing>)
    returns (missing: seq<Missing>, base: map<string, BaseJob>)
    ensures missing == [] <==> start == [] && BaseSound(fix)
    ensures forall n :: n in base <==> exists b :: b in fix.baseJobs && b.name == n
    ensures forall n :: n in base ==> base[n] in fix.baseJobs && base[n].name == n
  {
    missing, base := start, map[];
    for i := 0 to |fix.baseJobs|
      invariant base.Keys == set k | 0 <= k < i :: fix.baseJobs[k].name
      invariant forall n :: n in base ==> base[n] in fix.baseJobs && base[n].name == n
      invariant missing == [] <==>
        && start == []
        && (forall k :: 0 <= k < i ==> fix.baseJobs[k].status != NoStatus)
        && (forall k, j :: 0 <= k < j < i ==> fix.baseJobs[k].name != fix.baseJobs[j].name)
    {
      var b := fix.baseJobs[i];
      missing := Miss(b.status == NoStatus, BaseJobNoStatus(b.name), missing);
      missing := Miss(b.name in base, BaseJobTwice(b.name), missing);
      base := base[b.name := b];
    }
  }

  lemma OneBaseJob(fix: FixFacts, b: BaseJob, c: BaseJob)
    requires BaseSound(fix) && b in fix.baseJobs && c in fix.baseJobs && b.name == c.name
    ensures b == c
  {
    var i :| 0 <= i < |fix.baseJobs| && fix.baseJobs[i] == b;
    var j :| 0 <= j < |fix.baseJobs| && fix.baseJobs[j] == c;
    assert i == j;
  }

  method MissingFromBase(fix: FixFacts, base: map<string, BaseJob>, start: seq<Missing>)
    returns (missing: seq<Missing>)
    requires forall n :: n in base <==> exists b :: b in fix.baseJobs && b.name == n
    requires forall n :: n in base ==> base[n] in fix.baseJobs && base[n].name == n
    ensures start != [] ==> missing != []
    ensures BaseSound(fix) ==>
      (missing == [] <==> start == [] && forall t :: t in fix.targets ==> BaseFailed(fix, t))
  {
    missing := start;
    for i := 0 to |fix.targets|
      invariant start != [] ==> missing != []
      invariant BaseSound(fix) ==>
        (missing == [] <==> start == [] && forall k :: 0 <= k < i ==> BaseFailed(fix, fix.targets[k]))
    {
      var name := fix.targets[i].Name();
      var has := name in base;
      missing := Miss(!has, TargetNotInBase(name), missing);
      missing := Miss(has && base[name].status != Failed, TargetNotFailed(name), missing);
      missing := Miss(has && base[name].allowFailure, TargetAllowed(name), missing);
      if BaseSound(fix) && has {
        forall b | b in fix.baseJobs && b.name == name ensures b == base[name] { OneBaseJob(fix, b, base[name]); }
      }
    }
  }

  /** Names every recorded fact, and every fact of the merge request, that is missing. */
  method MissingFacts(f: JudgeFacts, now: Time) returns (missing: seq<Missing>)
    ensures missing == [] <==> FactsComplete(f, now)
    ensures f.fix.recorded && !f.mr.read ==> MRUnread in missing
  {
    missing := Miss(now == ZERO_TIME, NoTime, []);
    if !f.fix.recorded {
      return missing + [NoRecord];
    }
    var fix := f.fix;
    missing := Miss(fix.targets == [], NoTargets, missing);
    missing := MissingTargets(fix, missing);
    missing := Miss(fix.basePipelineID == 0, NoBasePipeline, missing);
    var base;
    missing, base := MissingBase(fix, missing);
    missing := MissingFromBase(fix, base, missing);
    missing := Miss(fix.fixBaseSHA == "", NoBaseSHA, missing);
    missing := Miss(fix.fixCommitSHA == "", NoFixCommit, missing);
    missing := Miss(fix.mrIID == 0, NoMR, missing);
    missing := Miss(fix.excerptVersion == 0, NoExcerptVersion, missing);
    missing := Miss(fix.signatureVersion == 0, NoSignatureVersion, missing);
    missing := Miss(fix.ciExecChanges.UnknownExec?, NoExecChanges, missing);
    missing := Miss(fix.verifyDeadline == ZERO_TIME, NoDeadline, missing);
    if !f.mr.read {
      return missing + [MRUnread];
    }
    missing := Miss(f.mr.iid != fix.mrIID, OtherMR, missing);
    missing := Miss(f.mr.sha == "", NoHeadSHA, missing);
  }

  /** The lowest-id job attempt of a pipeline that has not finished. */
  method ActiveAttempt(p: Pipeline) returns (first: Option<Attempt>)
    ensures first.None? <==> forall a :: a in p.jobs ==> !ActiveStatus(a.status)
    ensures first.Some? ==> first.value in p.jobs && ActiveStatus(first.value.status)
    ensures first.Some? ==> forall a :: a in p.jobs && ActiveStatus(a.status) ==> first.value.id <= a.id
  {
    first := None;
    for i := 0 to |p.jobs|
      invariant first.None? <==> forall k :: 0 <= k < i ==> !ActiveStatus(p.jobs[k].status)
      invariant first.Some? ==> first.value in p.jobs && ActiveStatus(first.value.status)
      invariant first.Some? ==>
        forall k :: 0 <= k < i && ActiveStatus(p.jobs[k].status) ==> first.value.id <= p.jobs[k].id
    {
      var a := p.jobs[i];
      if ActiveStatus(a.status) && (first.None? || a.id < first.value.id) {
        first := Some(a);
      }
    }
  }

  /** J3 for one diagnosed job. */
  method JudgeJob(t: Target, attempts: seq<Attempt>, complete: bool, sameVersions: bool) returns (j: JobFinding)
    ensures j == FindingOf(t, attempts, complete, sameVersions)
  {
    var failed, succeeded: nat, newSignature := 0, 0, "";
    var weakened, same, unknown, incomparable := false, false, false, false;
    for i := 0 to |attempts|
      invariant failed == Count(IsFailed, attempts[..i]) && succeeded == Count(IsSuccess, attempts[..i])
      invariant newSignature == FirstNewSignature(t, attempts[..i], sameVersions)
      invariant weakened == Any(IsAllowed, attempts[..i])
      invariant same == Any(FailureTest(t, sameVersions, SameFailure), attempts[..i])
      invariant unknown == Any(FailureTest(t, sameVersions, Unread), attempts[..i])
      invariant incomparable == Any(FailureTest(t, sameVersions, Incomparable), attempts[..i])
    {
      var a := attempts[i];
      CountStep(IsFailed, attempts, i);
      CountStep(IsSuccess, attempts, i);
      AnyStep(IsAllowed, attempts, i);
      AnyStep(FailureTest(t, sameVersions, SameFailure), attempts, i);
      AnyStep(FailureTest(t, sameVersions, Unread), attempts, i);
      AnyStep(FailureTest(t, sameVersions, Incomparable), attempts, i);
      PrefixStep(attempts, i);
      if a.allowFailure { weakened := true; }
      if a.status == Success { succeeded := succeeded + 1; }
      if a.status == Failed {
        failed := failed + 1;
        if t.generic {
          same := true;
        } else if !sameVersions {
          incomparable := true;
        } else if !a.trace.read {
          unknown := true;
        } else if FailureKey(a.stage, t.Name(), a.failureReason, a.trace.signature) == t.key {
          same := true;
        } else if a.trace.generic {
          same := true;
        } else if newSignature == "" {
          newSignature := a.trace.signature;
        }
      }
    }
    Whole(attempts);
    var rule := JobRule(|attempts|, failed, succeeded, weakened, same, unknown, incomparable, complete);
    if rule != J3Changed && rule != J3FlakyChanged {
      newSignature := "";
    }
    j := JobFinding(t.Name(), rule, |attempts|, failed, succeeded, newSignature);
  }

  // ---- J4 ----

  lemma {:induction false} LatestIsListed(jobs: seq<Attempt>, name: string)
    ensures Latest(jobs, name).None? <==> forall a :: a in jobs ==> a.name != name
    ensures Latest(jobs, name).Some? ==>
      && Latest(jobs, name).value in jobs && Latest(jobs, name).value.name == name
      && forall a :: a in jobs && a.name == name ==> a.id <= Latest(jobs, name).value.id
  {
    if jobs != [] {
      LatestIsListed(jobs[..|jobs| - 1], name);
      assert jobs == jobs[..|jobs| - 1] + [jobs[|jobs| - 1]];
    }
  }

  lemma {:induction false} FirstFailingFound(cs: seq<Pipeline>, name: string)
    requires forall c :: c in cs ==> c.id != 0
    ensures FirstFailing(cs, name) != 0 <==> exists c :: c in cs && LatestFails(c, name)
  {
    if cs != [] {
      FirstFailingFound(cs[..|cs| - 1], name);
      assert cs == cs[..|cs| - 1] + [cs[|cs| - 1]];
      if LatestFails(cs[|cs| - 1], name) { assert cs[|cs| - 1] in cs; }
    }
  }

  lemma FailingNamesFound(fix: FixFacts, cs: seq<Pipeline>, name: string)
    requires forall c :: c in cs ==> c.id != 0
    ensures name in FailingNames(fix, cs) <==> !Diagnosed(fix, name) && FirstFailing(cs, name) != 0
  {
    FirstFailingFound(cs, name);
    if !Diagnosed(fix, name) && FirstFailing(cs, name) != 0 {
      var c :| c in cs && LatestFails(c, name);
      LatestIsListed(c.jobs, name);
      var a := Latest(c.jobs, name).value;
      assert a in c.jobs && a.name == name;
    }
  }

  /** The latest attempt of each job outside T in one pipeline. */
  method LatestAttempts(jobs: seq<Attempt>, inT: set<string>) returns (latest: map<string, Attempt>)
    ensures forall n :: n in latest <==> n !in inT && Latest(jobs, n).Some?
    ensures forall n :: n in latest ==> latest[n] == Latest(jobs, n).value
  {
    latest := map[];
    for i := 0 to |jobs|
      invariant forall n :: n in latest <==> n !in inT && Latest(jobs[..i], n).Some?
      invariant forall n :: n in latest ==> latest[n] == Latest(jobs[..i], n).value
    {
      var a := jobs[i];
      PrefixStep(jobs, i);
      if a.name !in inT {
        if a.name !in latest || a.id > latest[a.name].id {
          latest := latest[a.name := a];
        }
      }
    }
    Whole(jobs);
  }

  ghost predicate Tracks(m: map<string, int>, inT: set<string>, first: string -> int) {
    && (forall n :: n in m <==> n !in inT && first(n) != 0)
    && (forall n :: n in m ==> m[n] == first(n))
  }

  ghost function FailingIn(cs: seq<Pipeline>): string -> int { (n: string) => FirstFailing(cs, n) }
  ghost function RequiredIn(cs: seq<Pipeline>): string -> int { (n: string) => FirstRequired(cs, n) }

  /** J4: one finding per job outside T whose latest attempt failed in some candidate, by name. */
  method JudgeOthers(fix: FixFacts, inT: set<string>, candidates: seq<Pipeline>) returns (out: seq<OtherFinding>)
    requires forall n :: n in inT <==> Diagnosed(fix, n)
    requires forall c :: c in candidates ==> c.id != 0
    ensures out == OtherFindings(fix, candidates)
  {
    var base := BaseByName(fix.baseJobs);
    var failed, required, names := TallyOthers(inT, candidates);
    FailedAreFailing(fix, inT, candidates, failed, names);
    SortStringsIsSortNames(names, FailingNames(fix, candidates));
    SortStringsSound(names);
    var sorted := SortStrings(names);
    NotDiagnosed(inT, failed, FailingIn(candidates), sorted);
    out := ReportOthers(fix, inT, candidates, sorted, base, failed, required);
  }

  /** The tables after every candidate: where each job outside T first failed, and first failed while required. */
  method TallyOthers(inT: set<string>, candidates: seq<Pipeline>)
    returns (failed: map<string, int>, required: map<string, int>, names: seq<string>)
    requires forall c :: c in candidates ==> c.id != 0
    ensures Tracks(failed, inT, FailingIn(candidates)) && Tracks(required, inT, RequiredIn(candidates))
    ensures forall n :: n in names <==> n in failed
    ensures forall j, k :: 0 <= j < k < |names| ==> names[j] != names[k]
  {
    failed, required, names := map[], map[], [];
    for i := 0 to |candidates|
      invariant Tracks(failed, inT, FailingIn(candidates[..i]))
      invariant Tracks(required, inT, RequiredIn(candidates[..i]))
      invariant forall n :: n in names <==> n in failed
      invariant forall j, k :: 0 <= j < k < |names| ==> names[j] != names[k]
    {
      var c := candidates[i];
      assert c in candidates;
      failed, required, names := RecordFailures(c, inT, candidates[..i], failed, required, names);
      assert candidates[..i + 1] == candidates[..i] + [c];
    }
    Whole(candidates);
  }

  lemma FailedAreFailing(fix: FixFacts, inT: set<string>, candidates: seq<Pipeline>,
                         failed: map<string, int>, names: seq<string>)
    requires forall n :: n in inT <==> Diagnosed(fix, n)
    requires forall c :: c in candidates ==> c.id != 0
    requires Tracks(failed, inT, FailingIn(candidates))
    requires forall n :: n in names <==> n in failed
    ensures forall n :: n in names <==> n in FailingNames(fix, candidates)
  {
    forall n ensures n in names <==> n in FailingNames(fix, candidates) {
      FailingNamesFound(fix, candidates, n);
      assert n in failed <==> n !in inT && FailingIn(candidates)(n) != 0;
    }
  }

  lemma NotDiagnosed(inT: set<string>, failed: map<string, int>, first: string -> int, names: seq<string>)
    requires Tracks(failed, inT, first)
    requires forall n :: n in names ==> n in failed
    ensures forall i :: 0 <= i < |names| ==> names[i] in failed && names[i] !in inT
  {
    assert forall i :: 0 <= i < |names| ==> names[i] in names;
  }

  method ReportOthers(fix: FixFacts, ghost inT: set<string>, ghost cs: seq<Pipeline>, names: seq<string>,
                      base: map<string, BaseJob>, failed: map<string, int>, required: map<string, int>)
    returns (out: seq<OtherFinding>)
    requires forall n :: n in base <==> BaseOf(fix.baseJobs, n).Some?
    requires forall n :: n in base ==> base[n] == BaseOf(fix.baseJobs, n).value
    requires Tracks(failed, inT, FailingIn(cs)) && Tracks(required, inT, RequiredIn(cs))
    requires forall i :: 0 <= i < |names| ==> names[i] in failed && names[i] !in inT
    ensures out == OthersFor(fix.baseJobs, cs, names)
  {
    out := [];
    for i := 0 to |names|
      invariant |out| == i && forall k :: 0 <= k < i ==> out[k] == OtherOf(fix.baseJobs, cs, names[k])
    {
      var name := names[i];
      assert failed[name] == FailingIn(cs)(name) && (name in required <==> RequiredIn(cs)(name) != 0);
      assert name in required ==> required[name] == RequiredIn(cs)(name);
      var status := if name in base then base[name].status else NoStatus;
      var o := OtherFinding(name, J4Revealed, failed[name], status);
      if name in base && status == Success && name in required {
        o := o.(rule := J4Regressed, pipelineID := required[name]);
      } else if name in base && status == Success {
        o := o.(rule := J4RegressedAllowed);
      } else if name in base && status == Failed {
        o := o.(rule := J4Remaining);
      }
      out := out + [o];
    }
  }

  method BaseByName(baseJobs: seq<BaseJob>) returns (base: map<string, BaseJob>)
    ensures forall n :: n in base <==> BaseOf(baseJobs, n).Some?
    ensures forall n :: n in base ==> base[n] == BaseOf(baseJobs, n).value
  {
    base := map[];
    for i := 0 to |baseJobs|
      invariant forall n :: n in base <==> BaseOf(baseJobs[..i], n).Some?
      invariant forall n :: n in base ==> base[n] == BaseOf(baseJobs[..i], n).value
    {
      PrefixStep(baseJobs, i);
      base := base[baseJobs[i].name := baseJobs[i]];
    }
    Whole(baseJobs);
  }

  /** One candidate pipeline's share of J4's failed and required tables. */
  predicate FailedRequired(a: Attempt) { a.status == Failed && !a.allowFailure }

  /** m0, and id for each job outside rest that the test holds of and m0 does not have. */
  ghost predicate Seen(m: map<string, int>, m0: map<string, int>, latest: map<string, Attempt>, rest: set<string>,
                       id: int, test: Attempt -> bool) {
    && (forall n :: n in m <==> n in m0 || (n in latest && n !in rest && test(latest[n])))
    && (forall n :: n in m ==> m[n] == if n in m0 then m0[n] else id)
  }

  lemma SeenNext(m: map<string, int>, m0: map<string, int>, latest: map<string, Attempt>, rest: set<string>,
                 id: int, test: Attempt -> bool, name: string)
    requires Seen(m, m0, latest, rest, id, test) && name in rest && name in latest
    ensures var m' := if test(latest[name]) && name !in m then m[name := id] else m;
      Seen(m', m0, latest, rest - {name}, id, test)
  {}

  method RecordFailures(c: Pipeline, inT: set<string>, ghost before: seq<Pipeline>,
                        failed0: map<string, int>, required0: map<string, int>, names0: seq<string>)
    returns (failed: map<string, int>, required: map<string, int>, names: seq<string>)
    requires c.id != 0
    requires Tracks(failed0, inT, FailingIn(before)) && Tracks(required0, inT, RequiredIn(before))
    requires forall n :: n in names0 <==> n in failed0
    requires forall j, k :: 0 <= j < k < |names0| ==> names0[j] != names0[k]
    ensures Tracks(failed, inT, FailingIn(before + [c])) && Tracks(required, inT, RequiredIn(before + [c]))
    ensures forall n :: n in names <==> n in failed
    ensures forall j, k :: 0 <= j < k < |names| ==> names[j] != names[k]
  {
    var latest := LatestAttempts(c.jobs, inT);
    failed, required, names := failed0, required0, names0;
    var rest := latest.Keys;
    while rest != {}
      invariant rest <= latest.Keys
      invariant Seen(failed, failed0, latest, rest, c.id, IsFailed)
      invariant Seen(required, required0, latest, rest, c.id, FailedRequired)
      invariant forall n :: n in names <==> n in failed
      invariant forall j, k :: 0 <= j < k < |names| ==> names[j] != names[k]
      decreases |rest|
    {
      var name :| name in rest;
      var a := latest[name];
      SeenNext(failed, failed0, latest, rest, c.id, IsFailed, name);
      SeenNext(required, required0, latest, rest, c.id, FailedRequired, name);
      if a.status == Failed {
        if name !in failed {
          failed := failed[name := c.id];
          names := names + [name];
        }
        if !a.allowFailure && name !in required {
          required := required[name := c.id];
        }
      }
      rest := rest - {name};
    }
    TracksNext(c, inT, before, latest, failed0, failed, required0, required);
  }

  lemma TracksNext(c: Pipeline, inT: set<string>, before: seq<Pipeline>, latest: map<string, Attempt>,
                   failed0: map<string, int>, failed: map<string, int>,
                   required0: map<string, int>, required: map<string, int>)
    requires c.id != 0
    requires Tracks(failed0, inT, FailingIn(before)) && Tracks(required0, inT, RequiredIn(before))
    requires forall n :: n in latest <==> n !in inT && Latest(c.jobs, n).Some?
    requires forall n :: n in latest ==> latest[n] == Latest(c.jobs, n).value
    requires Seen(failed, failed0, latest, {}, c.id, IsFailed)
        && Seen(required, required0, latest, {}, c.id, FailedRequired)
    ensures Tracks(failed, inT, FailingIn(before + [c])) && Tracks(required, inT, RequiredIn(before + [c]))
  {
    var after := before + [c];
    assert after[..|after| - 1] == before && after[|after| - 1] == c;
    forall n
      ensures n in failed <==> n !in inT && FailingIn(after)(n) != 0
      ensures n in failed ==> failed[n] == FailingIn(after)(n)
      ensures n in required <==> n !in inT && RequiredIn(after)(n) != 0
      ensures n in required ==> required[n] == RequiredIn(after)(n)
    {
      assert n in failed0 <==> n !in inT && FailingIn(before)(n) != 0;
      assert n in required0 <==> n !in inT && RequiredIn(before)(n) != 0;
    }
  }

  // ---- J1 ----

  /** The loop over the merge request's pipelines: what is a candidate, what was
      skipped without a job, what ran on a merged-results commit. */
  method SelectPipelines(ps: seq<Pipeline>, sha: string, mrIID: int)
    returns (malformed: bool, candidates: seq<Pipeline>, skipped: seq<int>, merged: seq<int>)
    ensures malformed == !WellFormedAll(ps)
    ensures !malformed ==>
      && candidates == SortById(PipelineId, Filter(CandidateTest(sha), ps))
      && skipped == SortById(IntId, Ids(Filter(SkippedTest(sha), ps)))
      && merged == SortById(IntId, Ids(Filter(MergedTest(sha, mrIID), ps)))
  {
    malformed, candidates, skipped, merged := false, [], [], [];
    for i := 0 to |ps|
      invariant WellFormedAll(ps[..i])
      invariant candidates == Filter(CandidateTest(sha), ps[..i])
      invariant skipped == Ids(Filter(SkippedTest(sha), ps[..i]))
      invariant merged == Ids(Filter(MergedTest(sha, mrIID), ps[..i]))
    {
      var p := ps[i];
      assert p in ps;
      if p.id == 0 || p.sha == "" || p.source == NoSource {
        return true, [], [], [];
      }
      FilterStep(CandidateTest(sha), ps, i);
      FilterStep(SkippedTest(sha), ps, i);
      FilterStep(MergedTest(sha, mrIID), ps, i);
      PrefixStep(ps, i);
      if p.sha != sha {
        if MergedResultPipeline(p, mrIID) {
          merged := merged + [p.id];
        }
      } else if p.source == ParentPipeline {
      } else if SkippedWithoutJobs(p) {
        skipped := skipped + [p.id];
      } else {
        candidates := candidates + [p];
      }
    }
    Whole(ps);
    candidates := SortById(PipelineId, candidates);
    skipped := SortById(IntId, skipped);
    merged := SortById(IntId, merged);
  }

  method AllSettled(candidates: seq<Pipeline>) returns (ids: seq<int>, settled: bool)
    ensures ids == Ids(candidates) && settled == Settled(candidates)
  {
    ids, settled := [], |candidates| > 0;
    for i := 0 to |candidates|
      invariant ids == Ids(candidates[..i])
      invariant settled <==> |candidates| > 0 && forall k :: 0 <= k < i ==> SettledPipeline(candidates[k])
    {
      var c := candidates[i];
      ids := ids + [c.id];
      if !SettledStatus(c.status) {
        settled := false;
      }
      var active := ActiveAttempt(c);
      if active.Some? {
        settled := false;
      }
    }
    Whole(candidates);
  }

  // ---- J3 ----

  /** Which facts about the attempts are still to be read, and whether a job object is malformed. */
  method CheckAttempts(candidates: seq<Pipeline>) returns (unread: bool, malformed: bool)
    ensures malformed <==> JobsMalformed(candidates)
    ensures !malformed ==> (unread <==> exists c :: c in candidates && !JobsListed(c))
  {
    unread, malformed := false, false;
    for i := 0 to |candidates|
      invariant unread <==> exists k :: 0 <= k < i && !JobsListed(candidates[k])
      invariant forall k :: 0 <= k < i ==> forall a :: a in candidates[k].jobs ==> WellFormedJob(a)
    {
      var c := candidates[i];
      assert c in candidates;
      if !c.jobsRead {
        unread := true;
      }
      if !c.includeRetried {
        unread := true;
      }
      for j := 0 to |c.jobs|
        invariant forall k :: 0 <= k < j ==> WellFormedJob(c.jobs[k])
      {
        var a := c.jobs[j];
        assert a in c.jobs;
        if a.id == 0 || a.name == "" || a.status == NoStatus {
          return unread, true;
        }
      }
    }
  }

  method CollectAttempts(name: string, candidates: seq<Pipeline>) returns (attempts: seq<Attempt>)
    ensures attempts == AttemptsOf(name, candidates)
  {
    attempts := [];
    for i := 0 to |candidates|
      invariant attempts == AttemptsOf(name, candidates[..i])
    {
      var c := candidates[i];
      PrefixStep(candidates, i);
      ghost var before := attempts;
      for j := 0 to |c.jobs|
        invariant attempts == before + Filter(NamedTest(name), c.jobs[..j])
      {
        FilterStep(NamedTest(name), c.jobs, j);
        if c.jobs[j].name == name {
          attempts := attempts + [c.jobs[j]];
        }
      }
      Whole(c.jobs);
    }
    Whole(candidates);
  }

  method JudgeNamed(t: Target, candidates: seq<Pipeline>, complete: bool, sameVersions: bool) returns (j: JobFinding)
    ensures j == FindingOf(t, AttemptsOf(t.Name(), candidates), complete, sameVersions)
  {
    var attempts := CollectAttempts(t.Name(), candidates);
    j := JudgeJob(t, attempts, complete, sameVersions);
  }

  /** J3 over every diagnosed job, and the set T the rest of the check leaves out. */
  method JudgeTargets(ts: seq<Target>, candidates: seq<Pipeline>, complete: bool, sameVersions: bool)
    returns (jobs: seq<JobFinding>, inT: set<string>, unreadTraces: bool)
    ensures jobs == FindingsOf(ts, candidates, complete, sameVersions)
    ensures inT == NamesOf(ts)
    ensures unreadTraces == Any(IsUnknown, jobs)
  {
    jobs, inT, unreadTraces := [], {}, false;
    for i := 0 to |ts|
      invariant jobs == FindingsOf(ts[..i], candidates, complete, sameVersions)
      invariant inT == NamesOf(ts[..i])
      invariant unreadTraces == Any(IsUnknown, jobs)
    {
      TargetsStep(ts, candidates, complete, sameVersions, i);
      inT := inT + {ts[i].Name()};
      var j := JudgeNamed(ts[i], candidates, complete, sameVersions);
      if j.rule == J3Unknown {
        unreadTraces := true;
      }
      AnySnoc(IsUnknown, jobs, j);
      jobs := jobs + [j];
    }
    Whole(ts);
  }

  lemma TargetsStep(ts: seq<Target>, cs: seq<Pipeline>, complete: bool, sameVersions: bool, i: nat)
    requires i < |ts|
    ensures FindingsOf(ts[..i + 1], cs, complete, sameVersions)
         == FindingsOf(ts[..i], cs, complete, sameVersions) +
           [FindingOf(ts[i], AttemptsOf(ts[i].Name(), cs), complete, sameVersions)]
    ensures NamesOf(ts[..i + 1]) == NamesOf(ts[..i]) + {ts[i].Name()}
  {
    PrefixStep(ts, i);
  }

  function NamesOf(ts: seq<Target>): set<string> {
    if ts == [] then {} else NamesOf(ts[..|ts| - 1]) + {ts[|ts| - 1].Name()}
  }

  lemma {:induction false} DiagnosedNames(ts: seq<Target>)
    ensures forall n :: n in NamesOf(ts) <==> exists t :: t in ts && t.Name() == n
  {
    if ts != [] {
      DiagnosedNames(ts[..|ts| - 1]);
      assert ts == ts[..|ts| - 1] + [ts[|ts| - 1]];
      assert ts[|ts| - 1] in ts;
    }
  }

  /** Past the deadline, what is still unknown was not observed. */
  method GiveUpOnTraces(raw: seq<JobFinding>) returns (jobs: seq<JobFinding>)
    ensures jobs == GiveUpAll(raw)
  {
    jobs := raw;
    for i := 0 to |jobs|
      invariant |jobs| == |raw|
      invariant forall k :: 0 <= k < i ==> jobs[k] == GiveUp(raw[k])
      invariant forall k :: i <= k < |raw| ==> jobs[k] == raw[k]
    {
      if jobs[i].rule == J3Unknown {
        jobs := jobs[i := jobs[i].(rule := J3Unread)];
      }
    }
  }

  // ---- the check ----

  method AllSuccess(candidates: seq<Pipeline>) returns (b: bool)
    ensures b <==> forall c :: c in candidates ==> c.status == Success
  {
    for i := 0 to |candidates|
      invariant forall k :: 0 <= k < i ==> candidates[k].status == Success
    {
      if candidates[i].status != Success {
        assert candidates[i] in candidates;
        return false;
      }
    }
    b := true;
  }

  method Judge(f: JudgeFacts, now: Time) returns (res: Result)
    ensures res == Answer(f, now)
  {
    var missing := MissingFacts(f, now);
    if |missing| > 0 {
      return Blank();
    }
    // J0
    if f.mr.state == Merged {
      return Stopped(StateMerged, J0Merged);
    } else if f.mr.state == Closed {
      return Stopped(StateClosedUnmerged, J0Closed);
    } else if f.mr.state != Opened {
      return Blank();
    } else if f.mr.sha != f.fix.fixCommitSHA {
      return Stopped(StateTakenOver, J0TakenOver);
    }
    res := JudgePipelines(f, !(now < f.fix.verifyDeadline));
  }

  method JudgePipelines(f: JudgeFacts, past: bool) returns (res: Result)
    ensures res == OpenAnswer(f.fix, f.definition, Select(f), past)
  {
    res := Blank();
    if !f.pipelines.read {
      res := JudgeAttempts(f.fix, f.definition, past, Selection(false, false, [], [], []), [J1Unread], res);
      return;
    }
    var malformed, candidates, skipped, merged :=
      SelectPipelines(f.pipelines.pipelines, f.fix.fixCommitSHA, f.fix.mrIID);
    if malformed {
      return Blank();
    }
    NonZeroIds(f);
    var ids, settled := AllSettled(candidates);
    res := res.(candidates := ids, skipped := skipped, mergedResult := merged);
    if !settled && !past {
      res := res.(decision := DecisionWait, state := StateVerifying, rule := J1Wait);
      return;
    }
    var unverifiable: seq<Rule> := [];
    if !settled {
      unverifiable := [if |candidates| == 0 && |merged| > 0 then J1MergedResult else J1Timeout];
    }
    res := JudgeAttempts(f.fix, f.definition, past, Selection(true, false, candidates, skipped, merged),
                         unverifiable, res);
  }

  /** J2 to J5; causes is what J1 could not establish, found what it listed. */
  method JudgeAttempts(fix: FixFacts, d: DefinitionFacts, past: bool, sel: Selection, causes: seq<Rule>, found: Result)
    returns (res: Result)
    requires forall c :: c in sel.candidates ==> c.id != 0
    requires causes == SettleCauses(sel) && found == CannotJudge(sel, RuleFacts, [])
    ensures res == AttemptsAnswer(fix, d, sel, past)
  {
    res := found;
    var candidates, unread, complete := sel.candidates, !sel.read, sel.read;
    var unverifiable, forged, defUnread := JudgeDefinition(fix, d, causes);
    if !defUnread && forged.None? && |unverifiable| == |causes| {
      res := res.(definition := Some(d.delta.kind));
    }
    var jobsUnread, malformedJob := CheckAttempts(candidates);
    if malformedJob {
      return res.(definition := None);
    }
    if defUnread {
      unread := true;
    }
    if jobsUnread {
      unread := true;
      complete := false;
    }
    var jobs, inT, unreadTraces := JudgeTargets(fix.targets, candidates, complete, SameVersions(fix));
    DiagnosedNames(fix.targets);
    if !past && unread {
      return res.(definition := None, jobs := jobs);
    }
    if !past && unreadTraces {
      return res.(definition := None, rule := J3Unknown, jobs := jobs);
    }
    jobs := GiveUpOnTraces(jobs);
    var others := JudgeOthers(fix, inT, candidates);
    var green := AllSuccess(candidates);
    var verdict, rule := Verdict(forged, unverifiable, jobs, others, candidates, green);
    res := res.(decision := DecisionVerdict, verdict := Some(verdict), state := StateFor(verdict), rule := rule,
                jobs := jobs, others := others);
  }

  /** J2 over a computed delta: its kind and its lists, the worse of the two. */
  method FindDefinition(d: Delta, fix: FixFacts) returns (c: Option<Rule>)
    ensures c == DefinitionFinding(d, fix)
  {
    if d.kind == KindViolation {
      return Some(J2Violation);
    }
    if d.violations > 0 {
      return Some(J2Violation);
    }
    for i := 0 to |d.unresolvable|
      invariant SideHead !in d.unresolvable[..i]
    {
      if d.unresolvable[i] == SideHead {
        return Some(J2HeadUnresolvable);
      }
    }
    Whole(d.unresolvable);
    if d.kind == KindUnresolvable {
      return Some(J2Unresolvable);
    }
    if |d.unresolvable| > 0 {
      return Some(J2Unresolvable);
    }
    var lifted := false;
    for i := 0 to |fix.lift|
      invariant lifted <==> LIFT_CI in fix.lift[..i]
    {
      lifted := lifted || fix.lift[i] == LIFT_CI;
    }
    Whole(fix.lift);
    if d.kind != KindNone && !lifted {
      return Some(J2Unlifted);
    }
    if d.kind == KindExecChanging && fix.ciExecChanges == Deny {
      return Some(J2ExecDenied);
    }
    return None;
  }

  /** J2: an unread delta and an unresolvable one are causes, any other finding is a forgery. */
  method JudgeDefinition(fix: FixFacts, d: DefinitionFacts, causes: seq<Rule>)
    returns (unverifiable: seq<Rule>, forged: Option<Rule>, unread: bool)
    ensures unverifiable == causes + DefinitionCauses(fix, d) && forged == Forgery(fix, d)
    ensures unread <==> !DefinitionRead(d)
  {
    unverifiable, forged, unread := causes, None, false;
    if !d.read || !KnownKind(d.delta.kind) {
      return causes + [J2Unread], None, true;
    }
    var c := FindDefinition(d.delta, fix);
    match c {
      case None =>
      case Some(J2Unresolvable) => unverifiable := unverifiable + [J2Unresolvable];
      case Some(r) => forged := Some(r);
    }
  }

  lemma NonZeroIds(f: JudgeFacts)
    requires !Select(f).malformed
    ensures forall c :: c in Select(f).candidates ==> c.id != 0
  {
    if f.pipelines.read {
      SortMembers(PipelineId, Filter(CandidateTest(f.fix.fixCommitSHA), f.pipelines.pipelines));
      FilterMembers(CandidateTest(f.fix.fixCommitSHA), f.pipelines.pipelines);
    }
  }

  /** The first finding whose rule is one of those wanted, in list order. */
  method First<T>(rule: T -> Rule, wanted: set<Rule>, s: seq<T>) returns (r: Option<Rule>)
    ensures r == FirstRule(rule, wanted, s)
  {
    var i := 0;
    while i < |s|
      invariant 0 <= i <= |s|
      invariant FirstRule(rule, wanted, s) == FirstRule(rule, wanted, s[i..])
    {
      assert s[i..][1..] == s[i + 1..];
      if rule(s[i]) in wanted {
        return Some(rule(s[i]));
      }
      i := i + 1;
    }
    r := None;
  }

  method FirstNotObserved(js: seq<JobFinding>) returns (r: Option<Rule>)
    ensures r == FirstUnobserved(js)
  {
    var i := 0;
    while i < |js|
      invariant 0 <= i <= |js|
      invariant FirstUnobserved(js) == FirstUnobserved(js[i..])
    {
      assert js[i..][1..] == js[i + 1..];
      if js[i].rule !in OBSERVED {
        return Some(js[i].rule);
      }
      i := i + 1;
    }
    r := None;
  }

  /** J5, first match. */
  method Verdict(forged: Option<Rule>, unverifiable: seq<Rule>, jobs: seq<JobFinding>, others: seq<OtherFinding>,
                 ghost cs: seq<Pipeline>, green: bool) returns (v: Verdict, r: Rule)
    requires green <==> forall c :: c in cs ==> c.status == Success
    ensures (v, r) == Ladder(forged, unverifiable, jobs, others, cs)
  {
    if forged.Some? { return FORGED, forged.value; }
    var j := First(RuleOfJob, {J3Weakened}, jobs);
    if j.Some? { return FORGED, j.value; }
    j := First(RuleOfJob, {J3Recurs}, jobs);
    if j.Some? { return NOT_FIXED, j.value; }
    j := First(RuleOfJob, {J3FlakySame, J3FlakyChanged}, jobs);
    if j.Some? { return FLAKY, j.value; }
    if |unverifiable| > 0 { return UNVERIFIABLE, unverifiable[0]; }
    j := FirstNotObserved(jobs);
    if j.Some? { return UNVERIFIABLE, j.value; }
    var o := First(RuleOfOther, {J4Regressed}, others);
    if o.Some? { return REGRESSED, o.value; }
    j := First(RuleOfJob, {J3Changed}, jobs);
    if j.Some? { return FIXED_NEW_FAILURE, j.value; }
    o := First(RuleOfOther, {J4Remaining, J4Revealed, J4RegressedAllowed}, others);
    if o.Some? { return FIXED_NEW_FAILURE, o.value; }
    if !green { return UNVERIFIABLE, J5NotSuccess; }
    return FIXED, J5Fixed;
  }
}
