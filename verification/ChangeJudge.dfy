/** A change's exit check as it is written: loops that fill lists, tallies and flags,
    early returns, and the ladder at the end. */
module ChangeJudge {
  import opened Basics
  import opened CiDelta
  import opened ChangeFacts
  import opened ChangeSpec
  import opened Listing
  import opened Ordering

  // ---- reports ----

  method IsWellFormed(r: Report) returns (b: bool)
    ensures b == WellFormed(r)
  {
    if !r.read {
      return false;
    }
    if |r.cases| != r.total {
      return false;
    }
    for i := 0 to |r.cases|
      invariant forall k :: 0 <= k < i ==> KnownCase(r.cases[k])
    {
      var c := r.cases[i];
      assert c in r.cases;
      if c.id.name == "" || c.status.OtherCase? {
        return false;
      }
    }
    return true;
  }

  /** m counts what occ holds. */
  ghost predicate Counts(m: map<CaseId, nat>, occ: multiset<CaseId>) {
    && (forall id :: id in m <==> id in occ)
    && (forall id :: id in m ==> m[id] == occ[id])
  }

  function At(m: map<CaseId, nat>, id: CaseId): nat { if id in m then m[id] else 0 }

  lemma CountsOne(m: map<CaseId, nat>, occ: multiset<CaseId>, id: CaseId)
    requires Counts(m, occ)
    ensures Counts(m[id := At(m, id) + 1], occ + multiset{id})
  {}

  lemma OccurrencesStep(wanted: set<CaseStatus>, cases: seq<Case>, i: nat)
    requires i < |cases|
    ensures Occurrences(wanted, cases[..i + 1])
         == Occurrences(wanted, cases[..i]) + if cases[i].status in wanted then multiset{cases[i].id} else multiset{}
  {
    PrefixStep(cases, i);
  }

  /** How often each identity passed, and how often it failed. */
  method TallyOf(r: Report) returns (passed: map<CaseId, nat>, failed: map<CaseId, nat>)
    ensures Counts(passed, Passed(r)) && Counts(failed, Failing(r))
  {
    passed, failed := map[], map[];
    for i := 0 to |r.cases|
      invariant Counts(passed, Occurrences({CasePassed}, r.cases[..i]))
      invariant Counts(failed, Occurrences({CaseFailed, CaseError}, r.cases[..i]))
    {
      var c := r.cases[i];
      OccurrencesStep({CasePassed}, r.cases, i);
      OccurrencesStep({CaseFailed, CaseError}, r.cases, i);
      CountsOne(passed, Occurrences({CasePassed}, r.cases[..i]), c.id);
      CountsOne(failed, Occurrences({CaseFailed, CaseError}, r.cases[..i]), c.id);
      match c.status {
        case CasePassed => passed := passed[c.id := At(passed, c.id) + 1];
        case CaseFailed => failed := failed[c.id := At(failed, c.id) + 1];
        case CaseError => failed := failed[c.id := At(failed, c.id) + 1];
        case _ =>
      }
    }
    Whole(r.cases);
  }

  method CountGoPasses(r: Report, g: GoTest) returns (n: nat)
    ensures n == GoPasses(r, g)
  {
    n := 0;
    for i := 0 to |r.cases|
      invariant n == Count(GoPassTest(g), r.cases[..i])
    {
      var c := r.cases[i];
      CountStep(GoPassTest(g), r.cases, i);
      if c.status != CasePassed || c.id.name != g.name {
      } else if g.dir != "" && c.id.classname != g.dir && !HasSuffix(c.id.classname, "/" + g.dir) {
      } else {
        n := n + 1;
      }
    }
    Whole(r.cases);
  }

  // ---- K4 ----

  method AnyUnread(cs: seq<Pipeline>) returns (b: bool)
    ensures b == ReportUnread(cs)
  {
    for i := 0 to |cs|
      invariant forall k :: 0 <= k < i ==> cs[k].status != Success || WellFormed(cs[k].report)
    {
      var ok := IsWellFormed(cs[i].report);
      if cs[i].status == Success && !ok {
        assert cs[i] in cs;
        return true;
      }
    }
    return false;
  }

  method KeepGreen(cs: seq<Pipeline>) returns (green: seq<Pipeline>)
    ensures green == GreenPipelines(cs)
  {
    green := [];
    for i := 0 to |cs|
      invariant green == Filter(IsGreen, cs[..i])
    {
      FilterStep(IsGreen, cs, i);
      if cs[i].status == Success {
        green := green + [cs[i]];
      }
    }
    Whole(cs);
  }

  method KeepReporting(green: seq<Pipeline>) returns (heads: seq<Pipeline>)
    ensures heads == Filter(Reports, green)
  {
    heads := [];
    for i := 0 to |green|
      invariant heads == Filter(Reports, green[..i])
    {
      FilterStep(Reports, green, i);
      if green[i].report.total > 0 {
        heads := heads + [green[i]];
      }
    }
    Whole(green);
  }

  /** The identities counted more often in `more` than in `less`. */
  method Surplus(more: map<CaseId, nat>, less: map<CaseId, nat>) returns (ids: set<CaseId>)
    ensures ids == set id | id in more && more[id] > At(less, id)
  {
    ids := {};
    var rest := more.Keys;
    while rest != {}
      invariant rest <= more.Keys
      invariant ids == set id | id in more && id !in rest && more[id] > At(less, id)
      decreases |rest|
    {
      var id :| id in rest;
      if At(less, id) < more[id] {
        ids := ids + {id};
      }
      rest := rest - {id};
    }
  }

  /** The passes of the base that some reporting pipeline has fewer of. */
  method LostPasses(base: Report, heads: seq<Pipeline>) returns (lost: set<CaseId>)
    ensures lost == Lost(base, heads)
  {
    lost := {};
    var basePassed, baseFailed := TallyOf(base);
    for i := 0 to |heads|
      invariant lost == Lost(base, heads[..i])
    {
      var passed, failed := TallyOf(heads[i].report);
      var fewer := Surplus(basePassed, passed);
      PrefixStep(heads, i);
      lost := lost + fewer;
    }
    Whole(heads);
  }

  method NewFailures(base: Report, heads: seq<Pipeline>) returns (failing: set<CaseId>)
    ensures failing == NewlyFailing(base, heads)
  {
    failing := {};
    var basePassed, baseFailed := TallyOf(base);
    for i := 0 to |heads|
      invariant failing == NewlyFailing(base, heads[..i])
    {
      var passed, failed := TallyOf(heads[i].report);
      var more := Surplus(failed, baseFailed);
      PrefixStep(heads, i);
      failing := failing + more;
    }
    Whole(heads);
  }

  lemma NewPassStep(base: Report, heads: seq<Pipeline>, i: nat, more: set<CaseId>)
    requires i < |heads|
    requires more == set id | id in Passed(heads[i].report) && Passed(heads[i].report)[id] > Passed(base)[id]
    ensures NewPasses(base, heads[..i + 1]) == NewPasses(base, heads[..i]) + more
  {
    PrefixStep(heads, i);
  }

  method AnyNewPass(base: Report, heads: seq<Pipeline>) returns (anyNew: bool)
    ensures anyNew <==> NewPasses(base, heads) != {}
  {
    anyNew := false;
    var basePassed, baseFailed := TallyOf(base);
    for i := 0 to |heads|
      invariant anyNew <==> NewPasses(base, heads[..i]) != {}
    {
      var passed, failed := TallyOf(heads[i].report);
      var more := Surplus(passed, basePassed);
      NewPassStep(base, heads, i, more);
      if more != {} {
        anyNew := true;
      }
    }
    Whole(heads);
  }

  method GoNotRun(base: Report, heads: seq<Pipeline>, added: seq<GoTest>) returns (notRun: set<GoTest>)
    ensures notRun == NotRunGo(base, heads, added)
  {
    notRun := {};
    for i := 0 to |added|
      invariant notRun == NotRunGo(base, heads, added[..i])
    {
      var g, ran := added[i], false;
      PrefixStep(added, i);
      var before := CountGoPasses(base, g);
      for k := 0 to |heads|
        invariant ran <==> exists j :: 0 <= j < k && GoPasses(heads[j].report, g) > GoPasses(base, g)
      {
        var now := CountGoPasses(heads[k].report, g);
        if now > before {
          ran := true;
        }
      }
      assert ran == RanGo(base, heads, g);
      if !ran {
        notRun := notRun + {g};
      }
    }
    Whole(added);
  }

  method TestsAreLookedFor(classes: seq<string>) returns (b: bool)
    ensures b == TestsApply(classes)
  {
    for i := 0 to |classes|
      invariant forall k :: 0 <= k < i ==> classes[k] == CLASS_DOCS
    {
      if classes[i] != CLASS_DOCS {
        assert classes[i] in classes;
        return true;
      }
    }
    return false;
  }

  method JudgeTests(ch: Change, candidates: seq<Pipeline>) returns (t: Tests)
    ensures t == JudgedTests(ch, candidates)
  {
    var apply := TestsAreLookedFor(ch.diffClasses);
    if !apply {
      return Plain(NotApplicable, K4NotApplicable);
    }
    var green := KeepGreen(candidates);
    if |green| == 0 {
      return Plain(NoFinding, NoRule);
    }
    var unread := AnyUnread(candidates);
    if unread {
      return Plain(TestsUnknown, K4Unknown);
    }
    var heads := KeepReporting(green);
    if |heads| == 0 {
      var passed, failed := TallyOf(ch.baseReport);
      NothingCounted(passed, Passed(ch.baseReport));
      if |passed| > 0 {
        return Plain(TestsReduced, K4Vanished);
      }
      return Plain(TestsUnobserved, K4Unobserved);
    }
    var lost := LostPasses(ch.baseReport, heads);
    if lost != {} {
      return Plain(TestsReduced, K4Reduced).(lost := lost);
    }
    if ch.goProfile {
      var notRun := GoNotRun(ch.baseReport, heads, ch.addedGoTests);
      if notRun != {} {
        return Plain(TestsNewNotRun, K4NewNotRunGo).(notRun := notRun);
      }
    } else {
      var anyNew := AnyNewPass(ch.baseReport, heads);
      if !anyNew {
        return Plain(TestsNewNotRun, K4NewNotRunNone);
      }
    }
    var failing := NewFailures(ch.baseReport, heads);
    if failing != {} {
      return Plain(TestsFailed, K4Failed).(failing := failing);
    }
    return Plain(TestsObserved, K4Observed);
  }

  lemma NothingCounted(m: map<CaseId, nat>, occ: multiset<CaseId>)
    requires Counts(m, occ)
    ensures |m| == 0 <==> occ == multiset{}
  {
    if |m| == 0 {
      assert m == map[];
      assert forall id :: id !in occ;
      assert occ == multiset{};
    } else {
      assert m.Keys != {};
      var id :| id in m.Keys;
      assert id in occ;
    }
  }

  // ---- K3 ----

  datatype Attempted = Attempted(attempts: nat, failed: nat, succeeded: nat, required: bool)

  function AttemptedOf(n: string, s: seq<Attempt>): Attempted {
    Attempted(Count(Named(n), s), Count(NamedFailed(n), s), Count(NamedSuccess(n), s), Any(NamedRequired(n), s))
  }

  function Next(t: Attempted, a: Attempt): Attempted {
    Attempted(t.attempts + 1, t.failed + if a.status == Failed then 1 else 0,
              t.succeeded + if a.status == Success then 1 else 0, t.required || !a.allowFailure)
  }

  lemma AttemptedStep(n: string, s: seq<Attempt>, a: Attempt)
    ensures AttemptedOf(n, s + [a]) == if a.name == n then Next(AttemptedOf(n, s), a) else AttemptedOf(n, s)
  {
    assert (s + [a])[..|s|] == s;
  }

  ghost predicate Tallied(m: map<string, Attempted>, s: seq<Attempt>) {
    && (forall n :: n in m <==> exists a :: a in s && a.name == n)
    && (forall n :: n in m ==> m[n] == AttemptedOf(n, s))
  }

  lemma NeverAttempted(n: string, s: seq<Attempt>)
    requires forall a :: a in s ==> a.name != n
    ensures AttemptedOf(n, s) == Attempted(0, 0, 0, false)
  {
    CountMembers(Named(n), s);
    CountMembers(NamedFailed(n), s);
    CountMembers(NamedSuccess(n), s);
    AnyMembers(NamedRequired(n), s);
  }

  lemma TalliedNext(m: map<string, Attempted>, s: seq<Attempt>, a: Attempt)
    requires Tallied(m, s)
    ensures Tallied(m[a.name := Next(if a.name in m then m[a.name] else Attempted(0, 0, 0, false), a)], s + [a])
  {
    var m' := m[a.name := Next(if a.name in m then m[a.name] else Attempted(0, 0, 0, false), a)];
    if a.name !in m {
      assert forall b :: b in s ==> b.name != a.name;
      NeverAttempted(a.name, s);
    }
    forall n
      ensures n in m' <==> exists b :: b in s + [a] && b.name == n
      ensures n in m' ==> m'[n] == AttemptedOf(n, s + [a])
    {
      AttemptedStep(n, s, a);
      assert a in s + [a];
      if n in m {
        var b :| b in s && b.name == n;
        assert b in s + [a];
      }
    }
  }

  /** Every job's attempts across the candidates, and the names met. */
  method TallyJobs(candidates: seq<Pipeline>) returns (byName: map<string, Attempted>, names: seq<string>)
    ensures Tallied(byName, AllAttempts(candidates))
    ensures forall n :: n in names <==> n in byName
    ensures forall j, k :: 0 <= j < k < |names| ==> names[j] != names[k]
  {
    byName, names := map[], [];
    for i := 0 to |candidates|
      invariant Tallied(byName, AllAttempts(candidates[..i]))
      invariant forall n :: n in names <==> n in byName
      invariant forall j, k :: 0 <= j < k < |names| ==> names[j] != names[k]
    {
      var c := candidates[i];
      ghost var done := AllAttempts(candidates[..i]);
      assert done + c.jobs[..0] == done;
      for j := 0 to |c.jobs|
        invariant Tallied(byName, done + c.jobs[..j])
        invariant forall n :: n in names <==> n in byName
        invariant forall j, k :: 0 <= j < k < |names| ==> names[j] != names[k]
      {
        var a := c.jobs[j];
        TalliedNext(byName, done + c.jobs[..j], a);
        assert done + c.jobs[..j] + [a] == done + c.jobs[..j + 1];
        if a.name !in byName {
          names := names + [a.name];
        }
        byName := byName[a.name := Next(if a.name in byName then byName[a.name] else Attempted(0, 0, 0, false), a)];
      }
      Whole(c.jobs);
      PrefixStep(candidates, i);
    }
    Whole(candidates);
  }

  lemma FailedMeans(s: seq<Attempt>, m: map<string, Attempted>, n: string)
    requires Tallied(m, s)
    ensures n in FailedNames(s) <==> n in m && m[n].failed > 0
  {
    CountMembers(NamedFailed(n), s);
    if a :| a in s && NamedFailed(n)(a) { assert a in s && a.status == Failed && a.name == n; }
  }

  /** The names with a failed attempt, kept in sorted order. */
  method KeepFailed(sorted: seq<string>, byName: map<string, Attempted>) returns (failed: seq<string>)
    requires SortedNames(sorted) && forall n :: n in sorted ==> n in byName
    ensures SortedNames(failed)
    ensures forall n :: n in failed <==> n in sorted && byName[n].failed > 0
  {
    failed := [];
    for i := 0 to |sorted|
      invariant SortedNames(failed)
      invariant forall n :: n in failed <==> n in sorted[..i] && n in byName && byName[n].failed > 0
    {
      assert sorted[i] in sorted;
      PrefixStep(sorted, i);
      assert forall k :: 0 <= k < |failed| ==> failed[k] in sorted[..i];
      assert forall k :: 0 <= k < i ==> NameLe(sorted[k], sorted[i]) && sorted[k] != sorted[i];
      if byName[sorted[i]].failed > 0 {
        failed := failed + [sorted[i]];
      }
    }
    Whole(sorted);
  }

  method ReportJobs(failed: seq<string>, byName: map<string, Attempted>, ghost all: seq<Attempt>)
    returns (out: seq<JobFinding>)
    requires Tallied(byName, all) && forall n :: n in failed ==> n in byName
    ensures out == FindingsFor(failed, all)
  {
    out := [];
    for i := 0 to |failed|
      invariant |out| == i && forall k :: 0 <= k < i ==> out[k] == FindingOf(failed[k], all)
    {
      assert failed[i] in failed;
      var t := byName[failed[i]];
      out := out + [JobFinding(failed[i], JobRule(t.attempts, t.failed, t.succeeded, t.required), t.attempts, t.failed,
                               t.succeeded)];
    }
  }

  method JudgeJobs(candidates: seq<Pipeline>) returns (out: seq<JobFinding>)
    ensures out == JobFindings(AllAttempts(candidates))
  {
    ghost var all := AllAttempts(candidates);
    var byName, names := TallyJobs(candidates);
    SortStringsSound(names);
    var sorted := SortStrings(names);
    var failed := KeepFailed(sorted, byName);
    forall n ensures n in failed <==> n in FailedNames(all) { FailedMeans(all, byName, n); }
    SortedNamesUnique(failed, SortNames(FailedNames(all)));
    out := ReportJobs(failed, byName, all);
  }

  // ---- K1 ----

  method SelectPipelines(ps: seq<Pipeline>, sha: string) returns (malformed: bool, candidates: seq<Pipeline>)
    ensures malformed == !WellFormedAll(ps)
    ensures !malformed ==> candidates == SortById(PipelineId, Filter(CandidateTest(sha), ps))
  {
    malformed, candidates := false, [];
    for i := 0 to |ps|
      invariant WellFormedAll(ps[..i])
      invariant candidates == Filter(CandidateTest(sha), ps[..i])
    {
      var p := ps[i];
      assert p in ps;
      if p.id == 0 || p.sha == "" || p.source == NoSource || p.status == NoStatus {
        return true, [];
      }
      FilterStep(CandidateTest(sha), ps, i);
      PrefixStep(ps, i);
      if p.sha == sha && p.source != ParentPipeline {
        candidates := candidates + [p];
      }
    }
    Whole(ps);
    candidates := SortById(PipelineId, candidates);
  }

  method AllSettled(candidates: seq<Pipeline>) returns (ids: seq<int>, settled: bool)
    ensures ids == Ids(candidates) && settled == Settled(candidates)
  {
    ids, settled := [], |candidates| > 0;
    for i := 0 to |candidates|
      invariant ids == Ids(candidates[..i])
      invariant settled <==> |candidates| > 0 && forall k :: 0 <= k < i ==> SettledStatus(candidates[k].status)
    {
      ids := ids + [candidates[i].id];
      if !SettledStatus(candidates[i].status) {
        settled := false;
      }
    }
    Whole(candidates);
  }

  method CheckAttempts(candidates: seq<Pipeline>) returns (unread: bool, malformed: bool)
    ensures malformed <==> JobsMalformed(candidates)
    ensures !malformed ==> (unread <==> exists c :: c in candidates && !JobsListed(c))
  {
    unread, malformed := false, false;
    for i := 0 to |candidates|
      invariant unread <==> exists k :: 0 <= k < i && !JobsListed(candidates[k])
      invariant forall k :: 0 <= k < i ==> forall a :: a in candidates[k].jobs ==> WellFormedJob(a)
    {
      var c := candidates[i];
      assert c in candidates;
      if !c.jobsRead {
        unread := true;
      }
      if !c.includeRetried {
        unread := true;
      }
      for j := 0 to |c.jobs|
        invariant forall k :: 0 <= k < j ==> WellFormedJob(c.jobs[k])
      {
        var a := c.jobs[j];
        assert a in c.jobs;
        if a.id == 0 || a.name == "" || a.status == NoStatus {
          return unread, true;
        }
      }
    }
  }

  method AllSuccess(candidates: seq<Pipeline>) returns (b: bool)
    ensures b <==> !exists c :: c in candidates && c.status != Success
  {
    for i := 0 to |candidates|
      invariant forall k :: 0 <= k < i ==> candidates[k].status == Success
    {
      if candidates[i].status != Success {
        assert candidates[i] in candidates;
        return false;
      }
    }
    b := true;
  }

  method FindRule(rule: Rule, jobs: seq<JobFinding>) returns (found: bool)
    ensures found == Any(HasRule(rule), jobs)
  {
    for i := 0 to |jobs|
      invariant !Any(HasRule(rule), jobs[..i])
    {
      AnyStep(HasRule(rule), jobs, i);
      if jobs[i].rule == rule {
        AnyMembers(HasRule(rule), jobs);
        assert HasRule(rule)(jobs[i]) && jobs[i] in jobs;
        return true;
      }
    }
    Whole(jobs);
    return false;
  }

  // ---- the check ----

  method Judge(f: JudgeFacts, now: Time) returns (res: Result)
    ensures res == Answer(f, now)
  {
    var complete := RecordedFacts(f, now);
    if !complete {
      return Blank();
    }
    if f.mr.state == Merged {
      return Stopped(StateMerged, K0Merged);
    } else if f.mr.state == Closed {
      return Stopped(StateClosedUnmerged, K0Closed);
    } else if f.mr.state != Opened {
      return Blank();
    } else if f.mr.sha != f.change.changeCommitSHA {
      return Stopped(StateTakenOver, K0TakenOver);
    }
    var past := !(now < f.change.verifyDeadline);
    if !f.pipelines.read {
      res := JudgeAttempts(f.change, f.definition, past, Selection(false, false, []), [], [K1Unread]);
      return;
    }
    var malformed, candidates := SelectPipelines(f.pipelines.pipelines, f.change.changeCommitSHA);
    if malformed {
      return Blank();
    }
    var ids, settled := AllSettled(candidates);
    if !settled && !past {
      return Blank().(candidates := ids, decision := DecisionWait, state := StateVerifying, rule := K1Wait);
    }
    res := JudgeAttempts(f.change, f.definition, past, Selection(true, false, candidates), ids,
                         if settled then [] else [K1Timeout]);
  }

  /** Whether every recorded fact, and every fact of the merge request, is there. */
  method RecordedFacts(f: JudgeFacts, now: Time) returns (complete: bool)
    ensures complete == FactsComplete(f, now)
  {
    if !f.change.recorded {
      return false;
    }
    var ch := f.change;
    complete := now != ZERO_TIME && ch.baseSHA != "" && ch.changeCommitSHA != "" && ch.basePipelineID != 0
      && ch.mrIID != 0 && |ch.diffClasses| != 0;
    for i := 0 to |ch.diffClasses|
      invariant complete <==>
        && now != ZERO_TIME && ch.baseSHA != "" && ch.changeCommitSHA != "" && ch.basePipelineID != 0
        && ch.mrIID != 0 && |ch.diffClasses| != 0 && forall k :: 0 <= k < i ==> ch.diffClasses[k] != ""
    {
      complete := complete && ch.diffClasses[i] != "";
    }
    var wellFormed := IsWellFormed(ch.baseReport);
    complete := complete && wellFormed && !(|ch.addedGoTests| > 0 && !ch.goProfile);
    ghost var before := complete;
    for i := 0 to |ch.addedGoTests|
      invariant complete <==> before && forall k :: 0 <= k < i ==> ch.addedGoTests[k].name != ""
    {
      complete := complete && ch.addedGoTests[i].name != "";
    }
    complete := complete && ch.verifyDeadline != ZERO_TIME;
    if !f.mr.read {
      return false;
    }
    complete := complete && f.mr.iid == ch.mrIID && f.mr.sha != "";
    AllAt((c: string) => c != "", ch.diffClasses);
    AllAt((g: GoTest) => g.name != "", ch.addedGoTests);
  }

  /** K3: with every attempt known each job with a failed one is judged; otherwise nothing is said of any. */
  method JobsAndCauses(sel: Selection, complete: bool, causes: seq<Rule>)
    returns (jobs: seq<JobFinding>, unverifiable: seq<Rule>)
    requires complete == AttemptsKnown(sel)
    requires !sel.read ==> sel.candidates == []
    ensures jobs == JobsOf(sel) && unverifiable == causes + JobCauses(sel, jobs)
  {
    jobs, unverifiable := [], causes;
    ghost var first: seq<Rule> := [];
    if complete {
      jobs := JudgeJobs(sel.candidates);
      var attempts := FindRule(K3Attempts, jobs);
      if attempts {
        unverifiable := unverifiable + [K3Attempts];
        first := [K3Attempts];
      }
    } else if sel.read {
      unverifiable := unverifiable + [K3Unread];
      first := [K3Unread];
    }
    assert unverifiable == causes + first;
    var green := AllSuccess(sel.candidates);
    if !green {
      unverifiable := unverifiable + [K3Status];
    }
    JobCausesAre(sel, jobs, first, green);
  }

  lemma JobCausesAre(sel: Selection, jobs: seq<JobFinding>, first: seq<Rule>, green: bool)
    requires first ==
      if !sel.read then []
      else if !AttemptsKnown(sel) then [K3Unread]
      else if Any(HasRule(K3Attempts), jobs) then [K3Attempts] else []
    requires green <==> forall c :: c in sel.candidates ==> c.status == Success
    ensures JobCauses(sel, jobs) == first + if green then [] else [K3Status]
  {}

  /** K2: the worse of what the delta's kind and its lists say. */
  method FindDefinition(d: Delta) returns (c: Option<Rule>)
    ensures c == DefinitionFinding(d)
  {
    if d.kind == KindViolation { return Some(K2Violation); }
    if d.violations > 0 { return Some(K2Violation); }
    if d.kind == KindUnresolvable { return Some(K2Unresolvable); }
    if |d.unresolvable| > 0 { return Some(K2Unresolvable); }
    if d.kind != KindNone { return Some(K2Changed); }
    if d.changes > 0 { return Some(K2Changed); }
    return None;
  }

  /** K2 to K5; causes is what K1 could not establish. */
  method JudgeAttempts(ch: Change, d: DefinitionFacts, past: bool, sel: Selection, ids: seq<int>, causes: seq<Rule>)
    returns (res: Result)
    requires !sel.malformed && (!sel.read ==> sel.candidates == []) && ids == Ids(sel.candidates)
        && causes == SettleCauses(sel)
    ensures res == AttemptsAnswer(ch, d, sel, past)
  {
    res := Blank().(candidates := ids);
    var candidates, unread, complete, unverifiable := sel.candidates, !sel.read, sel.read, causes;
    var definitionSame := false;
    if !d.read || !KnownKind(d.delta.kind) {
      unread := true;
      unverifiable := unverifiable + [K2Unread];
    } else {
      var c := FindDefinition(d.delta);
      match c {
        case Some(r) => unverifiable := unverifiable + [r];
        case None => definitionSame := true;
      }
    }
    assert unverifiable == causes + DefinitionCauses(d);
    var jobsUnread, malformedJob := CheckAttempts(candidates);
    if malformedJob {
      return;
    }
    if jobsUnread {
      unread := true;
      complete := false;
    }
    var jobs;
    jobs, unverifiable := JobsAndCauses(sel, complete, unverifiable);
    var tests := JudgeTests(ch, candidates);
    res := res.(jobs := jobs, tests := tests);
    if !past && unread {
      return;
    }
    if !past && tests.finding == TestsUnknown {
      return res.(rule := K4Unknown);
    }
    if tests.finding == TestsUnknown {
      tests := tests.(rule := K4Unread);
    }
    var v, r := Verdict(jobs, unverifiable, tests, ch.requireTestReport);
    res := Result(DecisionVerdict, Some(v), StateFor(v), r, ids, definitionSame, jobs, tests);
  }

  /** K5: the first match. */
  method Verdict(jobs: seq<JobFinding>, unverifiable: seq<Rule>, tests: Tests, requireReport: bool)
    returns (v: Verdict, r: Rule)
    ensures (v, r) == Ladder(jobs, unverifiable, tests, requireReport)
  {
    var found := FindRule(K3Red, jobs);
    if found { return NOT_GREEN, K3Red; }
    if tests.finding == TestsNewNotRun { return TESTS_NOT_RUN, tests.rule; }
    found := FindRule(K3Flaky, jobs);
    if found { return FLAKY, K3Flaky; }
    if |unverifiable| > 0 { return UNVERIFIABLE, unverifiable[0]; }
    if tests.finding == TestsUnknown { return UNVERIFIABLE, tests.rule; }
    if tests.finding == TestsReduced { return UNVERIFIABLE, tests.rule; }
    if tests.finding == TestsFailed { return UNVERIFIABLE, tests.rule; }
    if tests.finding == TestsUnobserved {
      if requireReport { return UNVERIFIABLE, K5ReportRequired; }
      return GREEN_UNOBSERVED, K5Unobserved;
    }
    if tests.finding == TestsObserved { return GREEN, K5Green; }
    if tests.finding == NotApplicable { return GREEN, K5Green; }
    return UNVERIFIABLE, K5Unexplained;
  }
}
