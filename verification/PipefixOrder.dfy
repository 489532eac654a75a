/** The exit check of a pipeline fix does not depend on the order GitLab lists things in. */
module PipefixOrder {
  import opened Basics
  import opened PipefixFacts
  import opened PipefixSpec
  import opened Listing
  import opened Ordering
  import Judging = PipefixJudge

  // ---- the order of the pipelines ----

  lemma {:induction false} InsertIds(p: Pipeline, ps: seq<Pipeline>)
    ensures Ids(Insert(PipelineId, p, ps)) == Insert(IntId, p.id, Ids(ps))
  {
    if ps != [] && ps[0].id <= p.id {
      InsertIds(p, ps[1..]);
      assert Ids(ps)[1..] == Ids(ps[1..]);
    }
  }

  /** Sorting the ids is sorting the pipelines. */
  lemma {:induction false} SortIds(ps: seq<Pipeline>)
    ensures SortById(IntId, Ids(ps)) == Ids(SortById(PipelineId, ps))
  {
    if ps != [] {
      var front := ps[..|ps| - 1];
      assert Ids(ps)[..|ps| - 1] == Ids(front);
      SortIds(front);
      InsertIds(ps[|ps| - 1], SortById(PipelineId, front));
    }
  }

  lemma SelectionForgetsOrder(keep: Pipeline -> bool, ps: seq<Pipeline>, qs: seq<Pipeline>)
    requires multiset(ps) == multiset(qs) && DistinctIds(PipelineId, ps)
    ensures SortById(PipelineId, Filter(keep, ps)) == SortById(PipelineId, Filter(keep, qs))
    ensures SortById(IntId, Ids(Filter(keep, ps))) == SortById(IntId, Ids(Filter(keep, qs)))
  {
    SelectForgetsOrder(PipelineId, keep, ps, qs);
    SortIds(Filter(keep, ps));
    SortIds(Filter(keep, qs));
  }

  function Listed(f: JudgeFacts, ps: seq<Pipeline>): JudgeFacts {
    f.(pipelines := f.pipelines.(pipelines := ps))
  }

  /** Whatever order the merge request's pipelines are listed in, the whole answer is the same. */
  lemma PipelineOrderForgotten(f: JudgeFacts, qs: seq<Pipeline>, now: Time)
    requires multiset(f.pipelines.pipelines) == multiset(qs)
    requires DistinctIds(PipelineId, f.pipelines.pipelines)
    ensures Answer(Listed(f, qs), now) == Answer(f, now)
  {
    SelectionSame(f, qs);
  }

  lemma SelectionSame(f: JudgeFacts, qs: seq<Pipeline>)
    requires multiset(f.pipelines.pipelines) == multiset(qs)
    requires DistinctIds(PipelineId, f.pipelines.pipelines)
    ensures Select(Listed(f, qs)) == Select(f)
  {
    var ps, sha, mr := f.pipelines.pipelines, f.fix.fixCommitSHA, f.fix.mrIID;
    SelectionForgetsOrder(CandidateTest(sha), ps, qs);
    SelectionForgetsOrder(SkippedTest(sha), ps, qs);
    SelectionForgetsOrder(MergedTest(sha, mr), ps, qs);
    PermutedMembers(ps, qs);
  }

  // ---- the order of the jobs inside a pipeline ----

  function AttemptId(a: Attempt): int { a.id }

  /** q lists the jobs of p, in another order. */
  ghost predicate Shuffled(p: Pipeline, q: Pipeline) {
    && q == p.(jobs := q.jobs)
    && multiset(q.jobs) == multiset(p.jobs)
    && DistinctIds(AttemptId, p.jobs)
  }

  ghost predicate AllShuffled(ps: seq<Pipeline>, qs: seq<Pipeline>) { Pointwise(Shuffled, ps, qs) }

  lemma TestsAreBlind(sha: string, mrIID: int, p: Pipeline, q: Pipeline)
    requires Shuffled(p, q)
    ensures CandidateTest(sha)(p) == CandidateTest(sha)(q) && SkippedTest(sha)(p) == SkippedTest(sha)(q)
    ensures MergedTest(sha, mrIID)(p) == MergedTest(sha, mrIID)(q)
  {
    PermutedMembers(p.jobs, q.jobs);
  }

  lemma ShuffledIds(ps: seq<Pipeline>, qs: seq<Pipeline>)
    requires AllShuffled(ps, qs)
    ensures Ids(ps) == Ids(qs)
  {
    forall i | 0 <= i < |ps| ensures Ids(ps)[i] == Ids(qs)[i] { assert Shuffled(ps[i], qs[i]); }
  }

  /** Two selections whose candidates correspond one to one, jobs shuffled. */
  ghost predicate SelectionShuffled(r: Selection, s: Selection) {
    AllShuffled(r.candidates, s.candidates) && s == r.(candidates := s.candidates)
  }

  lemma ListsShuffled(f: JudgeFacts, qs: seq<Pipeline>)
    requires AllShuffled(f.pipelines.pipelines, qs)
    ensures SelectionShuffled(Select(f), Select(Listed(f, qs)))
  {
    var ps, sha, mr := f.pipelines.pipelines, f.fix.fixCommitSHA, f.fix.mrIID;
    forall i | 0 <= i < |ps|
      ensures CandidateTest(sha)(ps[i]) == CandidateTest(sha)(qs[i])
          && SkippedTest(sha)(ps[i]) == SkippedTest(sha)(qs[i])
      ensures MergedTest(sha, mr)(ps[i]) == MergedTest(sha, mr)(qs[i])
    {
      TestsAreBlind(sha, mr, ps[i], qs[i]);
    }
    FilterPointwise(CandidateTest(sha), Shuffled, ps, qs);
    FilterPointwise(SkippedTest(sha), Shuffled, ps, qs);
    FilterPointwise(MergedTest(sha, mr), Shuffled, ps, qs);
    SortPointwise(PipelineId, Shuffled, Filter(CandidateTest(sha), ps), Filter(CandidateTest(sha), qs));
    ShuffledIds(Filter(SkippedTest(sha), ps), Filter(SkippedTest(sha), qs));
    ShuffledIds(Filter(MergedTest(sha, mr), ps), Filter(MergedTest(sha, mr), qs));
    MalformedShuffled(ps, qs);
  }

  // ---- J3 on shuffled jobs ----

  lemma {:induction false} AttemptsShuffled(name: string, cs: seq<Pipeline>, ds: seq<Pipeline>)
    requires AllShuffled(cs, ds)
    ensures multiset(AttemptsOf(name, cs)) == multiset(AttemptsOf(name, ds))
  {
    if cs != [] {
      AttemptsShuffled(name, cs[..|cs| - 1], ds[..|ds| - 1]);
      assert Shuffled(cs[|cs| - 1], ds[|ds| - 1]);
      FilterPermuted(NamedTest(name), cs[|cs| - 1].jobs, ds[|ds| - 1].jobs);
    }
  }

  /** Findings but for the signature carried for display. */
  function Unsigned(j: JobFinding): JobFinding { j.(newSignature := "") }

  function UnsignedAll(js: seq<JobFinding>): (r: seq<JobFinding>)
    ensures |r| == |js| && forall i :: 0 <= i < |js| ==> r[i] == Unsigned(js[i])
  {
    seq(|js|, i requires 0 <= i < |js| => Unsigned(js[i]))
  }

  lemma FindingPermuted(t: Target, s: seq<Attempt>, u: seq<Attempt>, complete: bool, sameVersions: bool)
    requires multiset(s) == multiset(u)
    ensures Unsigned(FindingOf(t, s, complete, sameVersions)) == Unsigned(FindingOf(t, u, complete, sameVersions))
  {
    PermutedMembers(s, u);
    CountPermuted(IsFailed, s, u);
    CountPermuted(IsSuccess, s, u);
    AnyPermuted(IsAllowed, s, u);
    AnyPermuted(FailureTest(t, sameVersions, SameFailure), s, u);
    AnyPermuted(FailureTest(t, sameVersions, Unread), s, u);
    AnyPermuted(FailureTest(t, sameVersions, Incomparable), s, u);
  }

  lemma {:induction false} FindingsShuffled(ts: seq<Target>, cs: seq<Pipeline>, ds: seq<Pipeline>, complete: bool,
                                            sameVersions: bool)
    requires AllShuffled(cs, ds)
    ensures UnsignedAll(FindingsOf(ts, cs, complete, sameVersions)) ==
        UnsignedAll(FindingsOf(ts, ds, complete, sameVersions))
  {
    if ts != [] {
      var t := ts[|ts| - 1];
      var a, b := FindingsOf(ts[..|ts| - 1], cs, complete, sameVersions),
        FindingsOf(ts[..|ts| - 1], ds, complete, sameVersions);
      FindingsShuffled(ts[..|ts| - 1], cs, ds, complete, sameVersions);
      AttemptsShuffled(t.Name(), cs, ds);
      var x := FindingOf(t, AttemptsOf(t.Name(), cs), complete, sameVersions);
      var y := FindingOf(t, AttemptsOf(t.Name(), ds), complete, sameVersions);
      FindingPermuted(t, AttemptsOf(t.Name(), cs), AttemptsOf(t.Name(), ds), complete, sameVersions);
      UnsignedSnoc(a, x);
      UnsignedSnoc(b, y);
    }
  }

  lemma UnsignedSnoc(js: seq<JobFinding>, j: JobFinding)
    ensures UnsignedAll(js + [j]) == UnsignedAll(js) + [Unsigned(j)]
  {}

  lemma GiveUpUnsigned(js: seq<JobFinding>, ks: seq<JobFinding>)
    requires UnsignedAll(js) == UnsignedAll(ks)
    ensures UnsignedAll(GiveUpAll(js)) == UnsignedAll(GiveUpAll(ks))
    ensures Any(IsUnknown, js) == Any(IsUnknown, ks)
  {
    SameUnsigned(js, ks);
    SameUnknown(js, ks);
  }

  lemma SameUnsigned(js: seq<JobFinding>, ks: seq<JobFinding>)
    requires UnsignedAll(js) == UnsignedAll(ks)
    ensures |js| == |ks| && forall i :: 0 <= i < |js| ==> js[i].rule == ks[i].rule
    ensures UnsignedAll(GiveUpAll(js)) == UnsignedAll(GiveUpAll(ks))
  {
    assert |UnsignedAll(js)| == |js| && |UnsignedAll(ks)| == |ks|;
    forall i | 0 <= i < |js|
      ensures Unsigned(GiveUp(js[i])) == Unsigned(GiveUp(ks[i])) && js[i].rule == ks[i].rule
    {
      assert UnsignedAll(js)[i] == UnsignedAll(ks)[i];
    }
  }

  lemma SameUnknown(js: seq<JobFinding>, ks: seq<JobFinding>)
    requires |js| == |ks| && forall i :: 0 <= i < |js| ==> js[i].rule == ks[i].rule
    ensures Any(IsUnknown, js) == Any(IsUnknown, ks)
  {
    AnyMembers(IsUnknown, js);
    AnyMembers(IsUnknown, ks);
    if x :| x in js && IsUnknown(x) { var i :| 0 <= i < |js| && js[i] == x; assert ks[i] in ks && IsUnknown(ks[i]); }
    if x :| x in ks && IsUnknown(x) { var i :| 0 <= i < |ks| && ks[i] == x; assert js[i] in js && IsUnknown(js[i]); }
  }

  // ---- J4 on shuffled jobs ----

  lemma DistinctAttempt(jobs: seq<Attempt>, a: Attempt, b: Attempt)
    requires DistinctIds(AttemptId, jobs) && a in jobs && b in jobs && a.id == b.id
    ensures a == b
  {
    var i :| 0 <= i < |jobs| && jobs[i] == a;
    var j :| 0 <= j < |jobs| && jobs[j] == b;
    assert AttemptId(jobs[i]) == AttemptId(jobs[j]);
    assert i == j;
  }

  lemma LatestShuffled(p: Pipeline, q: Pipeline, name: string)
    requires Shuffled(p, q)
    ensures Latest(p.jobs, name) == Latest(q.jobs, name)
  {
    Judging.LatestIsListed(p.jobs, name);
    Judging.LatestIsListed(q.jobs, name);
    PermutedMembers(p.jobs, q.jobs);
    if Latest(p.jobs, name).Some? {
      DistinctAttempt(p.jobs, Latest(p.jobs, name).value, Latest(q.jobs, name).value);
    }
  }

  lemma {:induction false} FirstsShuffled(cs: seq<Pipeline>, ds: seq<Pipeline>, name: string)
    requires AllShuffled(cs, ds)
    ensures FirstFailing(cs, name) == FirstFailing(ds, name)
    ensures FirstRequired(cs, name) == FirstRequired(ds, name)
  {
    if cs != [] {
      FirstsShuffled(cs[..|cs| - 1], ds[..|ds| - 1], name);
      assert Shuffled(cs[|cs| - 1], ds[|ds| - 1]);
      LatestShuffled(cs[|cs| - 1], ds[|ds| - 1], name);
    }
  }

  lemma FailingNamesKept(fix: FixFacts, cs: seq<Pipeline>, ds: seq<Pipeline>)
    requires |cs| == |ds|
    requires forall i :: 0 <= i < |cs| ==> Shuffled(cs[i], ds[i]) || Shuffled(ds[i], cs[i])
    ensures FailingNames(fix, cs) <= FailingNames(fix, ds)
  {
    forall n | n in FailingNames(fix, cs) ensures n in FailingNames(fix, ds) {
      var c, a :| c in cs && a in c.jobs && !Diagnosed(fix, a.name) && LatestFails(c, a.name) && a.name == n;
      var i :| 0 <= i < |cs| && cs[i] == c;
      var d := ds[i];
      if Shuffled(c, d) { LatestShuffled(c, d, n); PermutedMembers(c.jobs, d.jobs); }
      else { LatestShuffled(d, c, n); PermutedMembers(d.jobs, c.jobs); }
      assert d in ds && a in d.jobs && LatestFails(d, a.name);
    }
  }

  lemma OthersShuffled(fix: FixFacts, cs: seq<Pipeline>, ds: seq<Pipeline>)
    requires AllShuffled(cs, ds)
    ensures OtherFindings(fix, cs) == OtherFindings(fix, ds)
  {
    FailingNamesKept(fix, cs, ds);
    FailingNamesKept(fix, ds, cs);
    assert FailingNames(fix, cs) == FailingNames(fix, ds);
    var names := SortNames(FailingNames(fix, cs));
    forall i | 0 <= i < |names| ensures OtherOf(fix.baseJobs, cs, names[i]) == OtherOf(fix.baseJobs, ds, names[i]) {
      FirstsShuffled(cs, ds, names[i]);
    }
  }

  // ---- J5 ----

  lemma {:induction false} FirstRuleUnsigned(wanted: set<Rule>, js: seq<JobFinding>, ks: seq<JobFinding>)
    requires UnsignedAll(js) == UnsignedAll(ks)
    ensures FirstRule(RuleOfJob, wanted, js) == FirstRule(RuleOfJob, wanted, ks)
    ensures FirstUnobserved(js) == FirstUnobserved(ks)
    decreases |js|
  {
    assert |UnsignedAll(js)| == |js| && |UnsignedAll(ks)| == |ks|;
    if js != [] {
      assert UnsignedAll(js)[0] == UnsignedAll(ks)[0];
      assert UnsignedAll(js)[1..] == UnsignedAll(js[1..]) && UnsignedAll(ks)[1..] == UnsignedAll(ks[1..]);
      FirstRuleUnsigned(wanted, js[1..], ks[1..]);
    }
  }

  lemma LadderUnsigned(forged: Option<Rule>, causes: seq<Rule>, js: seq<JobFinding>, ks: seq<JobFinding>,
                       others: seq<OtherFinding>, cs: seq<Pipeline>, ds: seq<Pipeline>)
    requires UnsignedAll(js) == UnsignedAll(ks)
    requires (exists c :: c in cs && c.status != Success) <==> (exists d :: d in ds && d.status != Success)
    ensures Ladder(forged, causes, js, others, cs) == Ladder(forged, causes, ks, others, ds)
  {
    FirstRuleUnsigned({J3Weakened}, js, ks);
    FirstRuleUnsigned({J3Recurs}, js, ks);
    FirstRuleUnsigned({J3FlakySame, J3FlakyChanged}, js, ks);
    FirstRuleUnsigned({J3Changed}, js, ks);
  }

  /** The answer but for the signatures its findings carry for display. */
  function WithoutSignatures(r: Result): Result { r.(jobs := UnsignedAll(r.jobs)) }

  lemma SameSome(cs: seq<Pipeline>, ds: seq<Pipeline>, holds: Pipeline -> bool)
    requires |cs| == |ds| && forall i :: 0 <= i < |cs| ==> holds(cs[i]) == holds(ds[i])
    ensures (exists c :: c in cs && holds(c)) <==> (exists d :: d in ds && holds(d))
  {
    if c :| c in cs && holds(c) { var i :| 0 <= i < |cs| && cs[i] == c; assert ds[i] in ds; }
    if d :| d in ds && holds(d) { var i :| 0 <= i < |ds| && ds[i] == d; assert cs[i] in cs; }
  }

  predicate BadJob(p: Pipeline) { exists a :: a in p.jobs && !WellFormedJob(a) }
  predicate Unsettled(p: Pipeline) { !SettledPipeline(p) }
  predicate Unlisted(p: Pipeline) { !JobsListed(p) }
  predicate NotGreen(p: Pipeline) { p.status != Success }
  predicate Malformed(p: Pipeline) { !WellFormedPipeline(p) }

  lemma OneShuffled(p: Pipeline, q: Pipeline)
    requires Shuffled(p, q)
    ensures BadJob(p) == BadJob(q) && Unsettled(p) == Unsettled(q) && Unlisted(p) == Unlisted(q)
    ensures NotGreen(p) == NotGreen(q) && Malformed(p) == Malformed(q)
  {
    PermutedMembers(p.jobs, q.jobs);
  }

  lemma StatusShuffled(cs: seq<Pipeline>, ds: seq<Pipeline>)
    requires AllShuffled(cs, ds)
    ensures Settled(cs) <==> Settled(ds)
    ensures JobsMalformed(cs) <==> JobsMalformed(ds)
    ensures (exists c :: c in cs && Unlisted(c)) <==> (exists d :: d in ds && Unlisted(d))
    ensures (exists c :: c in cs && NotGreen(c)) <==> (exists d :: d in ds && NotGreen(d))
    ensures (exists c :: c in cs && Malformed(c)) <==> (exists d :: d in ds && Malformed(d))
  {
    forall i | 0 <= i < |cs|
      ensures BadJob(cs[i]) == BadJob(ds[i]) && Unsettled(cs[i]) == Unsettled(ds[i])
          && Unlisted(cs[i]) == Unlisted(ds[i])
      ensures NotGreen(cs[i]) == NotGreen(ds[i]) && Malformed(cs[i]) == Malformed(ds[i])
    {
      OneShuffled(cs[i], ds[i]);
    }
    SameSome(cs, ds, BadJob);
    SameSome(cs, ds, Unsettled);
    SameSome(cs, ds, Unlisted);
    SameSome(cs, ds, NotGreen);
    SameSome(cs, ds, Malformed);
    SettledMeans(cs);
    SettledMeans(ds);
  }

  lemma SettledMeans(cs: seq<Pipeline>)
    ensures Settled(cs) <==> cs != [] && !(exists c :: c in cs && Unsettled(c))
    ensures JobsMalformed(cs) <==> exists c :: c in cs && BadJob(c)
  {
    if JobsMalformed(cs) {
      var c :| c in cs && exists a :: a in c.jobs && !WellFormedJob(a);
      assert BadJob(c);
    }
  }

  lemma MalformedShuffled(ps: seq<Pipeline>, qs: seq<Pipeline>)
    requires AllShuffled(ps, qs)
    ensures WellFormedAll(ps) <==> WellFormedAll(qs)
  {
    StatusShuffled(ps, qs);
    MalformedMeans(ps);
    MalformedMeans(qs);
  }

  lemma MalformedMeans(ps: seq<Pipeline>)
    ensures WellFormedAll(ps) <==> !exists p :: p in ps && Malformed(p)
  {}

  lemma KnownShuffled(r: Selection, s: Selection)
    requires SelectionShuffled(r, s)
    ensures AttemptsKnown(r) == AttemptsKnown(s)
  {
    StatusShuffled(r.candidates, s.candidates);
    assert AttemptsKnown(r) <==> r.read && !(exists c :: c in r.candidates && Unlisted(c));
    assert AttemptsKnown(s) <==> s.read && !(exists c :: c in s.candidates && Unlisted(c));
  }

  lemma NotGreenMeans(cs: seq<Pipeline>)
    ensures (exists c :: c in cs && NotGreen(c)) <==> exists c :: c in cs && c.status != Success
  {
    if c :| c in cs && c.status != Success { assert NotGreen(c); }
  }

  lemma UnsignedLength(js: seq<JobFinding>, ks: seq<JobFinding>)
    requires UnsignedAll(js) == UnsignedAll(ks)
    ensures |js| == |ks|
  {
    assert |UnsignedAll(js)| == |js| && |UnsignedAll(ks)| == |ks|;
  }

  /** Whatever order the jobs of each pipeline are listed in, the answer is the same, but for the
      signature a changed failure carries for display (it is that of the first one listed). */
  lemma JobOrderForgotten(f: JudgeFacts, qs: seq<Pipeline>, now: Time)
    requires AllShuffled(f.pipelines.pipelines, qs)
    ensures WithoutSignatures(Answer(f, now)) == WithoutSignatures(Answer(Listed(f, qs), now))
  {
    IdentityListed(f, qs, now);
    if Identity(f, now).None? {
      ListsShuffled(f, qs);
      OpenShuffled(f.fix, f.definition, Select(f), Select(Listed(f, qs)), Past(f, now));
    }
  }

  lemma IdentityListed(f: JudgeFacts, qs: seq<Pipeline>, now: Time)
    ensures Identity(Listed(f, qs), now) == Identity(f, now) && Past(Listed(f, qs), now) == Past(f, now)
  {}

  lemma OpenShuffled(fix: FixFacts, d: DefinitionFacts, r: Selection, s: Selection, past: bool)
    requires SelectionShuffled(r, s)
    ensures WithoutSignatures(OpenAnswer(fix, d, r, past)) == WithoutSignatures(OpenAnswer(fix, d, s, past))
  {
    StatusShuffled(r.candidates, s.candidates);
    ShuffledIds(r.candidates, s.candidates);
    AttemptsAnswerShuffled(fix, d, r, s, past);
  }

  lemma JobsShuffled(fix: FixFacts, r: Selection, s: Selection)
    requires SelectionShuffled(r, s)
    ensures |RawJobs(fix, r)| == |RawJobs(fix, s)| && UnsignedAll(RawJobs(fix, r)) == UnsignedAll(RawJobs(fix, s))
    ensures UnsignedAll(JobFindings(fix, r)) == UnsignedAll(JobFindings(fix, s))
    ensures TraceUnread(fix, r) == TraceUnread(fix, s)
  {
    KnownShuffled(r, s);
    FindingsShuffled(fix.targets, r.candidates, s.candidates, AttemptsKnown(r), SameVersions(fix));
    GiveUpUnsigned(RawJobs(fix, r), RawJobs(fix, s));
    UnsignedLength(RawJobs(fix, r), RawJobs(fix, s));
  }

  lemma AttemptsAnswerShuffled(fix: FixFacts, d: DefinitionFacts, r: Selection, s: Selection, past: bool)
    requires SelectionShuffled(r, s)
    ensures WithoutSignatures(AttemptsAnswer(fix, d, r, past)) == WithoutSignatures(AttemptsAnswer(fix, d, s, past))
  {
    StatusShuffled(r.candidates, s.candidates);
    ShuffledIds(r.candidates, s.candidates);
    KnownShuffled(r, s);
    JobsShuffled(fix, r, s);
    DecidedShuffled(fix, d, r, s);
    if JobsMalformed(r.candidates) {
      BothCannotJudge(r, s, RuleFacts, [], []);
    } else if !past && FactUnread(d, r) {
      BothCannotJudge(r, s, RuleFacts, RawJobs(fix, r), RawJobs(fix, s));
    } else if !past && TraceUnread(fix, r) {
      BothCannotJudge(r, s, J3Unknown, RawJobs(fix, r), RawJobs(fix, s));
    }
  }

  lemma BothCannotJudge(r: Selection, s: Selection, rule: Rule, js: seq<JobFinding>, ks: seq<JobFinding>)
    requires Ids(r.candidates) == Ids(s.candidates) && r.skipped == s.skipped && r.merged == s.merged
    requires |js| == |ks| && UnsignedAll(js) == UnsignedAll(ks)
    ensures WithoutSignatures(CannotJudge(r, rule, js)) == WithoutSignatures(CannotJudge(s, rule, ks))
  {}

  lemma DecidedShuffled(fix: FixFacts, d: DefinitionFacts, r: Selection, s: Selection)
    requires SelectionShuffled(r, s)
    requires UnsignedAll(JobFindings(fix, r)) == UnsignedAll(JobFindings(fix, s))
    ensures WithoutSignatures(Decided(fix, d, r)) == WithoutSignatures(Decided(fix, d, s))
  {
    var cs, ds := r.candidates, s.candidates;
    StatusShuffled(cs, ds);
    ShuffledIds(cs, ds);
    OthersShuffled(fix, cs, ds);
    LaddersShuffled(Forgery(fix, d), Causes(fix, d, r), JobFindings(fix, r), JobFindings(fix, s),
                    OtherFindings(fix, cs), cs, ds);
    UnsignedLength(JobFindings(fix, r), JobFindings(fix, s));
  }

  lemma LaddersShuffled(forged: Option<Rule>, causes: seq<Rule>, js: seq<JobFinding>, ks: seq<JobFinding>,
                        others: seq<OtherFinding>, cs: seq<Pipeline>, ds: seq<Pipeline>)
    requires UnsignedAll(js) == UnsignedAll(ks) && AllShuffled(cs, ds)
    ensures Ladder(forged, causes, js, others, cs) == Ladder(forged, causes, ks, others, ds)
  {
    StatusShuffled(cs, ds);
    NotGreenMeans(cs);
    NotGreenMeans(ds);
    LadderUnsigned(forged, causes, js, ks, others, cs, ds);
  }
}
