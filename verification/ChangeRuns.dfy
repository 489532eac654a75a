/** A change's exit check over time, over retries, and over listing order. */
module ChangeRuns {
  import opened Basics
  import opened ChangeFacts
  import opened ChangeSpec
  import opened ChangeTheorems
  import opened Listing
  import opened Ordering

  // ---- the clock ----

  /** A verdict, once reached, and a stop, once seen, are the answer at every later time. */
  lemma VerdictStable(f: JudgeFacts, early: Time, late: Time)
    requires early <= late && late != ZERO_TIME
    requires Answer(f, early).decision in {DecisionVerdict, DecisionStopped}
    ensures Answer(f, late) == Answer(f, early)
  {
    OpenStable(f.change, f.definition, Select(f));
  }

  lemma OpenStable(ch: Change, d: DefinitionFacts, sel: Selection)
    ensures OpenAnswer(ch, d, sel, false).decision == DecisionVerdict ==>
      OpenAnswer(ch, d, sel, false) == OpenAnswer(ch, d, sel, true)
    ensures forall past :: OpenAnswer(ch, d, sel, past).decision != DecisionStopped
  {}

  /** From the deadline on, gonk's own open change with its recorded facts always gets a verdict,
      unless a listed object has no identity; without those facts there never is one. */
  lemma DeadlineDecides(f: JudgeFacts, now: Time)
    requires Past(f, now)
    ensures Answer(f, now).decision == DecisionVerdict <==>
      OwnOpenChange(f, now) && !Select(f).malformed && !JobsMalformed(Select(f).candidates)
  {
    OpenDeadline(f.change, f.definition, Select(f));
  }

  lemma OpenDeadline(ch: Change, d: DefinitionFacts, sel: Selection)
    ensures OpenAnswer(ch, d, sel, true).decision == DecisionVerdict <==>
        !sel.malformed && !JobsMalformed(sel.candidates)
  {}

  /** The deadline never turns a missing fact into a pass: what could not be decided before it is
      never green after it. */
  lemma DeadlineIsNotAPass(f: JudgeFacts, early: Time, late: Time)
    requires early != ZERO_TIME && !Past(f, early) && Past(f, late)
    requires Answer(f, early).decision != DecisionVerdict
    ensures Answer(f, late).verdict != Some(GREEN) && Answer(f, late).verdict != Some(GREEN_UNOBSERVED)
  {
    if Identity(f, late).None? {
      OpenNotAPass(f.change, f.definition, Select(f));
    }
  }

  lemma OpenNotAPass(ch: Change, d: DefinitionFacts, sel: Selection)
    requires OpenAnswer(ch, d, sel, false).decision != DecisionVerdict
    ensures OpenAnswer(ch, d, sel, true).verdict !in {Some(GREEN), Some(GREEN_UNOBSERVED)}
  {
    OpenGreen(ch, d, sel, true);
    FindingKinds(ch, sel.candidates);
    if GreenPipelinesAll(sel) && DefinitionSame(d) {
      assert Settled(sel.candidates) && AttemptsKnown(sel);
    }
  }

  // ---- retries ----

  /** q is p with some attempts left out. */
  ghost predicate FewerAttempts(p: Pipeline, q: Pipeline) {
    q == p.(jobs := q.jobs) && multiset(q.jobs) <= multiset(p.jobs)
  }

  function Listed(f: JudgeFacts, ps: seq<Pipeline>): JudgeFacts { f.(pipelines := f.pipelines.(pipelines := ps)) }

  /** The same reports, statuses and listing flags; possibly other jobs. */
  predicate SameButJobs(p: Pipeline, q: Pipeline) { q == p.(jobs := q.jobs) }

  lemma SelectionPointwise(r: (Pipeline, Pipeline) -> bool, f: JudgeFacts, qs: seq<Pipeline>)
    requires Pointwise(r, f.pipelines.pipelines, qs)
    requires forall p, q :: r(p, q) ==> SameButJobs(p, q)
    ensures Pointwise(r, Select(f).candidates, Select(Listed(f, qs)).candidates)
    ensures Select(Listed(f, qs)).malformed == Select(f).malformed
  {
    var ps, sha := f.pipelines.pipelines, f.change.changeCommitSHA;
    forall i | 0 <= i < |ps|
      ensures ps[i].id == qs[i].id && CandidateTest(sha)(ps[i]) == CandidateTest(sha)(qs[i])
      ensures WellFormedPipeline(ps[i]) == WellFormedPipeline(qs[i])
    {
      assert r(ps[i], qs[i]);
    }
    FilterPointwise(CandidateTest(sha), r, ps, qs);
    var a, b := Filter(CandidateTest(sha), ps), Filter(CandidateTest(sha), qs);
    forall i | 0 <= i < |a| ensures PipelineId(a[i]) == PipelineId(b[i]) { assert r(a[i], b[i]); }
    SortPointwise(PipelineId, r, a, b);
    AllAt(WellFormedPipeline, ps);
    AllAt(WellFormedPipeline, qs);
  }

  lemma {:induction false} GreenPointwise(r: (Pipeline, Pipeline) -> bool, cs: seq<Pipeline>, ds: seq<Pipeline>)
    requires Pointwise(r, cs, ds)
    requires forall p, q :: r(p, q) ==> SameButJobs(p, q)
    ensures Pointwise(r, GreenPipelines(cs), GreenPipelines(ds)) && Pointwise(r, Heads(cs), Heads(ds))
  {
    forall i | 0 <= i < |cs| ensures IsGreen(cs[i]) == IsGreen(ds[i]) { assert r(cs[i], ds[i]); }
    FilterPointwise(IsGreen, r, cs, ds);
    var a, b := GreenPipelines(cs), GreenPipelines(ds);
    forall i | 0 <= i < |a| ensures Reports(a[i]) == Reports(b[i]) { assert r(a[i], b[i]); }
    FilterPointwise(Reports, r, a, b);
  }

  lemma ReportsTransfer(cs: seq<Pipeline>, ds: seq<Pipeline>, holds: Pipeline -> bool)
    requires |cs| == |ds| && forall i :: 0 <= i < |cs| ==> holds(cs[i]) == holds(ds[i])
    ensures (forall c :: c in cs ==> holds(c)) <==> (forall d :: d in ds ==> holds(d))
  {
    AllAt(holds, cs);
    AllAt(holds, ds);
  }

  lemma SetsSame(base: Report, hs: seq<Pipeline>, ks: seq<Pipeline>)
    requires |hs| == |ks| && forall i :: 0 <= i < |hs| ==> hs[i].report == ks[i].report
    ensures Lost(base, hs) == Lost(base, ks)
    ensures NewlyFailing(base, hs) == NewlyFailing(base, ks)
    ensures NewPasses(base, hs) == NewPasses(base, ks)
  {
    SetsWithin(base, hs, ks);
    SetsWithin(base, ks, hs);
  }

  lemma SetsWithin(base: Report, hs: seq<Pipeline>, ks: seq<Pipeline>)
    requires |hs| == |ks| && forall i :: 0 <= i < |hs| ==> hs[i].report == ks[i].report
    ensures Lost(base, hs) <= Lost(base, ks)
    ensures NewlyFailing(base, hs) <= NewlyFailing(base, ks)
    ensures NewPasses(base, hs) <= NewPasses(base, ks)
  {
    forall id | id in Lost(base, hs) ensures id in Lost(base, ks) {
      var h :| h in hs && Passed(h.report)[id] < Passed(base)[id];
      var i :| 0 <= i < |hs| && hs[i] == h;
      assert ks[i] in ks;
    }
    forall id | id in NewlyFailing(base, hs) ensures id in NewlyFailing(base, ks) {
      var h :| h in hs && Failing(h.report)[id] > Failing(base)[id];
      var i :| 0 <= i < |hs| && hs[i] == h;
      assert ks[i] in ks;
    }
    forall id | id in NewPasses(base, hs) ensures id in NewPasses(base, ks) {
      var h :| h in hs && Passed(h.report)[id] > Passed(base)[id];
      var i :| 0 <= i < |hs| && hs[i] == h;
      assert ks[i] in ks;
    }
  }

  lemma RanSame(base: Report, hs: seq<Pipeline>, ks: seq<Pipeline>, added: seq<GoTest>)
    requires |hs| == |ks| && forall i :: 0 <= i < |hs| ==> hs[i].report == ks[i].report
    ensures NotRunGo(base, hs, added) == NotRunGo(base, ks, added)
  {
    forall g | g in added ensures RanGo(base, hs, g) == RanGo(base, ks, g) {
      RanWithin(base, hs, ks, g);
      RanWithin(base, ks, hs, g);
    }
  }

  lemma RanWithin(base: Report, hs: seq<Pipeline>, ks: seq<Pipeline>, g: GoTest)
    requires |hs| == |ks| && forall i :: 0 <= i < |hs| ==> hs[i].report == ks[i].report
    ensures RanGo(base, hs, g) ==> RanGo(base, ks, g)
  {
    if RanGo(base, hs, g) {
      var h :| h in hs && GoPasses(h.report, g) > GoPasses(base, g);
      var i :| 0 <= i < |hs| && hs[i] == h;
      assert ks[i] in ks;
    }
  }

  /** K4 reads reports and statuses only. */
  lemma TestsIgnoreJobs(r: (Pipeline, Pipeline) -> bool, ch: Change, cs: seq<Pipeline>, ds: seq<Pipeline>)
    requires Pointwise(r, cs, ds)
    requires forall p, q :: r(p, q) ==> SameButJobs(p, q)
    ensures JudgedTests(ch, cs) == JudgedTests(ch, ds)
  {
    GreenPointwise(r, cs, ds);
    var hs, ks := Heads(cs), Heads(ds);
    forall i | 0 <= i < |hs| ensures hs[i].report == ks[i].report { assert r(hs[i], ks[i]); }
    SetsSame(ch.baseReport, hs, ks);
    RanSame(ch.baseReport, hs, ks, ch.addedGoTests);
    UnreadSame(r, cs, ds);
  }

  predicate ReportFine(p: Pipeline) { p.status != Success || WellFormed(p.report) }

  lemma UnreadSame(r: (Pipeline, Pipeline) -> bool, cs: seq<Pipeline>, ds: seq<Pipeline>)
    requires Pointwise(r, cs, ds)
    requires forall p, q :: r(p, q) ==> SameButJobs(p, q)
    ensures ReportUnread(cs) == ReportUnread(ds)
  {
    forall i | 0 <= i < |cs| ensures ReportFine(cs[i]) == ReportFine(ds[i]) { assert r(cs[i], ds[i]); }
    ReportsTransfer(cs, ds, ReportFine);
    assert ReportUnread(cs) <==> !forall c :: c in cs ==> ReportFine(c);
    assert ReportUnread(ds) <==> !forall d :: d in ds ==> ReportFine(d);
  }

  /** A retry cannot launder a failure: if facts are green, so are the same facts with any of the
      attempts left out. Said the other way round: adding attempts never makes a change green. */
  lemma RetriesNeverLaunder(f: JudgeFacts, qs: seq<Pipeline>, now: Time)
    requires Pointwise(FewerAttempts, f.pipelines.pipelines, qs)
    requires Answer(f, now).verdict in {Some(GREEN), Some(GREEN_UNOBSERVED)}
    ensures Answer(Listed(f, qs), now).verdict == Answer(f, now).verdict
  {
    var g := Listed(f, qs);
    SelectionPointwise(FewerAttempts, f, qs);
    TestsIgnoreJobs(FewerAttempts, f.change, Select(f).candidates, Select(g).candidates);
    GreenExactly(f, now);
    GreenExactly(g, now);
    StillGreen(Select(f), Select(g));
  }

  lemma StillGreen(r: Selection, s: Selection)
    requires s.read == r.read && Pointwise(FewerAttempts, r.candidates, s.candidates) && GreenPipelinesAll(r)
    ensures GreenPipelinesAll(s)
  {
    forall d | d in s.candidates
      ensures d.status == Success && JobsListed(d)
          && forall a :: a in d.jobs ==> WellFormedJob(a) && Attempted(r.candidates, a)
    {
      var i :| 0 <= i < |s.candidates| && s.candidates[i] == d;
      var c := r.candidates[i];
      assert FewerAttempts(c, d) && c in r.candidates;
      forall a | a in d.jobs ensures a in c.jobs { assert a in multiset(d.jobs); }
    }
  }

  // ---- listing order ----

  /** Whatever order the merge request's pipelines are listed in, the whole answer is the same. */
  lemma PipelineOrderForgotten(f: JudgeFacts, qs: seq<Pipeline>, now: Time)
    requires multiset(f.pipelines.pipelines) == multiset(qs)
    requires DistinctIds(PipelineId, f.pipelines.pipelines)
    ensures Answer(Listed(f, qs), now) == Answer(f, now)
  {
    SelectForgetsOrder(PipelineId, CandidateTest(f.change.changeCommitSHA), f.pipelines.pipelines, qs);
    PermutedMembers(f.pipelines.pipelines, qs);
    assert Select(Listed(f, qs)) == Select(f);
  }

  ghost predicate Shuffled(p: Pipeline, q: Pipeline) {
    q == p.(jobs := q.jobs) && multiset(q.jobs) == multiset(p.jobs)
  }

  lemma {:induction false} AttemptsShuffled(cs: seq<Pipeline>, ds: seq<Pipeline>)
    requires Pointwise(Shuffled, cs, ds)
    ensures multiset(AllAttempts(cs)) == multiset(AllAttempts(ds))
  {
    if cs != [] {
      AttemptsShuffled(cs[..|cs| - 1], ds[..|ds| - 1]);
      assert Shuffled(cs[|cs| - 1], ds[|ds| - 1]);
    }
  }

  lemma FindingPermuted(n: string, s: seq<Attempt>, t: seq<Attempt>)
    requires multiset(s) == multiset(t)
    ensures FindingOf(n, s) == FindingOf(n, t)
  {
    CountPermuted(Named(n), s, t);
    CountPermuted(NamedFailed(n), s, t);
    CountPermuted(NamedSuccess(n), s, t);
    AnyPermuted(NamedRequired(n), s, t);
  }

  lemma FindingsPermuted(s: seq<Attempt>, t: seq<Attempt>)
    requires multiset(s) == multiset(t)
    ensures JobFindings(s) == JobFindings(t)
  {
    PermutedMembers(s, t);
    assert FailedNames(s) == FailedNames(t);
    var names := SortNames(FailedNames(s));
    forall i | 0 <= i < |names| ensures FindingOf(names[i], s) == FindingOf(names[i], t) {
      FindingPermuted(names[i], s, t);
    }
  }

  predicate JobsFine(p: Pipeline) { forall a :: a in p.jobs ==> WellFormedJob(a) }
  predicate Finished(p: Pipeline) { SettledStatus(p.status) }

  /** What the listing order of one pipeline's jobs cannot touch. */
  lemma ShuffledPair(p: Pipeline, q: Pipeline)
    requires Shuffled(p, q)
    ensures JobsFine(p) == JobsFine(q) && JobsListed(p) == JobsListed(q)
    ensures Finished(p) == Finished(q) && IsGreen(p) == IsGreen(q) && p.id == q.id
  {
    PermutedMembers(p.jobs, q.jobs);
  }

  lemma ShuffledEach(cs: seq<Pipeline>, ds: seq<Pipeline>, holds: Pipeline -> bool)
    requires Pointwise(Shuffled, cs, ds)
    requires forall p, q :: Shuffled(p, q) ==> holds(p) == holds(q)
    ensures (forall c :: c in cs ==> holds(c)) <==> (forall d :: d in ds ==> holds(d))
  {
    forall i | 0 <= i < |cs| ensures holds(cs[i]) == holds(ds[i]) { assert Shuffled(cs[i], ds[i]); }
    ReportsTransfer(cs, ds, holds);
  }

  lemma IdsShuffled(cs: seq<Pipeline>, ds: seq<Pipeline>)
    requires Pointwise(Shuffled, cs, ds)
    ensures Ids(cs) == Ids(ds)
  {
    forall i | 0 <= i < |cs| ensures Ids(cs)[i] == Ids(ds)[i] {
      assert Shuffled(cs[i], ds[i]);
    }
  }

  lemma StatusShuffled(cs: seq<Pipeline>, ds: seq<Pipeline>)
    requires Pointwise(Shuffled, cs, ds)
    ensures Settled(cs) == Settled(ds)
    ensures (exists c :: c in cs && c.status != Success) <==> (exists d :: d in ds && d.status != Success)
  {
    forall p, q | Shuffled(p, q) ensures Finished(p) == Finished(q) && IsGreen(p) == IsGreen(q) { ShuffledPair(p, q); }
    ShuffledEach(cs, ds, Finished);
    ShuffledEach(cs, ds, IsGreen);
    StatusMeans(cs);
    StatusMeans(ds);
  }

  lemma ListedShuffled(cs: seq<Pipeline>, ds: seq<Pipeline>)
    requires Pointwise(Shuffled, cs, ds)
    ensures (forall c :: c in cs ==> JobsListed(c)) <==> (forall d :: d in ds ==> JobsListed(d))
  {
    forall p, q | Shuffled(p, q) ensures JobsListed(p) == JobsListed(q) { ShuffledPair(p, q); }
    ShuffledEach(cs, ds, JobsListed);
  }

  lemma MalformedShuffled(cs: seq<Pipeline>, ds: seq<Pipeline>)
    requires Pointwise(Shuffled, cs, ds)
    ensures JobsMalformed(cs) == JobsMalformed(ds)
  {
    forall p, q | Shuffled(p, q) ensures JobsFine(p) == JobsFine(q) { ShuffledPair(p, q); }
    ShuffledEach(cs, ds, JobsFine);
    MalformedMeans(cs);
    MalformedMeans(ds);
  }

  lemma StatusMeans(cs: seq<Pipeline>)
    ensures Settled(cs) <==> cs != [] && forall c :: c in cs ==> Finished(c)
    ensures (exists c :: c in cs && c.status != Success) <==> !forall c :: c in cs ==> IsGreen(c)
  {}

  lemma MalformedMeans(cs: seq<Pipeline>)
    ensures JobsMalformed(cs) <==> !forall c :: c in cs ==> JobsFine(c)
  {}

  /** Whatever order the jobs of each pipeline are listed in, the whole answer is the same. */
  lemma JobOrderForgotten(f: JudgeFacts, qs: seq<Pipeline>, now: Time)
    requires Pointwise(Shuffled, f.pipelines.pipelines, qs)
    ensures Answer(Listed(f, qs), now) == Answer(f, now)
  {
    SelectionPointwise(Shuffled, f, qs);
    OpenShuffled(f.change, f.definition, Select(f), Select(Listed(f, qs)), Past(f, now));
  }

  lemma OpenShuffled(ch: Change, d: DefinitionFacts, r: Selection, s: Selection, past: bool)
    requires s.read == r.read && s.malformed == r.malformed && Pointwise(Shuffled, r.candidates, s.candidates)
    ensures OpenAnswer(ch, d, r, past) == OpenAnswer(ch, d, s, past)
  {
    MalformedShuffled(r.candidates, s.candidates);
    IdsShuffled(r.candidates, s.candidates);
    JobsShuffled(r, s);
    TestsIgnoreJobs(Shuffled, ch, r.candidates, s.candidates);
    StatusShuffled(r.candidates, s.candidates);
    SameDecided(ch, d, r, s);
    SameOpen(ch, d, r, s, past);
  }

  lemma JobsShuffled(r: Selection, s: Selection)
    requires s.read == r.read && Pointwise(Shuffled, r.candidates, s.candidates)
    ensures AttemptsKnown(r) == AttemptsKnown(s) && JobsOf(r) == JobsOf(s)
  {
    ListedShuffled(r.candidates, s.candidates);
    AttemptsShuffled(r.candidates, s.candidates);
    FindingsPermuted(AllAttempts(r.candidates), AllAttempts(s.candidates));
  }

  lemma SameDecided(ch: Change, d: DefinitionFacts, r: Selection, s: Selection)
    requires JobsOf(r) == JobsOf(s) && JudgedTests(ch, r.candidates) == JudgedTests(ch, s.candidates)
    requires Ids(r.candidates) == Ids(s.candidates) && r.read == s.read && AttemptsKnown(r) == AttemptsKnown(s)
    requires Settled(r.candidates) == Settled(s.candidates)
    requires (exists c :: c in r.candidates && c.status != Success) <==>
        (exists c :: c in s.candidates && c.status != Success)
    ensures Decided(ch, d, r) == Decided(ch, d, s)
  {
    assert Causes(d, r, JobsOf(r)) == Causes(d, s, JobsOf(s));
  }

  lemma SameOpen(ch: Change, d: DefinitionFacts, r: Selection, s: Selection, past: bool)
    requires s.read == r.read && s.malformed == r.malformed
    requires JobsMalformed(r.candidates) == JobsMalformed(s.candidates)
    requires JobsOf(r) == JobsOf(s) && JudgedTests(ch, r.candidates) == JudgedTests(ch, s.candidates)
    requires Ids(r.candidates) == Ids(s.candidates) && AttemptsKnown(r) == AttemptsKnown(s)
    requires Settled(r.candidates) == Settled(s.candidates)
    requires Decided(ch, d, r) == Decided(ch, d, s)
    ensures OpenAnswer(ch, d, r, past) == OpenAnswer(ch, d, s, past)
  {
    assert AttemptsAnswer(ch, d, r, past) == AttemptsAnswer(ch, d, s, past);
  }
}
