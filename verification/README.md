# gonk, verified

Models of the parts of gonk whose mistakes are expensive, with proofs that hold for every input, every
run and every interleaving. `dafny verify dfyconfig.toml` checks all of it.

**The exit checks.** When gonk has put a fix or a change up as a merge request, an exit check decides
from what GitLab listed, and from one reading of the clock, whether it worked. `PipefixSpec` and
`ChangeSpec` say what the answer is, step by step; `PipefixJudge` and `ChangeJudge` are the checks as
written, with their loops, tables and early returns, proved to give that answer. `PipefixTheorems`,
`PipefixVerdicts`, `PipefixOrder`, `ChangeTheorems`, `ChangeVerdicts` and `ChangeRuns` say what the
answer means: each verdict exactly when its evidence is there, nothing decided on partial facts, nothing
undone by the clock, by a retry, or by the order of a listing.

**The fix protocol.** Sweeps that look, exit checks that settle, re-slings, unparks, and the dispatch
processes their orders start (each reserving, starting a session, recording it, or giving up) all write
one record, each at its own pace, while the runtime's jobs are made, found, stopped and removed.
`FixProtocol` is the machine of their steps over the record's store (a write lands when the record is still
at the revision its writer read), `FixProtocolSafety`, `FixProtocolSteps` and `FixProtocolOwners` what every
step keeps, `FixProtocolTheorems` what holds of every run, `FixProtocolLive` when two orders can have live
dispatches at once and when they cannot, with the runs where they do in `FixProtocolWitness`.
`FixProtocolReservations` says what a reservation is and what giving it up writes over, `FixProtocolJobs`
what the log proves of the jobs, and `FixProtocolSessions` when a start makes a job, what lies between two
jobs of one name or two starts for one attempt, and who stops one, with runs in `FixProtocolSessionWitness`.
`FixSweep` holds the store and the passes that write and then fire or close, as the controller runs them,
each proved to be its steps in order. `FixRuling` joins the exit check's answers to the record.

**The diff map.** `DiffText`, `DiffMap` and `DiffParse` read a unified diff strictly; `DiffTheorems`
proves that what is accepted counts right and that what is well formed is read back. `DiffIndex`,
`DiffLookup`, `DiffBuild` and `DiffReview` key its lines by path, side and number.

**Edits and their diff.** `EditSpec` is the fold of a batch's edits per path, `EditApply` the code,
`EditTheorems` what follows. `LineDiffSpec` says what a line diff is and how small one can be, `EditGraph`
how far moves reach, `LineDiff` is the bounded search over its shared array and the walk back, and
`DiffFacts` the counts made of it.

**Layered configuration.** `ConfigKeys` is how two layers combine, key by key, `ConfigLayers` what any
number of them come to, `PipelineFixConfig`, `ChangeConfig` and `ReviewConfig` the three sections, resolved
exactly, with operators only tightening, and `ScopeFold` what may be written.

**Small machines.** `MergeRate` (the merge cap), `PromptFit` (fitting a prompt), `TreeScan` and
`TreeScanMerge` (a scan in parallel parts), `LoopWatchdog` (stopping a looping session) and
`MutationDriver` (the drivers that mutate the tree's files, seal them again and put them back).

`Basics`, `Listing` and `Ordering` hold what these share. Functions over values are functions here;
the loops of the source are loops, and the objects it updates in place (the store, the sweep, the prompt
context, the watchdog, the driver's files, the search's array) are updated in place here too.

Six results correct a first reading:

* A merged scan of no parts reports no stale entry, so it equals one scan of nothing only when the
  allow-list is empty (`TreeScanMerge.MergedIsWhole`, exactly).
* The silent layer is not a left identity of the change fold for a layer that names a label twice
  (`ChangeConfig.SilenceChangesNothing`, exactly).
* Two orders of one fix can have live dispatches at once. An order may be processed twice; a dispatch
  that releases the fix, parks it, or records its running session closes the fire window; another pass may
  then fire while the first order's dispatch lives (`FixProtocolWitness.TwoLive`). It takes such a write:
  while no write closes an open window, no later order is fired (`FixProtocolLive.NoLaterOrder`,
  `OneLiveOrder`, `KeptWindowShuts`; an unpark's order has no window and keeps nothing out), and at any
  instant a pass can put a second live dispatch beside the first exactly when `Firing` holds, which for a
  pass that has not begun is the test `MayFire` of the stored record (`SecondLiveExactly`).
* Not every order has a write of its own: exactly the unparks' do not
  (`FixProtocolTheorems.OrdersWinTheirWrites`), so a parked record is fired again by every pass that lists
  it (`FixProtocolWitness.UnparksRepeat`, `TwoUnparksFire`).
* A session's name is not one job for good. A name can be given a second job for the same attempt
  (`FixProtocolSessionWitness.TwoJobs`), exactly when every job it had is gone
  (`FixProtocolSessions.StartsExactly`), and each that went had run out its time or been stopped by someone
  with the right to (`OneJobAtATime`). A dispatch stops by name, so the job it stops may be a later one than
  it made; it is its own exactly when that has not gone since (`StopsItsOwnExactly`).
* A dispatch may give up a reservation that is not its own. When the reply to its reservation was an error
  it goes by what the record says (`FixProtocolReservations.ReleasesExactly`), so it can write over another
  dispatch's equal reservation (`FixProtocolSessionWitness.GivesUpAnothers`). No job is touched by that:
  a dispatch that is then let through is handed the session, as long as that is up.

## Model

| member | source | states |
|---|---|---|
| PipefixJudge.MissingFacts | pkg/pipefix/judge.go:606-655 | Names a missing fact exactly when the fix record is not whole (targets distinct, named, each failed and required on the base pipeline; base jobs distinct, each with a status) or the merge request was not read as the fix's own. |
| PipefixJudge.SelectPipelines | pkg/pipefix/judge.go:380-407 | The listing loop finds the candidates (the fix commit's own pipelines that ran something) by id, the skipped ones and the merged-results ones, or refuses a pipeline with no identity. |
| PipefixJudge.AllSettled | pkg/pipefix/judge.go:408-422 | The candidates are settled exactly when there is one and each has a terminal status and no attempt that may still run. |
| PipefixJudge.JudgeJob | pkg/pipefix/judge.go:864-911 | One pass over a job's attempts yields the finding of that attempt list: counts, rule, and the first new signature. |
| PipefixJudge.JudgeTargets | pkg/pipefix/judge.go:492-511 | Every diagnosed job is judged over all its attempts in all candidates, and an unread trace is noticed. |
| PipefixJudge.LatestIsListed | pkg/pipefix/judge.go:966-974 | The latest attempt of a job in a pipeline is one of its attempts, with the highest id, and there is one exactly when the job is listed. |
| PipefixJudge.RecordFailures | pkg/pipefix/judge.go:965-987 | One candidate's share of the failed and required tables: each job outside the diagnosis keeps the first candidate it fails in, and the first it fails in while required; no name is listed twice. |
| PipefixJudge.JudgeOthers | pkg/pipefix/judge.go:955-1006 | The other jobs' findings, by name, are those of the jobs whose latest attempt fails in some candidate, compared with the base. |
| PipefixJudge.FindDefinition | pkg/pipefix/judge.go:796-829 | The loops over the delta's unresolvable sides and the fix's lifts give the definition's finding: violated, unresolvable at the fix's side or elsewhere, changed without a lift, or changing execution where that is denied. |
| PipefixJudge.JudgeDefinition | pkg/pipefix/judge.go:796-829 | An unread or unresolvable CI definition is a cause of no verdict; every other finding about it is a forgery. |
| PipefixJudge.JudgeAttempts | pkg/pipefix/judge.go:459-581 | From the attempts on: what the check answers, in the order it finds things missing, including what a partial answer carries. |
| PipefixJudge.Judge | pkg/pipefix/judge.go:343-581 | The check as written, with its early returns and loops, gives the answer of the specification for every set of facts and every instant. |
| PipefixTheorems.PassedExactly | pkg/pipefix/judge.go:914-950 | A diagnosed job's finding is PASSED exactly when every attempt is known, there is one, and all succeeded and were not allowed to fail. |
| PipefixTheorems.FixedExactly | pkg/pipefix/judge.go:531-581 | FIXED is given exactly when the fix is gonk's own and open and the criterion holds over the listed pipelines themselves: at least one candidate, each success with every attempt known and finished, each diagnosed job attempted and passing in every attempt without being allowed to fail, no other job's latest attempt failed, the CI definition held. |
| PipefixTheorems.VerdictStable | pkg/pipefix/judge.go:366-366 | A verdict or a stop, once given, is the answer at every later time. |
| PipefixTheorems.DeadlineDecides | pkg/pipefix/judge.go:343-366 | From the deadline instant on there is a verdict exactly when the recorded facts are whole, the merge request is open at gonk's commit, and nothing listed lacks its identity. |
| PipefixTheorems.NoVerdictOnPartialFacts | pkg/pipefix/judge.go:513-519 | Before the deadline there is a verdict exactly when every fact was read, every candidate has settled and every failed attempt that matters has its trace. |
| PipefixTheorems.DeadlineIsNotAPass | pkg/pipefix/judge.go:520-525 | What had no verdict before the deadline gets, after it, FORGED, NOT_FIXED, FLAKY or UNVERIFIABLE, never a pass. |
| PipefixTheorems.WeakenedIsForged | pkg/pipefix/judge.go:537-543 | One attempt of a diagnosed job that was allowed to fail makes the verdict FORGED, whatever else is known. |
| PipefixTheorems.RetryIsNotAPass | pkg/pipefix/judge.go:548-551 | A diagnosed job that failed once and passed once, in whichever pipelines, is never FIXED, FIXED_NEW_FAILURE or REGRESSED. |
| PipefixTheorems.RecurrenceIsVisible | pkg/pipefix/judge.go:544-547 | An attempt that fails the way it was diagnosed, everything read, ends in FORGED, NOT_FIXED or FLAKY. |
| PipefixVerdicts.FindingMeans | pkg/pipefix/judge.go:914-950 | A diagnosed job's rule by what its attempts did: allowed to fail; only failing and once as diagnosed; failing and passing; only failing otherwise; only passing. Each both ways. |
| PipefixVerdicts.RegressedFound | pkg/pipefix/judge.go:988-1004 | Some other job is found regressed exactly when a job outside the diagnosis that succeeded at the base fails, required, as its latest attempt in some candidate. |
| PipefixVerdicts.VerdictExactly | pkg/pipefix/judge.go:531-581 | FORGED, NOT_FIXED, FLAKY, REGRESSED and FIXED_NEW_FAILURE, each exactly when its evidence is there and no graver one is; a regression or a new failure is said only when nothing is missing. |
| PipefixOrder.PipelineOrderForgotten | pkg/pipefix/judge.go:405-407 | With distinct pipeline ids, listing the pipelines in another order gives the same answer, whole. |
| PipefixOrder.JobOrderForgotten | pkg/pipefix/judge.go:955-985 | With distinct attempt ids in each pipeline, listing its jobs in another order gives the same answer but for the new signature shown. |
| ChangeJudge.TallyOf | pkg/changejudge/report.go:95-107 | The tally of a report counts each identity's passes and failures, repeats included. |
| ChangeJudge.JudgeTests | pkg/changejudge/report.go:171-259 | The loops over the green pipelines' reports give the test finding of the specification, with the identities it names. |
| ChangeJudge.JudgeJobs | pkg/changejudge/judge.go:626-663 | One finding per job with a failed attempt, by name, over every attempt of every candidate. |
| ChangeJudge.Judge | pkg/changejudge/judge.go:294-433 | The check as written gives the answer of the specification for every set of facts and every instant. |
| ChangeTheorems.TestsObservedExactly | pkg/changejudge/report.go:171-259 | Tests are observed exactly when every green pipeline's report was read whole, one reports, each includes the base's passes as multisets, none has a failure beyond the base's, and the new tests ran: each added function passes more often than at the base under the go profile, something does otherwise. |
| ChangeTheorems.GreenExactly | pkg/changejudge/judge.go:436-487 | GREEN exactly when every candidate is success with every attempt known and no failure that counts (each job never failed, or was never required and never succeeded), the CI definition is the base's, and the tests were observed or do not apply; GREEN_UNOBSERVED likewise with nothing reported and no report required. |
| ChangeVerdicts.RuleMeans | pkg/changejudge/judge.go:666-678 | A failed job is red exactly when it was required and every attempt failed, flaky exactly when some attempt passed. |
| ChangeVerdicts.NotRunExactly | pkg/changejudge/report.go:211-244 | The new tests are found not run exactly when reports were read, no pass was lost, and some added function (or anything at all) does not pass more often than at the base. |
| ChangeVerdicts.VerdictExactly | pkg/changejudge/judge.go:436-487 | NOT_GREEN, TESTS_NOT_RUN and FLAKY, each exactly when its evidence is there and no graver one is. |
| ChangeRuns.VerdictStable | pkg/changejudge/judge.go:316-316 | A verdict or a stop, once given, is the answer at every later time. |
| ChangeRuns.DeadlineDecides | pkg/changejudge/judge.go:294-316 | From the deadline on, a verdict exactly for whole recorded facts with the merge request open at gonk's commit and nothing listed without identity. |
| ChangeRuns.DeadlineIsNotAPass | pkg/changejudge/judge.go:413-432 | What had no verdict before the deadline is never GREEN, with or without observed tests, after it. |
| ChangeRuns.RetriesNeverLaunder | pkg/changejudge/judge.go:626-663 | If facts with further job attempts are GREEN, the facts without them are too: no retry turns a failure into a pass. |
| ChangeRuns.PipelineOrderForgotten | pkg/changejudge/judge.go:343-343 | With distinct ids, the order pipelines are listed in does not matter. |
| ChangeRuns.JobOrderForgotten | pkg/changejudge/judge.go:626-663 | The order jobs are listed in does not matter. |
| FixProtocolSteps.StepKeeps | cmd/gonk-gate/sweep_pipefix_verify.go:394-494 | Every step of every pass, write, order, process and session keeps what the protocol rests on. |
| FixProtocolSteps.RunKeeps | cmd/gonk-gate/sweep_pipefix.go:842-872 | So does every interleaving of any number of passes, from an empty store. |
| FixProtocolTheorems.OrdersWinTheirWrites | cmd/gonk-gate/sweep_pipefix.go:842-872 | In every run, an order has an acknowledged write of its own exactly when it is not an unpark's: one its pass made, with the deadline the order carries, that no other order of any pass shares. An unpark's order has no deadline and was fired from a parked record as it stood. |
| FixProtocolTheorems.LoserFiresNothing | cmd/gonk-gate/sweep_pipefix.go:842-872 | A pass whose conditional write is refused, or whose reply is an error, never fires, however the run goes on. |
| FixProtocolTheorems.WindowsRespected | cmd/gonk-gate/sweep.go:453-462 | No write that an order follows replaces a record whose fire window is open by the writer's clock. |
| FixProtocolTheorems.NoDispatchOutlivesItsWindow | cmd/gonk-gate/dispatch.go:730-748 | Once an order's window is over, every dispatch it started, and every one it will ever start, is dead. |
| FixProtocolLive.NoLaterOrder | cmd/gonk-gate/sweep.go:389-462 | While the fire window of an order (not an unpark's, which has none) is open, and no write since has closed a window that was open, no other order has been fired from its write or a later one, whichever pass it is of. |
| FixProtocolLive.OneLiveOrder | cmd/gonk-gate/sweep.go:453-462 | Two orders with live dispatches at once, the earlier not an unpark's: after the write the earlier was fired from, and no later than the other's, some write closed a fire window that was open. |
| FixProtocolLive.KeptWindowShuts | cmd/gonk-gate/sweep.go:401-462 | While no write since a live dispatch's order (not an unpark's) has closed a window, the stored record lets no pass that begins now fire. |
| FixProtocolLive.SecondLiveExactly | cmd/gonk-gate/sweep_pipefix.go:620-636 | In every reachable world with a live dispatch, and for every pass, begun or not, its own steps can at that instant put a second order's live dispatch beside the first exactly when what it goes by still lets it fire; for a pass that has not begun, exactly when the stored record may be dispatched over, is parked, or is due a re-sling or an exit check that may retry. |
| FixProtocolWitness.TwoLive | cmd/gonk-gate/broker_pipefix_dispatch.go:315-369 | Runs in which two orders have live dispatches at once: an order is processed twice and the second dispatch puts the fix back to "not dispatched", and a look fires; or has it parked, and an unpark fires; or a dispatch has written its running record and not yet returned, and a re-sling fires. |
| FixProtocolWitness.UnparksRepeat | cmd/gonk-gate/sweep.go:233-245 | Of a parked record every pass that lists it fires the same order, and none of them writes. |
| FixProtocolWitness.TwoUnparksFire | cmd/gonk-gate/sweep.go:233-245 | A run from an empty store in which two unparks fire from one write. |
| FixProtocolReservations.RunReserves | cmd/gonk-gate/broker_inject.go:1337-1395 | In every run: every pending record names its session and replaced a record that held none for its attempt, and what each dispatch keeps of its reservation is true: its own write, or the record it would have written, and the record that replaced or would have replaced, which held no session for the attempt. |
| FixProtocolReservations.ReleasesExactly | cmd/gonk-gate/broker_inject.go:1422-1453 | In every run a dispatch that gives up writes exactly when its own reservation is the record, or its reply was an error and the record is pending and says what its reservation would have. Either way it writes over a pending record of its own session and touches no job; over its own it puts back exactly what that replaced; over another write only if its own never landed, or some write since took the session off the record. |
| FixProtocolSessionWitness.GivesUpAnothers | cmd/gonk-gate/broker_inject.go:1401-1421 | A run from an empty store in which a dispatch whose reservation was lost gives up over the reservation of another whose session is up; a third dispatch is then let through, and is handed that session. |
| FixProtocolJobs.RunKnows | pkg/runtime/jobs/jobs.go:85-135 | In every run the jobs the runtime holds are those the log says, every start was of a job just made or of one that is up, no dispatch starts twice, and every stop was of a job that is up, by someone with evidence in the log and the store that it was his to stop. |
| FixProtocolSessions.StartsExactly | pkg/runtime/jobs/jobs.go:85-112 | In every run a start makes a job exactly when every job the name ever had is gone, and is handed one exactly when one is there that nobody has had stopped; otherwise it is refused. |
| FixProtocolSessions.OneJobAtATime | cmd/gonk-gate/sweep_skew.go:134-158 | In every run, between two jobs of one name the first went: at the end of its time; or stopped by a dispatch that had made one of that name and lost its running record, by a sweep that had read a running record naming it and had reported its outcome, opened its merge request and seen the record replaced, or parked that record without it, by a sweep that had read a record not naming it, or by the start that made it. |
| FixProtocolSessions.AdoptersNeverStop | cmd/gonk-gate/broker_inject.go:1190-1221 | In every run a dispatch that has a job stopped for want of its record had made one of that name and lost its running record, and was never handed one. |
| FixProtocolSessions.StopsItsOwnExactly | cmd/gonk-gate/broker_inject.go:1476-1493 | In every run the job such a dispatch stops is the one it made exactly when that has not gone since; otherwise it is a later one of the name. |
| FixProtocolSessionWitness.TwoJobs | cmd/gonk-gate/sweep_skew.go:134-158 | Two runs from an empty store that give a session's name two jobs for one attempt: the maker cannot record it, stops it and gives up, and another dispatch makes it again; or a sweep parks a refused session and closes it, the next dispatch makes it again, and the first dispatch, told its running record failed when it had landed, then stops the second's job. |
| FixProtocolSessions.StartsApart | cmd/gonk-gate/broker_inject.go:1337-1395 | In every run, two starts of one session are two dispatches'; and one of them had no reservation that landed, or each had its own and some write between the two took the session off the record. |
| FixProtocolLive.LookAloneFires | cmd/gonk-gate/sweep_pipefix.go:842-872 | A look that may dispatch over the record it reads, undisturbed and with its write acknowledged, writes exactly the fix's new record and fires exactly one order, from it. |
| FixProtocolTheorems.SettlesInOrder | cmd/gonk-gate/sweep_pipefix_verify.go:394-494 | In every run, before an exit check's order fires, the attempt's result was shown (or the bound had passed), then meter accepted it, then the record write landed, in that order. |
| FixProtocolTheorems.RetriesInOrder | cmd/gonk-gate/sweep.go:973-1075 | Before the order of a failed session's re-sling fires, meter accepted the outcome and then the record write landed. |
| FixProtocolTheorems.AttemptsCapped | cmd/gonk-gate/broker_pipefix_dispatch.go:429-450 | No exit check orders an attempt past max_attempts, and no dispatch starts a session for one, by the record it read. |
| FixSweep.Memory.PutIf | pkg/beadstore/memory.go:36-46 | The write lands exactly when the record is still at the revision the writer read, under a new revision; every other record is as it was. |
| FixSweep.Sweep.Dispatch | cmd/gonk-gate/sweep_pipefix.go:842-872 | The record first; the order only when its write was acknowledged. Undisturbed, exactly the protocol's two steps. |
| FixSweep.Sweep.Settle | cmd/gonk-gate/sweep_pipefix_verify.go:394-494 | Show, report, write, fire, each only if the one before went through: exactly the protocol's four steps, and fired exactly then. |
| FixSweep.Sweep.Conclude | cmd/gonk-gate/sweep_skew.go:134-158 | The record first; then the session it named is closed: after an outcome whatever became of the write, after a merge request unless the write failed, after a refusal only when the park was acknowledged. Exactly the protocol's two steps. |
| FixRuling.RetriesFollowRefusals | pkg/pipefix/outcome.go:101-117 | Of the exit check's answers only FORGED and NOT_FIXED are "not fixed", so only they can lead to a further attempt; whatever settles an attempt has an outcome to report. |
| FixRuling.OneLookMovesOn | cmd/gonk-gate/sweep_pipefix_verify.go:217-265 | Past the bound, whatever the facts and whether or not the result can be shown, one look that meter answers leaves a settled record or a fresh window for the next attempt. |
| DiffText.ParseNumber | pkg/diffmap/diffmap.go:559-572 | A number is one to ten digits, all the digits there are, and at most the largest line number. |
| DiffText.HeaderRoundTrip | pkg/diffmap/diffmap.go:506-557 | Reading a written hunk header gives the header back. |
| DiffMap.WalkCounts | pkg/diffmap/diffmap.go:436-480 | A body read to its end has walked exactly the lines its header counts, on both sides. |
| DiffParse.ParseBody | pkg/diffmap/diffmap.go:439-480 | The loop over a hunk's lines with its four counters reads the body the line rules define, refusals included. |
| DiffParse.ParseDiff | pkg/diffmap/diffmap.go:392-490 | The parser gives the hunks, or the refusal, that the line rules define for every text. |
| DiffTheorems.AcceptedIsExact | pkg/diffmap/diffmap.go:392-490 | Every accepted diff counts right: on each side the hunks' lines carry the numbers their headers say, without gaps, in rising order across hunks, and within the largest line number. |
| DiffTheorems.DiffRoundTrip | pkg/diffmap/diffmap.go:392-490 | Every well-formed list of hunks, written as a diff, is read back line by line. |
| DiffIndex.ParseFile | pkg/diffmap/diffmap.go:333-382 | One file's status, hunks and counts, including refusing lines on a side the file does not have and hiding every partial read. |
| DiffLookup.ParsedIsSound | pkg/diffmap/diffmap.go:333-382 | Whatever diff it is read from, a file's hunks are well formed and on the sides the file has. |
| DiffLookup.AnchorsUnique | pkg/diffmap/diffmap.go:225-251 | An anchor names at most one line: no line of the map overwrites another. |
| DiffBuild.Build | pkg/diffmap/diffmap.go:213-254 | A map is built exactly when the paths key their files, and its index holds exactly the lines the files have. |
| DiffReview.LookupExactly | pkg/diffmap/diffmap.go:291-297 | An anchor is found exactly when some hunk header covers its number on that side, and it finds a line that has that number there. |
| DiffReview.EveryLineFound | pkg/diffmap/diffmap.go:291-297 | Every non-removed line is found under its new number, every non-added one under its old number. |
| DiffReview.ReviewableExactly | pkg/diffmap/diffmap.go:271-285 | A map may be reviewed exactly when every file was read in full and one has text; a diff that could not be read is never an empty one. |
| LineDiffSpec.DiffBounds | pkg/effects/edit.go:254-304 | Every diff of two line lists adds less removed by the length difference, and is never smaller than the two lengths less twice the longest common subsequence. |
| LineDiffSpec.FewestMet | pkg/effects/edit.go:254-304 | Some diff is exactly that small. |
| EditGraph.DiffIsPath | pkg/effects/edit.go:265-304 | A diff of what is left costs at least the edit distance that is left. |
| EditGraph.SlideMatches | pkg/effects/edit.go:293-296 | Between a round's start on a diagonal and the furthest point it reaches, every line matches. |
| LineDiff.Extend | pkg/effects/edit.go:287-297 | From the neighbours' furthest points, one diagonal's loop reaches exactly the furthest point of this round. |
| LineDiff.Round | pkg/effects/edit.go:284-302 | One round over the shared array leaves every diagonal's furthest point, and finds the end exactly when its distance is this round. |
| LineDiff.Backtrack | pkg/effects/edit.go:308-332 | Walking the recorded rounds back yields a diff with exactly as many lines as rounds. |
| LineDiff.LineDiff | pkg/effects/edit.go:265-304 | The result is a diff; the smallest when marked exact, otherwise the whole region the lists differ in; and it is marked exact exactly when the smallest is within 1000 lines or one side of that region is empty. |
| EditTheorems.AcceptedExactly | pkg/effects/edit.go:93-142 | A batch is accepted exactly when every path, taken alone, is, and its files are then the left folds of each path's edits. |
| EditTheorems.EditsAreUnique | pkg/effects/edit.go:117-123 | In an accepted batch every edit replaces the only place, overlapping ones counted, where its old text stands in its file as the earlier edits left it, and nothing else of it. |
| EditTheorems.PathsCommute | pkg/effects/edit.go:93-142 | Batches that give every path the same edits in the same order come to the same files: edits to different paths commute. |
| EditTheorems.FoldWeighs | pkg/effects/edit.go:93-142 | A patched file is as long as its base, plus what its edits put in, less what they took out; the base is as given. |
| EditApply.Occurrences | pkg/effects/edit.go:148-159 | Counts the places a text stands in another, overlapping ones too, up to two; when one, the one. |
| EditApply.ApplyOne | pkg/effects/edit.go:102-126 | One edit does to its file what the specification says, refusals in the source's order. |
| EditApply.ApplyEdits | pkg/effects/edit.go:93-142 | The walk over the batch and the checks at its end give the outcome of the specification. |
| DiffFacts.LinesRejoin | pkg/effects/edit.go:244-253 | The lines of a content, joined, are the content: none is lost or merged. |
| DiffFacts.ComputeDiffFacts | pkg/effects/edit.go:225-240 | The facts of a change are those of each file, and the totals are their sums. |
| DiffFacts.CommittedFilesCount | pkg/effects/edit.go:225-240 | A file that may be committed counts at least one changed line, and added less removed is its change in length. |
| ConfigKeys.IntersectLists | pkg/gonkcfg/pipelinefix.go:442-458 | The members both lists have, in the first one's order; silence takes the other list, and an empty list is not silence. |
| ConfigKeys.UnionLists | pkg/gonkcfg/change.go:495-506 | The first list, then the second's new members, each once; silence of both stays silence. |
| ConfigKeys.IntersectAssociates | pkg/gonkcfg/pipelinefix.go:442-458 | Intersection of three layers does not depend on how they are grouped, nil and empty kept apart. |
| ConfigKeys.UnionAssociates | pkg/gonkcfg/change.go:495-506 | Nor does the union. |
| PipelineFixConfig.ResolveLayers | pkg/gonkcfg/pipelinefix.go:351-429 | The section resolved as written, with its loops, is the fold of the operator layers resolved with the project's, for every three layers. |
| PipelineFixConfig.FoldAssociates | pkg/gonkcfg/pipelinefix.go:315-340 | Folding three operator layers does not depend on how they are grouped. |
| PipelineFixConfig.SilenceChangesNothing | pkg/gonkcfg/pipelinefix.go:315-340 | A silent layer changes nothing, on either side, exactly of a layer that names no paths. |
| PipelineFixConfig.OperatorsOnlyTighten | pkg/gonkcfg/pipelinefix.go:351-429 | Adding any operator layer at any place among any others loosens no key of what a project gets, unknown values read as the strictest. |
| ConfigLayers.AllowedByAll | pkg/gonkcfg/pipelinefix.go:315-340 | Whatever a fold of two layers allows exactly when both do, a fold of any number of layers allows exactly when all do. |
| PipelineFixConfig.ListsExactly | pkg/gonkcfg/pipelinefix.go:351-429 | Over any number of layers: a class, target or merge class gets through exactly when it is known, the project or the default lists it, and every layer that speaks lists it. |
| PipelineFixConfig.NumbersExactly | pkg/gonkcfg/pipelinefix.go:351-429 | A number reaches n exactly when its ceiling, the project or the default, and every layer that speaks let it. |
| PipelineFixConfig.ChoicesExactly | pkg/gonkcfg/pipelinefix.go:351-429 | CI may be changed exactly when the project says so and no layer says no; how much a CI change may do, and the merge mode, exactly as the project and every layer that speaks let it. |
| PipelineFixConfig.CeilingsHold | pkg/gonkcfg/pipelinefix.go:351-429 | Whatever the layers hold, the resolved values are known ones inside the ceilings. |
| PipelineFixConfig.NothingBeyondTheProject | pkg/gonkcfg/pipelinefix.go:351-429 | No operator layer opts a project in. |
| ChangeConfig.ResolveLayers | pkg/gonkcfg/change.go:372-413 | The section resolved as written, with its loops over lists and labels, is the fold of the operator layers resolved with the project's. |
| ChangeConfig.FoldAssociates | pkg/gonkcfg/change.go:344-362 | Folding three change layers does not depend on how they are grouped. |
| ChangeConfig.SilenceChangesNothing | pkg/gonkcfg/change.go:344-362 | A silent layer after a layer changes nothing exactly when that names no paths; before it, exactly when it also names no label twice. |
| ChangeConfig.OperatorsOnlyTighten | pkg/gonkcfg/change.go:371-413 | Adding any operator layer at any place loosens no key: documentation is still asked wherever it was, for every set of issue labels, and nothing more is allowed. |
| ChangeConfig.ListsExactly | pkg/gonkcfg/change.go:371-413 | Over any number of layers: a trigger, a class to create or a merge class gets through exactly when it is known and the project or the default and every layer that speaks list it. |
| ChangeConfig.NumbersExactly | pkg/gonkcfg/change.go:371-413 | A number reaches n exactly when its ceiling, the project or the default, and every layer that speaks let it. |
| ChangeConfig.DemandsExactly | pkg/gonkcfg/change.go:371-413 | A report is required exactly when someone says so, a label counts exactly when it is usable and someone names it, documentation is as strict as the strictest, unknown values being always. |
| ChangeConfig.CeilingsHold | pkg/gonkcfg/change.go:371-413 | The resolved values are known ones inside the ceilings. |
| ReviewConfig.ResolveLayers | pkg/gonkcfg/review.go:219-233 | The section resolved as written is the fold of the operator layers resolved with the project's; the reviewer's rung is the operators' alone. |
| ReviewConfig.FoldAssociates | pkg/gonkcfg/review.go:187-211 | Folding three operator layers does not depend on how they are grouped. |
| ReviewConfig.OperatorsOnlyTighten | pkg/gonkcfg/review.go:187-233 | A further operator layer at any place widens no key, and never puts another model in the reviewer's place: at most it leaves none. |
| ReviewConfig.RungExactly | pkg/gonkcfg/review.go:198-233 | A well-formed rung reviews exactly when some operator layer names it and none names another, whatever the project says. |
| ReviewConfig.KeysExactly | pkg/gonkcfg/review.go:219-233 | Over any number of layers: a target gets through, and a number reaches n, exactly when its order or ceiling, the project or the default, and every layer that speaks let it. |
| ScopeFold.CheckAll | pkg/scope/policy.go:136-203 | The loops over the row, the layers and the opt-in find one that does not validate exactly when there is one. |
| ScopeFold.Fold | pkg/scope/fold.go:129-198 | The fold refuses an invalid row or layer; otherwise its classes, liftable classes and caps are what the row and every layer allow. |
| ScopeFold.WritableExactly | pkg/scope/fold.go:223-236 | A class is writable exactly when the workflow is on and the row and every layer list it, or it is ci, lifted, listed by the row, opted into and vetoed by no layer; the floor never is. |
| ScopeFold.GrantsOpenCi | pkg/scope/fold.go:324-351 | A lift is granted exactly when it is named, asks for ci and nothing else, and ci may be lifted; it then opens ci and no other protected class. |
| ScopeFold.NestedGroupsAddUp | pkg/scope/policy.go:210-234 | Folding two nested groups into one layer gives what two layers give: nothing either says is dropped or loosened. |
| MergeRate.MergesInWindow | pkg/mergepolicy/rate.go:16-25 | Counts the merges of the last 24 hours, undated and future ones too. |
| MergeRate.CapHoldsEveryDay | pkg/mergepolicy/decide.go:546-554 | If every merge happened where the complete ledger was below the cap, no closed 24 hours of the run holds more merges than the cap, whatever the clocks read. |
| PromptFit.Context.Largest | cmd/gonk-gate/broker_pipefix_prompt.go:53-58 | The first of the largest files still shown. |
| PromptFit.Context.Fit | cmd/gonk-gate/broker_pipefix_prompt.go:46-81 | The loop ends with a prompt inside the limit or an error after everything was tried; it only hides files, largest first, and shrinks excerpts only once none is shown; a prompt that fits is left alone. |
| PromptFit.Prepare | cmd/gonk-gate/broker_pipefix_prepare.go:64-106 | A dispatch is prepared exactly when the fitted prompt is inside the limit and, without a checkout, every editable file is still shown. |
| TreeScan.Walk | internal/exportguard/treescan.go:50-73 | One walk gathers every file's findings and problems, counts, and the allow-list entries used. |
| TreeScan.SameAtEveryKey | internal/exportguard/treescan.go:105-113 | Two sorted lists with the same findings in the same order at every path and offset are the same list. |
| TreeScanMerge.StaleOfAll | internal/exportguard/treescan.go:79-103 | An allow-list entry is stale in the merge exactly when it is stale in every part. |
| TreeScanMerge.MergeScans | internal/exportguard/treescan.go:79-103 | The merged report holds every part's findings and problems, sorted, their counts, and those stale entries. |
| TreeScanMerge.MergedIsWhole | internal/exportguard/treescan.go:79-103 | However the files are shared out, the merged findings, problems and counts are those of one walk; the stale entries are too exactly when there is a part or the list is empty. |
| LoopWatchdog.Watchdog.Feed | images/agent/entrypoint.sh:886-911 | Each line is passed on; the session is stopped at the first line that completes a call for the threshold's time, a malformed call being known by its detail line. |
| LoopWatchdog.StopsExactly | images/agent/entrypoint.sh:878-885 | With a positive threshold the session is stopped exactly when some call was completed that often, and named with exactly that count. |
| MutationDriver.Disk.RunOne | hack/mutate_pipefix_config.py:463-517 | One mutation: what is read and refused, written, sealed again, tested and put back, whatever the test does. |
| MutationDriver.Disk.Drive | hack/mutate_scope.py:431-479 | The driver's loop over the selected mutations, which ends where one cannot be read or its test dies. |
| MutationDriver.SealsHold | hack/mutate_pipefix_config.py:482-495 | In the tree the tests run on, each edited file that is sealed has its own checksum and its own text published, if no two files share a seal's file and the mutation edits none. |
| MutationDriver.RestoreUndoes | hack/mutate_pipefix_config.py:513-515 | Putting the texts back, checksums and published copies among them, and removing the new files leaves every saved file as it reads and every other as it was. |
| MutationDriver.RestoresExactly | hack/mutate_pipefix_config.py:463-517 | A mutation leaves the tree as it was exactly when the files it edits and their seals survive being read as text. |
| MutationDriver.TreeRestored | hack/mutate_scope.py:431-479 | For such files the tree is the initial one after every mutation, whatever is selected and however the tests end. |
| MutationDriver.SubsetIsFilter | hack/mutate_scope.py:431-479 | A run of some of the mutations gives, for those, the results of a run of all. |

## Left out

Exit checks (`pkg/pipefix`, `pkg/changejudge`):

- The detail text of an answer and the texts and order of missing facts; a list of missing facts is modelled as far as whether it is empty.
- Error signatures, excerpts and redaction: an attempt carries its signature as a value, and whether it is generic.
- The CI definition delta itself (`pkg/cidef`): it is an input.
- ChangeJudge.JudgeTests: the identities a test finding names are sets here, where the source sorts their texts.
- PipefixOrder.PipelineOrderForgotten: equal ids are outside it, as the source's sort leaves their order open; the model's sort is stable.
- PipefixOrder.JobOrderForgotten: the signature shown for a new failure is that of the first one listed, and is left out of the comparison.
- The eligibility tables, but for the fix record's row; outcomes as meter's words and labels on notes.

Fix protocol (`cmd/gonk-gate`, `pkg/beadstore`):

- GitLab, meter and the session runtime: their replies are inputs of the steps, and may fail.
- Times are integers; two readings of the clock differ by at most the margin the source allows for.
- FixProtocolLive.SecondLiveExactly: it speaks of one instant and of the steps of one pass; as the clock moves on, a window ends by itself.
- FixProtocolSessions.OneJobAtATime: a job's age is counted from its making, where the stale-session pass reads its container's start; a stop the runtime refuses is a step not taken, and the sessions of the earlier runtime are left out.
- FixProtocolTheorems.AttemptsCapped: the cap is judged by the record the check or the dispatch read, and a failed session's re-sling meets it only where a session would start, as in the source.
- The reclaim, the scope notices and the post-merge watch read and write in one step, as each of their writes that lands is conditional on what it read; so do a dispatch's reservation and its deferred or denied answer, whose loops over lost conditional writes are one step.
- What a dispatch does besides the record (the prompt, the checkout, keys, its time budget) only decides which of its steps it comes to.
- FixProtocolReservations.ReleasesExactly: records are compared in the fields the model has; the rest of a reservation is meter's answer, which is the same for one attempt as long as its reservation is open.
- FixSweep.Memory.PutIf: revisions are the numbers of an anchor's writes, and a record is keyed by its anchor; a store whose conditional write is not atomic is not modelled.
- FixProtocolTheorems.RetriesInOrder: the rest of a running session's judgement (spend, signals) only decides whether meter accepted.
- Notes, labels and status blocks: showing a result is one step that succeeds or fails.

Diff map and effects (`pkg/diffmap`, `pkg/effects`):

- Text is a sequence of characters; replacing bytes that are not UTF-8, quoting, and rendering are left out.
- DiffTheorems.DiffRoundTrip: it is about texts that show as they are (no control characters) and sections that fit on a header's line; what is shown for the rest is not reversible.
- LineDiff.LineDiff: the search's array holds unbounded integers where the source's are 32 bits wide.
- Whether bytes are UTF-8 and whether a path is clean are parameters of the edit checks; the shape rules of whole batches are left out.

Configuration (`pkg/gonkcfg`, `pkg/scope`):

- Parsing, durations as text, and validation of single keys; label and pattern syntax are parameters.
- ScopeFold.Fold: whether a layer's path patterns and profiles, and the base commit, validate are given; what the patterns reclassify is left out.
- Allowed profiles, bead globs, and whether a merge mode that waits for a review can be used.

The rest:

- Rows M1 to M10 of the merge policy, and the ledger's reading and age.
- PromptFit.Context.Fit: the prompt's text and the longest excerpt at a cap are functions given to it.
- TreeScan.Walk: what the rules say of one file is an input, and so is which allow-list entries excused it.
- LoopWatchdog.Watchdog.Feed: stripping escapes and blanks and taking a call's signature are functions given to it.
- MutationDriver.Disk.Drive: running the tests is a function of the tree or a failure; a mutation that creates one file twice, failing writes, printing and arguments are left out, and so are the drivers' further refusals of some results. One model has both what the drivers that add files do and what those that seal do.
- Subprocesses, the network, Kubernetes, hashing and the wording of prompts and notes.
