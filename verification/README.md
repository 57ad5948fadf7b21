# Hunter: jobs, findings and the rules around them

A model of the daemon that hunts bugs in repositories and turns its findings
into pull requests: the job and finding state machine that `scheduler.rs` and
`store.rs` implement together, with the operator, the PR sync, the workspace
sweep and the recovery after a crash as steps that interleave with it, and
smaller cores beside it.

`dafny verify dfyconfig.toml` checks everything.

How the files fit together:

- `Domain`, `Chains`, `Streaks`, `Tables`: the rows and each transaction on
  them as a function, and the recursive chain queries as depth-capped
  fixpoints.
- `World` holds the whole state and its invariant; `OperatorSteps`,
  `DaemonSteps`, `SelectSteps` and `ExecSteps` the steps; `TableChanges`,
  `ExecProofs` and `OutcomeProofs` what they keep. `Runs` puts them together.
- `Guarantees`, `Ownership` and `UnheldRuns` state what holds in every
  reachable state, of every step and over whole runs; `LongChains` is a run
  that goes past the depth cap.
- `Selection` and `SelectionProofs`: `select` and its preview;
  `SelectionOrder`: whose turn it is; `Resuming`: which suspension is
  continued, on the chain itself; `Effects`: where requests, syncs and outcomes
  leave a finding. `Attempts`: whole attempts, and when their finding is
  selected again; `Engages`: an engage and the sync after it; `Starvation`:
  attempts that end before their job.
- `Suppression`: what a rejection watches and when it lapses.
- `Recovery`: what becomes of the jobs a died process left.
- `Store` (module `StoreRows`) and `Workspaces` are the classes whose rows and
  directories the program updates in place. Their methods are proved against
  the functions above, and their loops are shown to be runs of the state
  machine.
- `Accounting`, `Rotation`, `Hunts` and `Attention`: spend, the rotation of
  scans, one repo's hunts, one PR's flag.
- `Dates`, `Timestamps`, `Lookups` and `Render`: calendar arithmetic, RFC 3339
  timestamps, the lookup cache and the feedback screen, templates and fences;
  `Strings` has the string operations they and `Suppression` share.

Git, the forge, the budget gate and the worker are answers a step carries;
the clock is a number that does not decrease. `Finding.judge`, `Streak.log`,
`World.lost` and the history fields of `Hunts` record what happened and have
no column in the database.

What the proofs found where a promise of the source does not hold as stated:

- A sweep can remove the tree of a live chain, exactly for links past the
  depth cap of 64. Only held fixes get there: their chains are exempt from
  the give-up ceiling, and a crash continues one without a new operator
  requeue (`LongChains`). Without such a requeue no chain comes near the cap
  (`UnheldRuns`).
- An urgent re-hunt that crashes before it has marked its request, on a repo
  whose hunt is not otherwise due, is picked again at once for as long as it
  keeps crashing (`Rotation.AttemptShrinksBacklog`).
- A stuck item can starve the rest. What ends an attempt without settling the
  work is counted for fixes, rechecks and harvests only in part, and for
  engages not at all: a repository that cannot be fetched, a prompt that cannot
  be built, a backend call or an outcome that fails, an engage's or a harvest's
  tree that cannot be made, an engage whose worker fails or whose push or
  comment is refused. Its tier then selects the same finding in every cycle,
  with a fresh worker each time where it gets that far.
  `Attempts.SameItemAgain` and `Engages.NextSyncDecides` say exactly when;
  `Starvation` and `Engages` have reachable states in which it goes on for ever.
  The withdrawal that the forge refuses, which the source guards against, does
  not repeat (`Engages.SameSituationAgain`).
- The fingerprint that tells one PR's problems from another's joins the names of
  the failing checks with commas, so sets of names with commas in them can read
  the same (`Attention.FingerprintExact`, `CommasHideChecks`).
- `iso_ms` does not invert every spelling that RFC 3339 section 5.6 allows. A
  lower-case `t` is never read. A lower-case `z` is read by accident: right
  behind three fraction digits or more, without the fraction behind one or two,
  and as 0 behind the seconds (`Timestamps.ReadsRight`).

## Model

| member | source | states |
|---|---|---|
| Chains.StatsExact | hunter-rs/src/store.rs:1990-2013 | The two-way fixpoint, in which a job recurs at many depths, finds exactly the links of the same-kind segment at most 64 away |
| Chains.StatsWholeSegment | hunter-rs/src/store.rs:1985-2013 | From any link the fixpoint is the whole segment if and only if the segment lies within the depth cap on both sides |
| Chains.StatsMeterSegment | hunter-rs/src/store.rs:1942-2013 | Its total and its attempt count add every link of the segment exactly once |
| Chains.SegmentSumOnce | hunter-rs/src/store.rs:1986-1989 | Aggregating by id set equals following `resumed_from` link by link, whatever is summed |
| Chains.MaxOverBounds | hunter-rs/src/store.rs:2003-2006 | The largest attempt is an upper bound of all and is attained |
| Chains.OriginReached | hunter-rs/src/store.rs:2045-2063 | `MIN(id)` over the ancestry is the last link the capped walk reaches |
| Chains.OriginExact | hunter-rs/src/store.rs:2014-2063 | The origin query names the chain's true first job if and only if at most 64 links precede the job |
| Chains.SuccessorsExact | hunter-rs/src/store.rs:2367-2396 | From an origin the successor walk finds exactly the chain's links at most 64 below it |
| Chains.OriginMeetsSuccessors | hunter-rs/src/store.rs:2045-2396 | "Job `j` has origin `o`" and "`j` is found by the successor walk from `o`" are equivalent for every job, past the cap too |
| Chains.LiveCountZero | hunter-rs/src/store.rs:2367-2396 | A chain has no live attempt by `chain_status` if and only if none within the cap is running, or suspended and not continued |
| Runs.ReachableOk | hunter-rs/src/daemon.rs:298-441 | One inductive invariant over jobs, findings, PRs, trees and the scheduler's place holds after every interleaving of scheduler, operator, sync, sweep, recovery and crash steps |
| OperatorSteps.KeepsInv | hunter-rs/src/server.rs:786-1018 | Every verdict, recheck, unqueue, reopening, repo deletion, lost tree and crash keeps the invariant |
| DaemonSteps.KeepsInv | hunter-rs/src/daemon.rs:76-158 | Every sweep, tree release and recovery step keeps the invariant |
| SelectSteps.KeepsInv | hunter-rs/src/scheduler.rs:274-882 | Every sync and selection step, give-ups included, keeps the invariant |
| ExecProofs.StartKeepsInv | hunter-rs/src/scheduler.rs:3090-3260 | Every step from the picked candidate to the recorded worker run keeps the invariant |
| OutcomeProofs.OutcomeKeepsInv | hunter-rs/src/scheduler.rs:3462-3900 | Every recorded outcome of a fix, recheck, engage, withdrawal handoff, harvest or scan keeps the invariant |
| Guarantees.ChainsBounded | hunter-rs/src/scheduler.rs:755-913 | In every reachable state a chain not yet held has at most 4 attempts of one kind, at most 8 across an engage-to-harvest handoff, and every query sees all of it |
| Guarantees.CountsMissNoLink | hunter-rs/src/scheduler.rs:1064-1074 | Every way of being suspended is counted by the attempt rule: for an offered chain the query's attempts are the links it has |
| Guarantees.CeilingFires | hunter-rs/src/scheduler.rs:800-866 | A chain of 4 links is given up and never continued, whatever it spent |
| UnheldRuns.EveryChainBounded | hunter-rs/src/scheduler.rs:800-830 | In every run without an operator requeue of a held fix every chain, held ones included, keeps both bounds |
| UnheldRuns.EveryLiveTreeStays | hunter-rs/src/workspace.rs:297-315 | In such runs every live chain still has its tree, unless something outside the daemon removed it |
| LongChains.HeldChainsGrow | hunter-rs/src/scheduler.rs:829-840 | The bound does fail for held chains: after one requeue, crash after crash adds a link without any operator |
| LongChains.SweepTakesALiveTree | hunter-rs/src/workspace.rs:444-476 | A reachable state in which a sweep removes the tree of a running attempt, the 66th link of such a chain |
| Guarantees.RemovalSparesLive | hunter-rs/src/workspace.rs:297-315 | Only a release removes a tree, and never one of a live link within the cap: a live link that loses its tree is held and past it |
| Guarantees.LiveTreeStays | hunter-rs/src/workspace.rs:403-432 | A live chain whose tree was made still has it, for every unheld chain and every chain within the cap |
| Guarantees.SweepLeavesLiveTrees | hunter-rs/src/workspace.rs:433-476 | When a sweep ends every tree on disk belongs to a chain with a live attempt |
| Guarantees.OneLiveAttempt | hunter-rs/src/store.rs:2263-2296 | At most one live attempt per (kind, finding) or (kind, repo), and one running at all, in every reachable state |
| Guarantees.DoneIsFinal | hunter-rs/src/store.rs:1800-1853 | A finished attempt never has a same-kind successor |
| Guarantees.NothingStrands | hunter-rs/src/store.rs:1868-1941 | After the sweep before a cycle every suspended finding job nothing continues is in exactly one class: offered, held, or without a transcript and killed by the next fresh start |
| DaemonSteps.SweepClassifies | hunter-rs/src/store.rs:1852-1941 | The same trichotomy after every sweep, with the claimed fixes of a died process |
| Guarantees.ClaimSurvivesCrash | hunter-rs/src/scheduler.rs:3132-3147 | A crash between a fix's claim and its job row leads back to an offered checkpoint through every interleaving of sweep, recovery and operator, unless the operator unqueued the finding |
| Guarantees.OfferedAfterRun | hunter-rs/src/scheduler.rs:1064-1074 | From the moment a run is recorded its job is offered for a resume if and only if there is a transcript and the cap ended the run, or tokens were spent and the wall clock or the worker's own death did - and, for work at a finding, as long as the finding waits for this kind of work |
| Guarantees.PausedIsOffered | hunter-rs/src/scheduler.rs:1107-1169 | And the executor of an unheld attempt leaves its finding so that the attempt is offered; a harvest's as long as its finding is still merged or closed |
| Recovery.RecoverySettles | hunter-rs/src/daemon.rs:141-158 | Recovery suspends a running job if and only if its chain's directory holds a ledger above what the strict ancestors recorded and its tree is not in use; the chain's record then equals the ledger. It kills every other running job, queues every claimed finding, and changes nothing else. For links past the depth cap with the ancestors and the directory the capped walks reach |
| Attempts.SameItemAgain | hunter-rs/src/scheduler.rs:5946-5964 | However an attempt of any finding kind goes from its pick to the next selection - resumed or fresh, with or without a job, through crashes and their recovery - its finding is first again if and only if it was first at this one and no step settled the work (fix shipped, declined or held, recheck judged, withdrawal or harvest recorded) or counted a third identical failure |
| Attempts.UncountedLeavesCounters | hunter-rs/src/scheduler.rs:4635-4641 | An attempt that neither settles the work nor counts a failure leaves the counters of its finding as they were, so nothing bounds how often it repeats |
| Engages.NextSyncDecides | hunter-rs/src/scheduler.rs:4832-4917 | After an engage attempt and the next sync of its PR, whatever either finds, the PR is first again if and only if no withdrawal was recorded, it is still open, and the sync flags it - by what the engage marked, if it published or the forge refused its withdrawal, else as if it had not run |
| Engages.SameSituationAgain | hunter-rs/src/scheduler.rs:4635-4648 | If that sync finds the situation unchanged, an engage is selected again if and only if it answered nothing (worker, push or comment failed), or pushed and left the problem standing: a refused withdrawal is no unbounded retry, a refused push is |
| Engages.RefusedPushStarvesFix | hunter-rs/src/scheduler.rs:4754-4828 | Reachable states, cycle after cycle, in which an engage whose worker finishes and whose push is refused is selected ahead of a queued fix, for any number of cycles and with the findings unchanged |
| Starvation.UncountedEndRepeats | hunter-rs/src/scheduler.rs:2101-2140 | The attempts that end before their job, step by step: the finding stays first exactly unless it was a harvest's third identical prefetch failure, and no job row is written (`Attempts.SameItemAgain` has whole attempts, those that reach a job included) |
| Starvation.StuckForEver | hunter-rs/src/scheduler.rs:4462-4486 | While attempts at the first finding keep ending before their job, every cycle leads back to the same state: nothing else is served, for any number of cycles |
| Starvation.UnfetchableRecheckStarvesFix | hunter-rs/src/scheduler.rs:2101-2113 | A reachable state in which a recheck that cannot be fetched holds up a queued fix for any number of cycles |
| Ownership.StatusMoves | hunter-rs/src/store.rs:2941-3677 | Every status change any step can make starts from the status its party works at and is one of a fixed table; the one that takes another party's decision back is a dependency scan handing a queued update over to the finding it proposes instead |
| Ownership.ClaimedIsOwned | hunter-rs/src/server.rs:830-861 | A claimed finding is moved only by the fix that claimed it, or by recovery |
| Ownership.HeldByOneCheckpoint | hunter-rs/src/store.rs:801-843 | A blocked finding has exactly one held checkpoint and no other live fix |
| Ownership.HoldNeedsOperator | hunter-rs/src/server.rs:786-861 | Only an operator's verdict takes a finding off hold |
| Ownership.HoldIsInherited | hunter-rs/src/store.rs:2234-2246 | Every later link of a held chain carries the report |
| Effects.HeldFixResumes | hunter-rs/src/store.rs:801-843 | A held fix that the operator queues again is offered for a resume if and only if it or the attempt it continued left a transcript |
| Effects.EndedPrAwaitsHarvest | hunter-rs/src/scheduler.rs:4151-4395 | A merged or closed PR waits for its harvest, each PR of a finding once |
| Effects.RequestTakesEffect | hunter-rs/src/server.rs:786-1018 | Every request that is applied leaves its finding in the tier, or out of the tier, that it asks for |
| Effects.DeclineTakesEffect | hunter-rs/src/scheduler.rs:3776-3824 | A declined fix stands where the classification puts it: suppressed if and only if wrong or unwanted, back with the operator if unclassified or abandoned, anchored if and only if wrong |
| Effects.ConcludedIsRetired | hunter-rs/src/scheduler.rs:1509-1518 | An attempt that was suspended when its work was settled is retired before its tree is let go, and never offered |
| Effects.ReportStays | hunter-rs/src/scheduler.rs:3213-3256 | A held fix that is stopped again before it ends is held on the report it had |
| Ownership.AnchorMarksWorkerRejection | hunter-rs/src/suppression.rs:46-81 | An anchor exists only while its finding is rejected by a worker's verdict |
| Ownership.SuppressedLeavesByReopen | hunter-rs/src/suppression.rs:235-268 | A rejected or wontfix finding comes back only through a scan reopening it: rejected by a worker, anchored, with a watched file that changed or a diff git cannot give; the anchor goes in the same step |
| Suppression.DecorationOff | hunter-rs/src/suppression.rs:86-101 | However a worker decorates a path - blanks, backticks, a leading `./`, any number of locations - the path itself is what is watched |
| Suppression.FindRepoPath | hunter-rs/src/suppression.rs:86-101 | The loop over the locations computes that path, which stays inside the repository |
| Suppression.WatchedExactly | hunter-rs/src/suppression.rs:53-72 | Only mentioned paths inside the repository are watched, each once, at most twelve - and all of them unless there are twelve |
| Suppression.FirstMentionWatched | hunter-rs/src/suppression.rs:53-72 | The finding's own file is watched first |
| Suppression.MentionsAreWatched | hunter-rs/src/suppression.rs:104-160 | A rejection lapses when a path it mentions is touched, or when git cannot say, and not when none is; of more than twelve paths the first twelve are watched |
| Suppression.OwnFileIsWatched | hunter-rs/src/suppression.rs:46-81 | Only a rejection is anchored, to the commit it was judged at; the finding's own file is watched first and what the worker names after it |
| Suppression.NeverClimbsOut | hunter-rs/src/suppression.rs:86-101 | A watched path is relative and none of its components leads out of the repository |
| Suppression.WatchFiles | hunter-rs/src/suppression.rs:46-81 | The loop that stops at twelve computes them |
| Ownership.FinalForGood | hunter-rs/src/store.rs:728-787 | Every wontfix and every rejection without an anchor stands for the rest of every run |
| Ownership.ThirdFailureLeavesTier | hunter-rs/src/scheduler.rs:3527-3609 | For fix, recheck and harvest alike: a step counts at most one failure, and the work leaves its tier exactly with the third identical one, however it was produced |
| Streaks.StreakFollowsHistory | hunter-rs/src/store.rs:3537-3643 | Every write keeps the counter equal to the trailing run of identical failures since the last clear; pauses and denials change nothing |
| Selection.Selected | hunter-rs/src/scheduler.rs:274-394 | Selection terminates by the total size of the four finding tiers; a preview returns the state unchanged |
| Selection.CountShrinksTiers | hunter-rs/src/scheduler.rs:680-724 | A count that ends the work shrinks its tier and grows none |
| Selection.CountEndsLeavesTier | hunter-rs/src/scheduler.rs:655-724 | "This count ended the work" holds if and only if the finding is no longer in its tier |
| Selection.Oldest | hunter-rs/src/scheduler.rs:192-209 | The tier's pick is a member no other is older than |
| SelectionOrder.FirstItemExact | hunter-rs/src/scheduler.rs:296-335 | Selection turns first to exactly one finding: the overridden ones before all others; engage before harvest before recheck before fix; flagged PRs by how long their reason has stood and ended ones by their last sync, newer id first; rechecks and fixes oldest id first, overridden ones newest |
| Resuming.WeighExact | hunter-rs/src/scheduler.rs:755-913 | For every suspension offered in a reachable state: it may be continued if and only if it has a pinned commit, the tree of its chain is there, and either it is held or its chain has fewer than 4 links and not, from the second link on and with a known typical cost, more than 3 times that cost beside its largest link |
| Resuming.WaitingIsContinued | hunter-rs/src/scheduler.rs:622-653 | A finding tier continues the one attempt that waits at its finding exactly then; without its tree the attempt is killed and the work starts afresh; past the ceiling the chain is given up and counted, and the work starts afresh unless that count ended it |
| Resuming.FreshWithoutWaiting | hunter-rs/src/scheduler.rs:622-653 | Where no attempt waits the work starts afresh and nothing is written |
| Resuming.NewestGoesOn | hunter-rs/src/scheduler.rs:590-609 | The resume tier takes the newest suspension that may be continued; it retires every newer one, each in its own way, and changes no other row |
| Resuming.GivenUpScanWaits | hunter-rs/src/scheduler.rs:845-860 | A scan whose chain is given up is not due until its interval is over; no other suspension turned down moves a rotation timestamp |
| SelectionProofs.SelectIsRun | hunter-rs/src/scheduler.rs:274-394 | All that selection writes, and its pick, is a run of enabled steps of the state machine |
| SelectionProofs.RotationComesLast | hunter-rs/src/scheduler.rs:337-394 | The rotation is reached only when no tier has a finding and nothing is left to resume |
| SelectionProofs.WeighUnaffected | hunter-rs/src/scheduler.rs:755-810 | Retiring one suspension does not change what is decided about another |
| SelectionProofs.PreviewAgrees | hunter-rs/src/scheduler.rs:230-257 | The preview writes nothing and names the scheduler's own pick whenever no chain it reaches is past the ceiling |
| StoreRows.Store.Select | hunter-rs/src/scheduler.rs:274-394 | The recursive method over the rows computes that selection, writes included; what it picks is `SelectionOrder.FirstItemExact`, `Resuming` and `Rotation.PickScanExact` |
| StoreRows.Store.FindingPick | hunter-rs/src/scheduler.rs:622-653 | The loop over the resumable rows computes the finding tier's pick of `Resuming.WaitingIsContinued` |
| StoreRows.Store.TurnDown | hunter-rs/src/scheduler.rs:636-652 | A chain that is turned down is retired and, past the ceiling, counted; says whether that ended the work |
| StoreRows.Store.CountGivenUpChain | hunter-rs/src/scheduler.rs:680-724 | One failed attempt through the executors' own failure paths; true exactly when the finding left its tier |
| StoreRows.Store.PickResume | hunter-rs/src/scheduler.rs:590-609 | The resume tier's walk, newest first, with its retirements |
| StoreRows.Store.CreateJob | hunter-rs/src/store.rs:2220-2303 | Refused exactly for a deleted repo; a resume inherits the pinned commit and the report; a fresh job retires, in order, exactly the suspensions of its work nothing continues |
| StoreRows.Store.RetireStrandedSuspensions | hunter-rs/src/store.rs:1868-1941 | Retires exactly the suspensions whose finding moved on, keeps the claimed and held ones, and names them in order |
| StoreRows.Store.ReconcileOrphanedJobs | hunter-rs/src/store.rs:3510-3534 | Every running row killed, every claimed finding queued, both reported |
| StoreRows.Store.ReconcileAndLog | hunter-rs/src/daemon.rs:76-132 | The loop suspends the orphans that did work of their own, by the ledger and the record of their ancestors, kills the rest and requeues their findings |
| StoreRows.Store.HoldFixJob | hunter-rs/src/store.rs:801-843 | Both rows change or, for a job that is not a fix of this finding, neither; a missing transcript is taken over from the predecessor |
| StoreRows.Store.ClaimInProgress | hunter-rs/src/store.rs:3647-3664 | Moves the finding exactly when it is still where the caller saw it |
| StoreRows.Store.SetVerdictIf | hunter-rs/src/store.rs:598-625 | An operator's verdict loses to whatever moved the finding, and leaves no anchor when it wins |
| StoreRows.Store.RecordDeclinedFix | hunter-rs/src/scheduler.rs:3776-3824 | Anchored if and only if the worker calls the finding wrong, at the tree's commit and watching what it mentions; an unclassified decline awaits a verdict again; the streak is cleared |
| StoreRows.Store.ReopenSuppressed | hunter-rs/src/store.rs:747-787 | Reopens exactly from a suppressed status and removes the anchor |
| StoreRows.Store.ReopenIfChanged | hunter-rs/src/suppression.rs:235-268 | Reopens if and only if the finding is suppressed and anchored, the job has a commit, and the watched code changed |
| StoreRows.Store.RecordFixAttempt | hunter-rs/src/store.rs:3537-3561 | Returns one more than the trailing run of this failure in the history |
| StoreRows.Store.RecordFixFailure | hunter-rs/src/scheduler.rs:3543-3577 | Holds the finding with this job as checkpoint exactly at the third identical failure |
| StoreRows.Store.HandleRecheckFailure | hunter-rs/src/scheduler.rs:2001-2046 | Back to the inbox exactly at the third identical failure |
| StoreRows.Store.RecordHarvestFailure | hunter-rs/src/scheduler.rs:5186-5226 | The PR is given up as harvested exactly at the third identical failure |
| StoreRows.Store.RecordClosedHarvest | hunter-rs/src/store.rs:3378-3412 | The stamp always lands, the classification exactly where the finding still awaits it |
| StoreRows.Store.RetireJob | hunter-rs/src/store.rs:317-335 | The old reason survives unless a new one is given; nothing is left to resume at the row, and every other row is as live as before |
| StoreRows.Store.CompleteJob | hunter-rs/src/store.rs:2436-2469 | The row is suspended if and only if there is a transcript and the cap ended the run, or tokens were spent and the wall clock or the worker's own death did; failed if and only if the resume was unavailable or the worker died without a transcript or without spend; done if and only if it exited cleanly; else killed. Its spend, transcript and reason are the run's |
| Workspaces.Workspaces.ReleaseIfIdle | hunter-rs/src/workspace.rs:307-315 | A chain with a live link within the depth cap keeps its tree, any other loses it; the answer is whether it was released |
| Workspaces.Workspaces.SweepChains | hunter-rs/src/workspace.rs:444-476 | In whatever order: the trees left are exactly those of live chains, the workspaces left exactly those live or within retention, and the report counts what went |
| Workspaces.Workspaces.Sweep | hunter-rs/src/workspace.rs:433-441 | Retires the stranded suspensions first, so they hold no tree; the trees and workspaces left are then exactly those of live chains and those within retention |
| Workspaces.SweepIsRun | hunter-rs/src/workspace.rs:433-476 | That sweep is a run of the state machine to the end of its sweep phase |
| Workspaces.RecoveryIsRun | hunter-rs/src/daemon.rs:76-132 | That recovery is a run of the state machine that leaves nothing running and nothing claimed |
| Accounting.AncestorTokensExact | hunter-rs/src/store.rs:2073-2092 | Counts every strict ancestor once, across kinds, for every job within the cap |
| Accounting.HistoryIdsExact | hunter-rs/src/store.rs:2722-2750 | A head's walk finds exactly the links of its kind before it, up to the cap |
| Accounting.HistoryCountsOnce | hunter-rs/src/store.rs:2722-2765 | In every reachable state the samples together are the tokens of the set of jobs they cover: no job counts twice |
| Accounting.SampleIsChainCost | hunter-rs/src/store.rs:2663-2750 | For an unheld head the sample is its whole segment's cost |
| Accounting.HistoryIs | hunter-rs/src/store.rs:2722-2765 | The history is the sorted costs of the chains of the newest twenty finished jobs of the kind as soon as there are three, and before that the sorted spend of every job of the kind that has any |
| Accounting.AnticipatedIsPercentile | hunter-rs/src/scheduler.rs:921-937 | The estimate is one of the samples, none up to its place is larger, and a cold estimate is never below a warm one |
| Accounting.IndexInRange | hunter-rs/src/scheduler.rs:934-936 | The percentile index is in range and leaves at least its share of the samples at or below it |
| Rotation.PickIsFirst | hunter-rs/src/scheduler.rs:397-434 | A scan is picked if and only if one is due; never-run goes before stale, older before newer, ties in list order |
| Rotation.FindRotationKind | hunter-rs/src/scheduler.rs:397-434 | The list and the two passes over it find that scan |
| Rotation.RotationServesStalest | hunter-rs/src/scheduler.rs:354-394 | Whenever an eligible repo has work, one is served that no other is ahead of; an urgent re-hunt is ahead of everything |
| Rotation.KindExact | hunter-rs/src/scheduler.rs:397-434 | A repo's scan is the due one before every other due one: never run first, then the longest ago, then the fixed order; modernization and standards have intervals of their own |
| Rotation.PickScanExact | hunter-rs/src/scheduler.rs:355-394 | The rotation picks the first eligible repo with anything to offer: urgent re-hunts first, then repos never hunted, then the longest since, ties in list order; an uncloned repo and an urgent request offer a hunt |
| Rotation.AttemptShrinksBacklog | hunter-rs/src/scheduler.rs:6026-6074 | With the clock held an attempt that ended or crashed shrinks the backlog of due scans and urgent re-hunts, if and only if it is not an urgent re-hunt that crashed before marking its request on a repo whose hunt was not due |
| Rotation.UnmarkedRehuntRepeats | hunter-rs/src/scheduler.rs:1796-1851 | That exception is real: the same hunt is picked again at once |
| Rotation.RotationDrains | hunter-rs/src/scheduler.rs:5850-5864 | With every repo cloned and the clock held, after as many cycles as there is backlog nothing is due: no scan is served twice before every other due one is served |
| Rotation.UnclonedDoNotStarve | hunter-rs/src/scheduler.rs:354-394 | With repos whose clone keeps failing and a clock that advances, nothing is due at the cloned repos after one cycle for each scan of theirs that comes due, and for each uncloned repo one try, one more after each of their hunts, and its urgent request |
| Hunts.WatermarkSound | hunter-rs/src/scheduler.rs:1591-1996 | Every commit from the first finished hunt's base to the watermark lies in the range of a cleanly finished chain, wherever the branch moved meanwhile, through full re-hunts, denials, failures and crashes |
| Hunts.FullHuntsAreFull | hunter-rs/src/scheduler.rs:1952-1971 | A full hunt is recorded only for a chain over the complete history, or the repo's first |
| Hunts.CleanEndRecords | hunter-rs/src/scheduler.rs:1875-1990 | A clean end sets the watermark to its chain's commit, and the time of a full hunt if and only if the range was the complete history or the repo's first |
| Hunts.ColdHuntCovers | hunter-rs/src/scheduler.rs:1591-1996 | A cold hunt reviews everything if a re-hunt is asked for or the last full hunt is an interval old, else what came after the watermark, up to the fetched commit; it has nothing to do exactly when the watermark is that commit |
| Hunts.ClearedMeansFullPass | hunter-rs/src/scheduler.rs:1655-1733 | A cleared watermark is set again only by a chain over the complete history |
| Hunts.RequestsNeverRepeat | hunter-rs/src/store.rs:2569-2583 | Request identities increase strictly over every interleaving |
| Hunts.SettledByItsChain | hunter-rs/src/store.rs:2603-2615 | A pending request is settled if and only if the full-history chain that accepted exactly it ends cleanly |
| Hunts.UrgentUntilAttempted | hunter-rs/src/scheduler.rs:447-450 | A request jumps the queue if and only if no hunt has attempted it |
| Hunts.AttemptedIsNotUrgent | hunter-rs/src/scheduler.rs:447-460 | A request is urgent for one attempt only: once its fetch has failed or its worker has started it is no longer ahead of the rotation |
| Hunts.LaterRequestOutlivesChain | hunter-rs/src/store.rs:2557-2618 | A chain never settles a request made after it read its repo row, through every run in which it lives on: suspensions, resumes and crashes that leave its transcript included |
| Attention.DealtWithStaysQuiet | hunter-rs/src/store.rs:3303-3345 | Set aside, or engaged without a push, a PR stays unflagged through every mixture of syncs of the same situation, give-ups and engages without a push |
| Attention.SettledStaysQuiet | hunter-rs/src/scheduler.rs:4303-4337 | A settled row stays unflagged through any number of syncs of its situation, comments taken back included |
| Attention.NewsFlagsAgain | hunter-rs/src/scheduler.rs:4306-4340 | After any such mixture without a reply, the next sync is flagged if and only if it brings newer activity, or standing problems that are not the same ones at the same head |
| Attention.UnansweredFlagsAgain | hunter-rs/src/scheduler.rs:4303-4337 | With nothing done about a PR, the next sync of its situation flags it exactly as the last one did |
| Attention.AnsweredFlags | hunter-rs/src/store.rs:3303-3324 | After a finished engage the next sync flags if and only if it brings activity past what the engage read, or past its own reply, or a standing problem - any after a push, else problems that are not the same ones at the same head |
| Attention.FingerprintExact | hunter-rs/src/scheduler.rs:4126-4142 | Two views have the same fingerprint if and only if they agree on changes requested, on conflicts and on the comma-separated pieces of the failing checks' names - on the very names, if none has a comma |
| Attention.CommasHideChecks | hunter-rs/src/scheduler.rs:4135-4136 | With commas in the names a different set of failing checks can read the same, and a PR set aside for the one stays unflagged for the other |
| Attention.ReasonTells | hunter-rs/src/scheduler.rs:4310-4338 | The reason of a flag names exactly what raised it: newer activity, and which of the three problems stands unaddressed |
| Attention.SinceFollowsReason | hunter-rs/src/scheduler.rs:4339-4348 | Through every mixture of syncs, give-ups and engages `attention_since` is the time at which the standing reason first appeared |
| Attention.PrTable.SyncOpen | hunter-rs/src/store.rs:3236-3298 | The sync's branches and its three writes leave exactly the row that `Attention.FingerprintExact`, `ReasonTells` and `FlagsExactly` speak of |
| Attention.PrTable.SetAttentionAside | hunter-rs/src/store.rs:3331-3344 | Only an existing row moves; a synced one is unflagged and settled for its own situation |
| Attention.PrTable.MarkEngaged | hunter-rs/src/store.rs:3303-3324 | Without a push a synced row is settled for its own situation; a push forgets what was addressed |
| Dates.DaysRoundTrip | hunter-rs/src/store.rs:260-271 | Every integer day is a date of the calendar and converts back |
| Dates.DatesRoundTrip | hunter-rs/src/scheduler.rs:4061-4068 | Every valid proleptic Gregorian date converts back |
| Dates.DaysConsecutive | hunter-rs/src/store.rs:258-271 | Consecutive day numbers are consecutive days of the calendar, forwards and backwards without end |
| Dates.EpochIsZero | hunter-rs/src/store.rs:258-262 | Day 0 is 1970-01-01 |
| Dates.NextDayIsNext | hunter-rs/src/scheduler.rs:4061-4068 | The calendar's next day has the next number |
| Dates.OrderPreserved | hunter-rs/src/scheduler.rs:4061-4068 | The order of dates is the order of their numbers |
| Timestamps.ReadsRight | hunter-rs/src/scheduler.rs:3986-4050 | Exactly when a spelling of RFC 3339 section 5.6 is read as the moment it stands for, over all dates, clocks, fractions, zones and both cases of both marks: with `t` only for the moment 0; with `z` behind three fraction digits or more, or one or two zeros, or without a fraction for the moment 0; always otherwise |
| Timestamps.InstantRoundTrip | hunter-rs/src/scheduler.rs:3982-4050 | Printing any moment of the years 0 to 9999 in any zone with upper-case marks and reading it gives the moment back, so all those spellings are equal |
| Timestamps.LowerCaseReadsZero | hunter-rs/src/scheduler.rs:3994-4030 | The failures are real: noon of 2024-01-15 reads as 0 with a `t`, and with a `z` after the seconds |
| Timestamps.LowerZLosesFraction | hunter-rs/src/scheduler.rs:4031-4044 | And a `z` after one digit of fraction takes the fraction along |
| Lookups.LookupCache.Fresh | hunter-rs/src/forge.rs:381-384 | As long as time does not run backwards the purged cache answers as a log that is never purged |
| Lookups.LookupCache.RecordAll | hunter-rs/src/forge.rs:390-403 | A batch drops what has expired once and then holds only fresh answers |
| Lookups.Feedback.ScreenAll | hunter-rs/src/forge.rs:324-364 | Keeps of both lists what listed bots and people with push access wrote, in order and with its voice; asks about each login that needs it exactly once; fails if and only if an answer some item needs is missing, and then keeps nothing of the lists it had taken |
| Lookups.ScreenKeepsSteering | hunter-rs/src/forge.rs:308-348 | Of a list exactly the items are kept whose author is a listed and confirmed bot or can push, in order, each with its voice; the list is given up if and only if an answer that some item needs is missing |
| Render.Substitute | hunter-rs/src/playbooks.rs:28-47 | The loop computes the rendering |
| Render.RenderSubstitutes | hunter-rs/src/playbooks.rs:19-47 | Rendering is token-by-token substitution of the template alone, whatever the values contain; it stops at the first key without a value |
| Render.TemplateOf | hunter-rs/src/playbooks.rs:31-36 | Every string is such a template, unless a slot is left open, and then it never renders |
| Render.LongestRunExact | hunter-rs/src/playbooks.rs:559-563 | The longest run of backticks is a bound and is attained |
| Render.FenceEncloses | hunter-rs/src/playbooks.rs:559-565 | The fence occurs in the block at its last line and nowhere before (CommonMark section 4.5) |

## Left out

- Failed database writes and torn transactions: each transaction is one step
  that succeeds, and a few adjacent writes of one executor (a status and the
  streak it clears, a tree and its pinned commit, a give-up and its count) are
  one step.
- Deletion of a repo with jobs or findings: the source refuses it, so only an
  empty repo is deleted here.
- The budget gate, reservations, the harness's metering and its sessions: a
  grant or a denial, a token count, a transcript or none. A resumed job's
  session file is taken to lie in its chain's session directory.
- Git, the forge's commands, worker prompts, ingest and Renovate: outcomes
  only. Which watched files changed, and which updates a dependency scan
  proposes, retracts or takes for the same move, are inputs of a step.
- How a login is normalised before the bot list is asked, and how a forge's list
  of check runs becomes the sorted names of the failing ones: both are inputs.
- A verdict's `holds_while` line and the reconfirmation file's format.
- The HTTP layer, login, notes, the UI, legacy layouts, retention by
  modification time, statistics queries.
- Clearing a one-shot budget override: the set of overridden findings is an
  input of a selection.
- A worker whose backend call fails leaves its job `running` until the next
  recovery, as in the source; that recovery comes at all is not stated.
- A requeued held fix whose prompt cannot be built, or whose report cannot be
  read, leaves its checkpoint behind a row that nothing resumes; the next fix
  starts fresh. The model has these steps and states nothing more of them.
- Attempts.SameItemAgain: attempts without an operator's or a scan's step on a
  finding in between; where those can move one is `Ownership.StatusMoves`.
- Engages.NextSyncDecides: speaks of the sync of this PR; one that flags another
  PR may put that one first.
- SelectionProofs.PreviewAgrees: one direction. With a reached chain past the
  ceiling the two picks may still coincide, so agreement has no converse.
- Hunts.WatermarkSound: for a history that only grows; a force-push is not
  modelled.
- Rotation.AttemptShrinksBacklog: counts the pairs of cloned repos; what an
  uncloned repo can hold up is `Rotation.UnclonedDoNotStarve`.
- Timestamps.ReadsRight: speaks of section 5.6 timestamps; malformed month and
  day numbers are computed in unbounded integers where the source's 32-bit ones
  would wrap.
- Timestamps.InstantRoundTrip: positions are characters, which are bytes in
  every timestamp the section allows.
- StoreRows.Store.CreateJob: the cap, the estimate, the start time and the two
  hunt columns of the row are left to `Hunts`.
