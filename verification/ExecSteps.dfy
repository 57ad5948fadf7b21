/** An executor at work: from the picked candidate through its job row, its
    tree and its worker to the outcome it records (hunter-rs/src/scheduler.rs). */
module ExecSteps {
  import opened Domain
  import opened Streaks
  import opened Tables
  import opened Suppression
  import opened World

  const TREE_NOT_MADE := "workspace not created"

  /** The steps up to the worker's end. */
  datatype StartStep =
    | Deny                               // the budget gate refused
    | EndsEarly                          // an error before the job: no fetch, no PR view, no budget answer
    | PrefetchFails(key: string)         // harvest_prefetch_failed
    | ClaimFix                           // start_fix: queued -> fixing
    | HoldAgain                          // prepare_blocked_resume: the stale report stays
    | Create                             // create_job
    | MakeTree(sha: nat)                 // open_workspace
    | FailTree
    | CountUnmade(report: string)        // count_unmade_tree, and a recheck's
    | Abandon                            // the prompt could not be built
    | WorkerFails                        // Backend::run failed
    | Record(rr: RunResult)              // record_job
    | RetirePredecessor                  // the session to resume was gone

  /** What a finished engage put on the forge. */
  datatype Publication = Publication(pushed: bool, replied: bool)

  /** What an attempt amounts to, by kind. `EngagePublished(None)` is an
      engage that did not finish, or whose push or comment was refused. */
  datatype OutcomeStep =
    | FixBlocked(report: string, fromTree: bool)
    | FixDeclined(why: Option<ClosureClass>, dependsOn: seq<string>)
    | FixShipped
    | FixPaused
    | FixFailed(key: string, report: string)
    | RecheckPaused
    | RecheckJudged(to: FindingStatus, dependsOn: seq<string>)
    | RecheckFailed(key: string)
    | EngagePublished(published: Option<Publication>)
    | WithdrawRefused
    | WithdrawRow(number: nat)
    | WithdrawStatus
    | Handoff
    | NoHandoff
    | HarvestPaused
    | HarvestFailed(key: string)
    | HarvestMerged
    | HarvestClosed(closure: ClosureClass, sha: nat, dependsOn: seq<string>)
    | Bail                               // the outcome could not be read or recorded
    | ScanEnded
    | RetireConcluded
    | Close

  predicate ReportsFrom(rr: RunResult) {
    rr.killed.None? || rr.killed == Some(Cap) || rr.killed == Some(Wallclock)
    || rr.killed == Some(Unmetered) || rr.killed == Some(ResumeUnavailable)
  }

  predicate StartEnabled(w: World, a: StartStep) {
    match a
    case Deny => w.phase.Picked? && !w.phase.claimed
    case EndsEarly => w.phase.Picked? && !w.phase.claimed
    case PrefetchFails(_) =>
      && w.phase.Picked? && w.phase.kind.Harvest? && w.phase.finding.Some?
      && w.phase.finding.value in w.t.findings && w.t.findings[w.phase.finding.value].pr.Some?
    case ClaimFix => w.phase.Picked? && w.phase.kind.Fix? && !w.phase.claimed && w.phase.finding.Some?
                     && w.phase.finding.value in w.t.findings
    case HoldAgain =>
      && w.phase.Picked? && w.phase.claimed && w.phase.resume.Some? && w.phase.resume.value < |w.t.jobs|
      && w.t.jobs[w.phase.resume.value].blocker.Some?
      && w.phase.finding.Some? && w.phase.finding.value in w.t.findings
    case Create =>
      && w.phase.Picked? && (w.phase.kind.Fix? ==> w.phase.claimed)
      && w.phase.repo !in w.t.deleted
      && (w.phase.resume.Some? ==> w.phase.resume.value < |w.t.jobs|)
    case MakeTree(_) => w.phase.Opening? && w.phase.job < |w.t.jobs|
    case FailTree => w.phase.Opening? && w.phase.job < |w.t.jobs|
    case CountUnmade(_) => w.phase.Unmade? && HasFinding(w, w.phase.job)
    case Abandon => w.phase.Working? && w.phase.job < |w.t.jobs|
                    && (w.t.jobs[w.phase.job].kind.Fix? ==> HasFinding(w, w.phase.job))
    case WorkerFails => w.phase.Working? && w.phase.job < |w.t.jobs|
                        && (w.t.jobs[w.phase.job].kind.Fix? ==> HasFinding(w, w.phase.job))
    case Record(rr) => w.phase.Working? && w.phase.job < |w.t.jobs| && ReportsFrom(rr)
    case RetirePredecessor =>
      && w.phase.Recorded? && !w.phase.handoff && w.phase.job < |w.t.jobs|
      && w.t.jobs[w.phase.job].reason == Some(ResumeUnavailable)
      && w.t.jobs[w.phase.job].resumedFrom.Some? && w.t.jobs[w.phase.job].resumedFrom.value < |w.t.jobs|
  }

  predicate HasFinding(w: World, c: nat) {
    c < |w.t.jobs| && w.t.jobs[c].finding.Some? && w.t.jobs[c].finding.value in w.t.findings
  }

  function ReleaseClaim(t: Tables, f: nat): Tables
    requires f in t.findings
  {
    Claim(t, f, Fixing, Queued)
  }

  function StartNext(w: World, a: StartStep): World
    requires StartEnabled(w, a)
  {
    match a
    case Deny => w.(t := NoteDenial(w.t, w.phase.kind, w.phase.finding), phase := Between)
    case EndsEarly => w.(phase := Between)
    case PrefetchFails(key) => w.(t := RecordHarvestFailure(w.t, w.phase.finding.value, key), phase := Between)
    case ClaimFix =>
      if w.t.findings[w.phase.finding.value].status.Queued?
      then w.(t := SetStatus(w.t, w.phase.finding.value, Fixing), phase := w.phase.(claimed := true))
      else w.(phase := Between)
    case HoldAgain =>
      var p := w.phase.resume.value;
      w.(t := BlockFixJob(w.t, w.phase.finding.value, p, w.t.jobs[p].blocker.value), phase := Between)
    case Create =>
      w.(t := CreateJob(w.t, w.phase.kind, w.phase.repo, w.phase.finding, w.phase.resume),
         phase := if w.phase.resume.Some? then Working(|w.t.jobs|, false) else Opening(|w.t.jobs|))
    case MakeTree(sha) =>
      var c := w.phase.job;
      w.(t := SetJob(w.t, c, w.t.jobs[c].(pinned := Some(sha))), trees := w.trees + {c}, phase := Working(c, false))
    case FailTree =>
      var c := w.phase.job;
      w.(t := SetJob(w.t, c, w.t.jobs[c].(state := Failed)),
         phase := if w.t.jobs[c].kind.Fix? || w.t.jobs[c].kind.Recheck? then Unmade(c) else Between)
    case CountUnmade(report) =>
      var c := w.phase.job;
      var f := w.t.jobs[c].finding.value;
      if w.t.jobs[c].kind.Fix?
      then w.(t := ReleaseClaim(RecordFixFailure(w.t, f, c, TREE_NOT_MADE, report), f), phase := Between)
      else w.(t := RecordRecheckFailure(w.t, f, TREE_NOT_MADE), phase := Between)
    case Abandon =>
      if w.t.jobs[w.phase.job].kind.Fix?
      then w.(t := ReleaseClaim(w.t, w.t.jobs[w.phase.job].finding.value), phase := Between)
      else w.(phase := Between)
    case WorkerFails =>
      var c := w.phase.job;
      if !w.t.jobs[c].kind.Fix? then w.(phase := Between)
      else
        var f := w.t.jobs[c].finding.value;
        w.(t := if w.t.jobs[c].blocker.Some? then BlockFixJob(w.t, f, c, w.t.jobs[c].blocker.value)
                else ReleaseClaim(w.t, f),
           phase := Between)
    case Record(rr) =>
      var c := w.phase.job;
      w.(t := SetJob(w.t, c, Completed(w.t.jobs[c], rr)), phase := Recorded(c, w.phase.handoff))
    case RetirePredecessor =>
      var p := w.t.jobs[w.phase.job].resumedFrom.value;
      w.(t := SetJob(w.t, p, Retired(w.t.jobs[p], Killed, None)))
  }

  /** A denied attempt is no failure: the history notes it, the streak
      stays. */
  function NoteDenial(t: Tables, kind: JobKind, finding: Option<nat>): Tables {
    if finding.None? || finding.value !in t.findings then t
    else
      var row := t.findings[finding.value];
      if kind.Fix? then SetFinding(t, finding.value, row.(fix := Streaks.Deny(row.fix)))
      else if kind.Recheck? then SetFinding(t, finding.value, row.(recheck := Streaks.Deny(row.recheck)))
      else if kind.Harvest? && row.pr.Some?
      then SetFinding(t, finding.value, row.(pr := Some(row.pr.value.(harvest := Streaks.Deny(row.pr.value.harvest)))))
      else t
  }

  // ------------------------------------------------------------------
  // Outcomes
  // ------------------------------------------------------------------

  predicate RecordedAs(w: World, kind: JobKind) {
    w.phase.Recorded? && HasFinding(w, w.phase.job) && w.t.jobs[w.phase.job].kind == kind
  }

  predicate OutcomeEnabled(w: World, a: OutcomeStep) {
    match a
    case FixBlocked(report, fromTree) =>
      && RecordedAs(w, Fix)
      && (fromTree || (!w.t.jobs[w.phase.job].state.Done? && w.t.jobs[w.phase.job].blocker == Some(report)))
    case FixDeclined(_, _) => RecordedAs(w, Fix)
    case FixShipped => RecordedAs(w, Fix)
    case FixPaused =>
      RecordedAs(w, Fix) && w.t.jobs[w.phase.job].state.Suspended? && w.t.jobs[w.phase.job].blocker.None?
    case FixFailed(_, _) =>
      && RecordedAs(w, Fix) && !w.t.jobs[w.phase.job].state.Suspended?
      && (w.t.jobs[w.phase.job].state.Done? || w.t.jobs[w.phase.job].blocker.None?)
    case RecheckPaused => RecordedAs(w, Recheck) && w.t.jobs[w.phase.job].state.Suspended?
    case RecheckJudged(to, _) =>
      RecordedAs(w, Recheck) && w.t.jobs[w.phase.job].state.Done? && (to.New? || to.Superseded? || to.Rejected?)
    case RecheckFailed(_) => RecordedAs(w, Recheck) && !w.t.jobs[w.phase.job].state.Suspended?
    case EngagePublished(published) =>
      RecordedAs(w, Engage) && (published.Some? ==> w.t.jobs[w.phase.job].state.Done?)
    case WithdrawRefused => RecordedAs(w, Engage)
    case WithdrawRow(_) => RecordedAs(w, Engage)
    case WithdrawStatus =>
      && RecordedAs(w, Engage)
      && var row := w.t.findings[w.t.jobs[w.phase.job].finding.value]; row.pr.Some? && row.pr.value.end.ClosedPr?
    case Handoff =>
      w.phase.Withdrawn? && HasFinding(w, w.phase.job) && !w.t.jobs[w.phase.job].state.Suspended?
      && w.t.jobs[w.phase.job].repo !in w.t.deleted
    case NoHandoff => w.phase.Withdrawn? && w.phase.job < |w.t.jobs| && !w.t.jobs[w.phase.job].state.Suspended?
    case HarvestPaused => RecordedAs(w, Harvest) && w.t.jobs[w.phase.job].state.Suspended?
    case HarvestFailed(_) => RecordedAs(w, Harvest) && !w.t.jobs[w.phase.job].state.Suspended? && RowOf(w).Some?
    case HarvestMerged => RecordedAs(w, Harvest) && w.t.jobs[w.phase.job].state.Done? && RowOf(w).Some?
                          && !RowOf(w).value.end.ClosedPr?
    case HarvestClosed(_, _, _) => RecordedAs(w, Harvest) && w.t.jobs[w.phase.job].state.Done? && RowOf(w).Some?
                                && RowOf(w).value.end.ClosedPr?
    case Bail =>
      && w.phase.Recorded? && w.phase.job < |w.t.jobs|
      && (w.t.jobs[w.phase.job].kind.Fix? ==> HasFinding(w, w.phase.job))
    case ScanEnded => w.phase.Recorded? && w.phase.job < |w.t.jobs| && !IsFindingKind(w.t.jobs[w.phase.job].kind)
    case RetireConcluded =>
      (w.phase.Concluded? || w.phase.Withdrawn?) && w.phase.job < |w.t.jobs| && w.t.jobs[w.phase.job].state.Suspended?
    case Close =>
      || w.phase.Closing?
      || (w.phase.Concluded? && w.phase.job < |w.t.jobs| && !w.t.jobs[w.phase.job].state.Suspended?)
  }

  function RowOf(w: World): Option<PrRow>
    requires w.phase.Recorded? && HasFinding(w, w.phase.job)
  {
    w.t.findings[w.t.jobs[w.phase.job].finding.value].pr
  }

  /** The commit a chain's verdict was judged at. */
  function JudgedAt(j: Job): nat {
    if j.pinned.Some? then j.pinned.value else 0
  }

  function OutcomeNext(w: World, a: OutcomeStep): World
    requires OutcomeEnabled(w, a)
  {
    match a
    case Bail =>
      w.(t := if w.t.jobs[w.phase.job].kind.Fix? then ReleaseClaim(w.t, w.t.jobs[w.phase.job].finding.value) else w.t,
         phase := Between)
    case ScanEnded => w.(phase := Closing(w.phase.job))
    case NoHandoff => w.(phase := Closing(w.phase.job))
    case RetireConcluded =>
      w.(t := SetJob(w.t, w.phase.job, Retired(w.t.jobs[w.phase.job], Killed, None)))
    case Close => if w.phase.Concluded? then w.(phase := Closing(w.phase.job)) else w.(phase := Between)
    case Handoff =>
      var e := w.t.jobs[w.phase.job];
      w.(t := CreateJob(w.t, Harvest, e.repo, e.finding, Some(w.phase.job)), phase := Working(|w.t.jobs|, true))
    case _ => FindingOutcome(w, a)
  }

  function FindingOutcome(w: World, a: OutcomeStep): World
    requires OutcomeEnabled(w, a)
    requires !a.Bail? && !a.ScanEnded? && !a.NoHandoff? && !a.RetireConcluded? && !a.Close? && !a.Handoff?
  {
    var c := w.phase.job;
    var f := w.t.jobs[c].finding.value;
    var row := w.t.findings[f];
    match a
    case FixBlocked(report, _) => w.(t := BlockFixJob(w.t, f, c, report), phase := Closing(c))
    case FixDeclined(why, dependsOn) =>
      w.(t := SetFinding(w.t, f, Declined(row, why, JudgedAt(w.t.jobs[c]), dependsOn)),
         phase := Concluded(c))
    case FixShipped => w.(t := SetFinding(w.t, f, row.(status := PrOpen, fix := Clear(row.fix))), phase := Concluded(c))
    case FixPaused =>
      w.(t := ReleaseClaim(SetFinding(w.t, f, row.(fix := Pause(row.fix))), f), phase := Closing(c))
    case FixFailed(key, report) =>
      w.(t := ReleaseClaim(RecordFixFailure(w.t, f, c, key, report), f), phase := Closing(c))
    case RecheckPaused => w.(t := SetFinding(w.t, f, row.(recheck := Pause(row.recheck))), phase := Between)
    case RecheckJudged(to, dependsOn) =>
      var anchor := VerdictAnchor(to, JudgedAt(w.t.jobs[c]), row.file, dependsOn);
      w.(t := SetFinding(w.t, f,
           if to.New? then row.(status := New, recheck := Clear(row.recheck))
           else Judged(row, to, anchor, Worker).(recheck := Clear(row.recheck))),
         phase := Between)
    case RecheckFailed(key) => w.(t := RecordRecheckFailure(w.t, f, key), phase := Between)
    case EngagePublished(published) =>
      if w.t.jobs[c].state.Done? && published.None?
      then w.(t := SetJob(w.t, c, w.t.jobs[c].(state := Failed)), phase := Closing(c))
      else w.(phase := Closing(c))
    case WithdrawRefused => w.(phase := Concluded(c))
    case WithdrawRow(number) => w.(t := SetFinding(w.t, f, row.(pr := Some(UpsertPr(row.pr, number, ClosedPr, false)))))
    case WithdrawStatus => w.(t := SetFinding(w.t, f, Judged(row, Closed, None, Worker)), phase := Withdrawn(c))
    case HarvestPaused =>
      w.(t := if row.pr.None? then w.t
              else SetFinding(w.t, f, row.(pr := Some(row.pr.value.(harvest := Pause(row.pr.value.harvest))))),
         phase := Between)
    case HarvestFailed(key) =>
      w.(t := if w.phase.handoff then w.t else RecordHarvestFailure(w.t, f, key), phase := Between)
    case HarvestMerged =>
      w.(t := SetFinding(w.t, f,
        row.(pr := Some(row.pr.value.(harvested := true, harvest := Clear(row.pr.value.harvest))))),
         phase := Between)
    case HarvestClosed(closure, sha, dependsOn) =>
      w.(t := RecordClosedHarvest(w.t, f, ClosureStatus(closure), sha, dependsOn), phase := Between)
  }
}
