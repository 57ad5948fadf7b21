/** Who may move a finding, and what each failure counter does to its tier:
    facts about every step from every reachable state. */
module Ownership {
  import opened Domain
  import opened Chains
  import opened Streaks
  import opened Tables
  import opened Suppression
  import opened World
  import opened Runs
  import O = OperatorSteps
  import D = DaemonSteps
  import S = SelectSteps
  import E = ExecSteps

  // ------------------------------------------------------------------
  // The transition table
  // ------------------------------------------------------------------

  predicate OutsideMoves(o: O.OutsideStep, a: FindingStatus, b: FindingStatus) {
    match o
    case Verdict(_, to, _) => AwaitsVerdict(a) && IsVerdict(b) && b == to
    case AskRecheck(_) => a.New? && b.Rechecking?
    case Unqueue(_) => a.Queued? && b.New?
    case Reopen(_, _) => IsSuppressed(a) && b.New?
    case RefreshDep(_) => a.Superseded? && b.New?
    case RetractDep(_) => a.New? && b.Superseded?
    case HandOverDep(_, _) => (a.Queued? && b.Superseded?) || (a.New? && b.Queued?)
    case _ => false
  }

  predicate SelectMoves(s: S.SelectStep, a: FindingStatus, b: FindingStatus) {
    match s
    case SyncStatus(_, to) => a.PrOpen? && b == to && (b.Queued? || b.Merged? || b.Closed?)
    case GiveUpCounted(_, _, _) => (a.Queued? && b.Blocked?) || (a.Rechecking? && b.New?)
    case _ => false
  }

  predicate StartMoves(s: E.StartStep, a: FindingStatus, b: FindingStatus) {
    match s
    case ClaimFix => a.Queued? && b.Fixing?
    case HoldAgain => a.Fixing? && b.Blocked?
    case CountUnmade(_) => (a.Fixing? && (b.Queued? || b.Blocked?)) || (a.Rechecking? && b.New?)
    case Abandon => a.Fixing? && b.Queued?
    case WorkerFails => a.Fixing? && (b.Queued? || b.Blocked?)
    case _ => false
  }

  predicate OutcomeMoves(s: E.OutcomeStep, a: FindingStatus, b: FindingStatus) {
    match s
    case FixBlocked(_, _) => a.Fixing? && b.Blocked?
    case FixDeclined(why, _) => a.Fixing? && b == DeclineStatus(why)
    case FixShipped => a.Fixing? && b.PrOpen?
    case FixPaused => a.Fixing? && b.Queued?
    case Bail => a.Fixing? && b.Queued?
    case FixFailed(_, _) => a.Fixing? && (b.Queued? || b.Blocked?)
    case RecheckJudged(to, _) => a.Rechecking? && b == to && (b.New? || b.Superseded? || b.Rejected?)
    case RecheckFailed(_) => a.Rechecking? && b.New?
    case WithdrawStatus => a.PrOpen? && b.Closed?
    case HarvestClosed(closure, _, _) => a.Closed? && b == ClosureStatus(closure)
    case _ => false
  }

  predicate Moves(x: Step, a: FindingStatus, b: FindingStatus) {
    match x
    case Outside(o) => OutsideMoves(o, a, b)
    case Daemon(d) => d.RequeueStuck? && a.Fixing? && b.Queued?
    case Select(s) => SelectMoves(s, a, b)
    case Start(s) => StartMoves(s, a, b)
    case Outcome(s) => OutcomeMoves(s, a, b)
  }

  /** A job at work finds its finding where it left it. */
  ghost predicate AtWork(w: World) {
    && (w.phase.Recorded? && E.HasFinding(w, w.phase.job) ==>
          WorkedOn(w.t.jobs[w.phase.job].kind, w.t.findings[w.t.jobs[w.phase.job].finding.value].status))
    && (w.phase.Unmade? && E.HasFinding(w, w.phase.job) ==>
          (w.t.jobs[w.phase.job].kind.Fix? || w.t.jobs[w.phase.job].kind.Recheck?)
          && WorkedOn(w.t.jobs[w.phase.job].kind, w.t.findings[w.t.jobs[w.phase.job].finding.value].status))
    && (w.phase.Working? && E.HasFinding(w, w.phase.job) && w.t.jobs[w.phase.job].kind.Fix? ==>
          w.t.findings[w.t.jobs[w.phase.job].finding.value].status.Fixing?)
    && (w.phase.Picked? && w.phase.claimed && w.phase.finding.Some? && w.phase.finding.value in w.t.findings ==>
          w.t.findings[w.phase.finding.value].status.Fixing?)
  }

  predicate WorkedOn(k: JobKind, s: FindingStatus) {
    (k.Fix? ==> s.Fixing?) && (k.Recheck? ==> s.Rechecking?) && (k.Engage? ==> s.PrOpen?)
  }

  lemma InvAtWork(w: World)
    requires Inv(w)
    ensures AtWork(w)
  {}

  predicate OfFix(b: E.OutcomeStep) {
    b.FixBlocked? || b.FixDeclined? || b.FixShipped? || b.FixPaused? || b.FixFailed? || b.Bail?
  }

  lemma FixOutcomeStatus(w: World, b: E.OutcomeStep, f: nat)
    requires AtWork(w) && E.OutcomeEnabled(w, b) && f in w.t.findings && OfFix(b)
    ensures var t' := E.OutcomeNext(w, b).t;
      && f in t'.findings
      && (t'.findings[f].status == w.t.findings[f].status
          || OutcomeMoves(b, w.t.findings[f].status, t'.findings[f].status))
  {}

  lemma OutcomeStatus(w: World, b: E.OutcomeStep, f: nat)
    requires AtWork(w) && E.OutcomeEnabled(w, b) && f in w.t.findings
    ensures var t' := E.OutcomeNext(w, b).t;
      && f in t'.findings
      && (t'.findings[f].status == w.t.findings[f].status
          || OutcomeMoves(b, w.t.findings[f].status, t'.findings[f].status))
  {
    if OfFix(b) { FixOutcomeStatus(w, b, f); }
  }

  lemma StartStatus(w: World, a: E.StartStep, f: nat)
    requires AtWork(w) && E.StartEnabled(w, a) && f in w.t.findings
    ensures var t' := E.StartNext(w, a).t;
      && f in t'.findings
      && (t'.findings[f].status == w.t.findings[f].status
          || StartMoves(a, w.t.findings[f].status, t'.findings[f].status))
  {}

  lemma OutsideStatus(w: World, o: O.OutsideStep, f: nat)
    requires O.Enabled(w, o) && f in w.t.findings
    ensures var t' := O.Next(w, o).t;
      && f in t'.findings
      && (t'.findings[f].status == w.t.findings[f].status
          || OutsideMoves(o, w.t.findings[f].status, t'.findings[f].status))
  {}

  lemma SelectStatus(w: World, s: S.SelectStep, f: nat)
    requires S.Enabled(w, s) && f in w.t.findings
    ensures var t' := S.Next(w, s).t;
      && f in t'.findings
      && (t'.findings[f].status == w.t.findings[f].status
          || SelectMoves(s, w.t.findings[f].status, t'.findings[f].status))
  {}

  lemma DaemonStatus(w: World, d: D.DaemonStep, f: nat)
    requires D.Enabled(w, d) && f in w.t.findings
    ensures var t' := D.Next(w, d).t;
      && f in t'.findings
      && (t'.findings[f].status == w.t.findings[f].status
          || Moves(Daemon(d), w.t.findings[f].status, t'.findings[f].status))
  {}

  /** Every status change anywhere in the system is one of the table's, and each
      starts from the status its party works at: none moves a finding from a
      status another party put it in meanwhile. The one step that takes
      another party's decision back is a dependency scan's, which hands a
      queued update over to the finding it proposes in its place. */
  lemma StatusMoves(w: World, x: Step, f: nat)
    requires Reachable(w) && Enabled(w, x) && f in w.t.findings
    ensures f in Next(w, x).t.findings
    ensures var a, b := w.t.findings[f].status, Next(w, x).t.findings[f].status;
      a == b || Moves(x, a, b)
  {
    ReachableOk(w);
    InvAtWork(w);
    match x
    case Outside(o) => OutsideStatus(w, o, f);
    case Daemon(d) => DaemonStatus(w, d, f);
    case Select(s) => SelectStatus(w, s, f);
    case Start(a) => StartStatus(w, a, f);
    case Outcome(b) => OutcomeStatus(w, b, f);
  }

  // ------------------------------------------------------------------
  // Claims and holds
  // ------------------------------------------------------------------

  /** While a finding is claimed the scheduler is at the fix that claimed it,
      or recovery has yet to come. */
  lemma ClaimIsHeld(w: World, f: nat)
    requires Reachable(w) && f in w.t.findings && w.t.findings[f].status.Fixing?
    ensures Unreconciled(w.phase) || FixOwner(w) == Some(f)
  {
    ReachableOk(w);
  }

  /** Once a fix has claimed a finding, only that fix moves it, or recovery
      after the process died. */
  lemma ClaimedIsOwned(w: World, x: Step, f: nat)
    requires Reachable(w) && Enabled(w, x) && f in w.t.findings && w.t.findings[f].status.Fixing?
    ensures f in Next(w, x).t.findings
    ensures Next(w, x).t.findings[f].status.Fixing?
      || x == Daemon(D.RequeueStuck(f))
      || ((x.Start? || x.Outcome?) && FixOwner(w) == Some(f))
  {
    StatusMoves(w, x, f);
    ClaimIsHeld(w, f);
  }

  /** A fix that lost the race for its finding writes nothing. */
  lemma LostClaimWritesNothing(w: World)
    requires Reachable(w) && E.StartEnabled(w, E.ClaimFix) && !w.t.findings[w.phase.finding.value].status.Queued?
    ensures E.StartNext(w, E.ClaimFix) == w.(phase := Between)
  {}

  /** A held finding has one checkpoint, and no other live fix. */
  lemma HeldByOneCheckpoint(w: World, f: nat) returns (j: nat)
    requires Reachable(w) && f in w.t.findings && w.t.findings[f].status.Blocked?
    ensures Checkpoint(w.t, f, j)
    ensures forall i: nat
      | i < |w.t.jobs| && Live(w.t.jobs, i) && w.t.jobs[i].kind.Fix? && w.t.jobs[i].finding == Some(f) ::
      i == j
  {
    ReachableOk(w);
    assert HasCheckpoint(w.t, f);
    j :| Checkpoint(w.t, f, j);
    assert Alone(w.t.jobs, j);
  }

  /** Only the operator takes a finding off hold. */
  lemma HoldNeedsOperator(w: World, x: Step, f: nat)
    requires Reachable(w) && Enabled(w, x) && f in w.t.findings && w.t.findings[f].status.Blocked?
    ensures f in Next(w, x).t.findings
    ensures Next(w, x).t.findings[f].status.Blocked? || (x.Outside? && x.o.Verdict?)
  {
    StatusMoves(w, x, f);
  }

  /** The report a chain is held on stays with every later link. */
  lemma HoldIsInherited(w: World, p: nat, j: nat)
    requires Reachable(w) && p < |w.t.jobs| && j < |w.t.jobs| && w.t.jobs[j].resumedFrom == Some(p)
    ensures w.t.jobs[p].blocker.Some? ==> w.t.jobs[j].blocker.Some? && w.t.jobs[j].kind.Fix?
  {
    ReachableOk(w);
    assert RowOk(w.t, j) && RowOk(w.t, p);
  }

  // ------------------------------------------------------------------
  // Final verdicts and their anchors
  // ------------------------------------------------------------------

  /** An anchor belongs to a rejection a worker gave. */
  lemma AnchorMarksWorkerRejection(w: World, f: nat)
    requires Reachable(w) && f in w.t.findings && w.t.findings[f].anchor.Some?
    ensures w.t.findings[f].status.Rejected? && w.t.findings[f].judge.Worker?
  {
    ReachableOk(w);
    assert FindingOk(w.t, w.t.findings[f]);
  }

  lemma OutcomeLeavesSuppressed(w: World, b: E.OutcomeStep, f: nat)
    requires AtWork(w) && E.OutcomeEnabled(w, b) && f in w.t.findings && IsSuppressed(w.t.findings[f].status)
    ensures var t' := E.OutcomeNext(w, b).t; f in t'.findings && t'.findings[f].anchor == w.t.findings[f].anchor
  {}

  lemma StartLeavesSuppressed(w: World, a: E.StartStep, f: nat)
    requires E.StartEnabled(w, a) && f in w.t.findings
    ensures var t' := E.StartNext(w, a).t; f in t'.findings && t'.findings[f].anchor == w.t.findings[f].anchor
  {}

  lemma AnchorStays(w: World, x: Step, f: nat)
    requires AtWork(w) && Enabled(w, x) && f in w.t.findings && IsSuppressed(w.t.findings[f].status)
    requires w.t.findings[f].anchor.None?
    ensures f in Next(w, x).t.findings && Next(w, x).t.findings[f].anchor.None?
  {
    match x
    case Outside(o) =>
    case Daemon(d) =>
    case Select(s) => SelectLeavesSuppressed(w, s, f);
    case Start(a) => StartLeavesSuppressed(w, a, f);
    case Outcome(b) => OutcomeLeavesSuppressed(w, b, f);
  }

  lemma SelectLeavesSuppressed(w: World, s: S.SelectStep, f: nat)
    requires S.Enabled(w, s) && f in w.t.findings && w.t.findings[f].anchor.None?
    ensures var t' := S.Next(w, s).t; f in t'.findings && t'.findings[f].anchor.None?
  {}

  /** A rejected or unwanted finding only ever comes back through a scan that
      finds its anchor changed, and loses the anchor with that. */
  lemma SuppressedLeavesByReopen(w: World, x: Step, f: nat)
    requires Reachable(w) && Enabled(w, x) && f in w.t.findings && IsSuppressed(w.t.findings[f].status)
    ensures f in Next(w, x).t.findings
    ensures var row, row' := w.t.findings[f], Next(w, x).t.findings[f];
      || (row'.status == row.status && (row.anchor.None? ==> row'.anchor.None?))
      || (x.Outside? && x.o.Reopen? && x.o.f == f && row.status.Rejected? && row.judge.Worker?
          && row.anchor.Some? && Lapsed(row.anchor.value, x.o.diff)
          && row'.status.New? && row'.anchor.None?)
  {
    StatusMoves(w, x, f);
    if w.t.findings[f].anchor.Some? {
      AnchorMarksWorkerRejection(w, f);
    } else {
      ReachableOk(w);
      InvAtWork(w);
      AnchorStays(w, x, f);
    }
  }

  ghost predicate Final(w: World, f: nat) {
    && f in w.t.findings && w.t.findings[f].anchor.None? && IsSuppressed(w.t.findings[f].status)
  }

  /** A verdict without an anchor stands for the rest of every run: every
      `wontfix`, and every rejection the operator gave. */
  lemma {:induction false} FinalForGood(w: World, f: nat, xs: seq<Step>)
    requires Reachable(w) && Final(w, f) && After(w, xs).Some?
    ensures Final(After(w, xs).value, f) && After(w, xs).value.t.findings[f].status == w.t.findings[f].status
    decreases |xs|
  {
    if xs != [] {
      VerdictStands(w, xs[0], f);
      StepReaches(w, xs[0]);
      FinalForGood(Next(w, xs[0]), f, xs[1..]);
    }
  }

  lemma VerdictStands(w: World, x: Step, f: nat)
    requires Reachable(w) && Final(w, f) && Enabled(w, x)
    ensures Final(Next(w, x), f) && Next(w, x).t.findings[f].status == w.t.findings[f].status
  {
    SuppressedLeavesByReopen(w, x, f);
  }

  // ------------------------------------------------------------------
  // Failure counters
  // ------------------------------------------------------------------

  /** One more failure: the work stays while fewer than three identical ones
      end the history, and is gone with the third. */
  predicate FailedOnce(s: Streak, s': Streak, key: string, stays: bool, gone: bool) {
    if TrailingRun(s.log, key) + 1 < MAX_SAME_FAILURE then s' == Fail(s, key) && stays
    else s' == Clear(Fail(s, key)) && gone
  }

  ghost predicate StreakStep(s: Streak, s': Streak, stays: bool, gone: bool) {
    || s' == s || s' == Clear(s) || s' == Pause(s) || s' == Deny(s)
    || exists key :: FailedOnce(s, s', key, stays, gone)
  }

  lemma FailCounts(s: Streak, key: string)
    requires Faithful(s)
    ensures Fail(s, key).count == TrailingRun(s.log, key) + 1
  {
    if s.last != Some(key) { OtherKeysRestart(s.log, key); }
  }

  ghost predicate FixStep(t: Tables, t': Tables, f: nat) {
    && f in t.findings && f in t'.findings
    && StreakStep(t.findings[f].fix, t'.findings[f].fix, S.InTier(t', Fix, f), !S.InTier(t', Fix, f))
  }

  ghost predicate RecheckStep(t: Tables, t': Tables, f: nat) {
    && f in t.findings && f in t'.findings
    && StreakStep(t.findings[f].recheck, t'.findings[f].recheck, S.InTier(t', Recheck, f), !S.InTier(t', Recheck, f))
  }

  ghost predicate HarvestStep(t: Tables, t': Tables, f: nat) {
    && f in t.findings && f in t'.findings
    && (t.findings[f].pr.Some? ==>
          && t'.findings[f].pr.Some?
          && var h, h' := t.findings[f].pr.value, t'.findings[f].pr.value;
             StreakStep(h.harvest, h'.harvest, h'.harvested == h.harvested, h'.harvested && !S.InTier(t', Harvest, f)))
  }

  lemma FixFailureCounts(t: Tables, f: nat, j: nat, key: string, report: string)
    requires f in t.findings && j < |t.jobs| && Faithful(t.findings[f].fix)
    requires t.findings[f].status.Queued? || t.findings[f].status.Fixing?
    ensures FixStep(t, E.ReleaseClaim(RecordFixFailure(t, f, j, key, report), f), f)
    ensures t.findings[f].status.Queued? ==> FixStep(t, RecordFixFailure(t, f, j, key, report), f)
  {
    FailCounts(t.findings[f].fix, key);
    var t' := E.ReleaseClaim(RecordFixFailure(t, f, j, key, report), f);
    assert FailedOnce(t.findings[f].fix, t'.findings[f].fix, key, S.InTier(t', Fix, f), !S.InTier(t', Fix, f));
  }

  lemma RecheckFailureCounts(t: Tables, f: nat, key: string)
    requires f in t.findings && Faithful(t.findings[f].recheck) && t.findings[f].status.Rechecking?
    ensures RecheckStep(t, RecordRecheckFailure(t, f, key), f)
  {
    FailCounts(t.findings[f].recheck, key);
    var t' := RecordRecheckFailure(t, f, key);
    var stays := S.InTier(t', Recheck, f);
    assert FailedOnce(t.findings[f].recheck, t'.findings[f].recheck, key, stays, !stays);
  }

  lemma HarvestFailureCounts(t: Tables, f: nat, key: string)
    requires f in t.findings && t.findings[f].pr.Some? && Faithful(t.findings[f].pr.value.harvest)
    ensures HarvestStep(t, RecordHarvestFailure(t, f, key), f)
  {
    var t' := RecordHarvestFailure(t, f, key);
    var h, h' := t.findings[f].pr.value, t'.findings[f].pr.value;
    FailCounts(h.harvest, key);
    var gone := h'.harvested && !S.InTier(t', Harvest, f);
    assert FailedOnce(h.harvest, h'.harvest, key, h'.harvested == h.harvested, gone);
  }

  /** No streak of `f` moves. */
  predicate SameStreaks(t: Tables, t': Tables, f: nat) {
    && f in t.findings && f in t'.findings
    && t'.findings[f].fix == t.findings[f].fix && t'.findings[f].recheck == t.findings[f].recheck
    && t'.findings[f].pr == t.findings[f].pr
  }

  /** The streaks of `f` say what their histories say. */
  predicate StreaksOk(t: Tables, f: nat) {
    f in t.findings ==>
      && Faithful(t.findings[f].fix) && Faithful(t.findings[f].recheck)
      && (t.findings[f].pr.Some? ==> Faithful(t.findings[f].pr.value.harvest))
  }

  lemma SelectCounters(w: World, s: S.SelectStep, f: nat)
    requires StreaksOk(w.t, f) && S.Enabled(w, s) && f in w.t.findings
    ensures FixStep(w.t, S.Next(w, s).t, f) && RecheckStep(w.t, S.Next(w, s).t, f)
    ensures HarvestStep(w.t, S.Next(w, s).t, f)
  {
    if s.GiveUpCounted? && w.t.jobs[s.job].finding.value == f {
      var t1 := S.GivenUp(w.t, s.job);
      assert t1.findings == w.t.findings;
      if w.t.jobs[s.job].kind.Fix? {
        FixFailureCounts(t1, f, s.job, S.CHAIN_GAVE_UP, s.report);
      } else if w.t.jobs[s.job].kind.Recheck? {
        RecheckFailureCounts(t1, f, S.CHAIN_GAVE_UP);
      } else if w.t.jobs[s.job].kind.Harvest? {
        HarvestFailureCounts(t1, f, S.CHAIN_GAVE_UP);
      }
    }
  }

  lemma StartCounters(w: World, a: E.StartStep, f: nat)
    requires AtWork(w) && StreaksOk(w.t, f) && E.StartEnabled(w, a) && f in w.t.findings
    ensures FixStep(w.t, E.StartNext(w, a).t, f) && RecheckStep(w.t, E.StartNext(w, a).t, f)
            && HarvestStep(w.t, E.StartNext(w, a).t, f)
  {
    match a
    case PrefetchFails(key) => if w.phase.finding == Some(f) { HarvestFailureCounts(w.t, f, key); }
    case CountUnmade(report) =>
      var c := w.phase.job;
      if w.t.jobs[c].finding == Some(f) {
        if w.t.jobs[c].kind.Fix? {
          FixFailureCounts(w.t, f, c, E.TREE_NOT_MADE, report);
        } else {
          RecheckFailureCounts(w.t, f, E.TREE_NOT_MADE);
        }
      }
    case _ =>
  }

  lemma FixOutcomeCounter(w: World, b: E.OutcomeStep, f: nat)
    requires AtWork(w) && StreaksOk(w.t, f) && E.OutcomeEnabled(w, b) && f in w.t.findings && OfFix(b)
    ensures FixStep(w.t, E.OutcomeNext(w, b).t, f) && RecheckStep(w.t, E.OutcomeNext(w, b).t, f)
  {
    if b.FixFailed? && w.t.jobs[w.phase.job].finding == Some(f) {
      FixFailureCounts(w.t, f, w.phase.job, b.key, b.report);
    }
  }

  lemma RecheckOutcomeCounter(w: World, b: E.OutcomeStep, f: nat)
    requires AtWork(w) && StreaksOk(w.t, f) && E.OutcomeEnabled(w, b) && f in w.t.findings && !OfFix(b)
    ensures FixStep(w.t, E.OutcomeNext(w, b).t, f) && RecheckStep(w.t, E.OutcomeNext(w, b).t, f)
  {
    if b.RecheckFailed? && w.t.jobs[w.phase.job].finding == Some(f) { RecheckFailureCounts(w.t, f, b.key); }
  }

  lemma OutcomeCounters(w: World, b: E.OutcomeStep, f: nat)
    requires AtWork(w) && StreaksOk(w.t, f) && E.OutcomeEnabled(w, b) && f in w.t.findings
    ensures FixStep(w.t, E.OutcomeNext(w, b).t, f) && RecheckStep(w.t, E.OutcomeNext(w, b).t, f)
    ensures HarvestStep(w.t, E.OutcomeNext(w, b).t, f)
  {
    OutcomeHarvestCounter(w, b, f);
    if OfFix(b) { FixOutcomeCounter(w, b, f); } else { RecheckOutcomeCounter(w, b, f); }
  }

  lemma HarvestOutcomeCounter(w: World, b: E.OutcomeStep, f: nat)
    requires StreaksOk(w.t, f) && E.OutcomeEnabled(w, b) && f in w.t.findings
    requires b.HarvestPaused? || b.HarvestFailed? || b.HarvestMerged? || b.HarvestClosed?
    ensures HarvestStep(w.t, E.OutcomeNext(w, b).t, f)
  {
    if b.HarvestFailed? && w.t.jobs[w.phase.job].finding == Some(f) && !w.phase.handoff {
      HarvestFailureCounts(w.t, f, b.key);
    }
  }

  /** Of the others only a withdrawal touches the PR's row. */
  lemma OtherOutcomeCounter(w: World, b: E.OutcomeStep, f: nat)
    requires E.OutcomeEnabled(w, b) && f in w.t.findings
    requires !(b.HarvestPaused? || b.HarvestFailed? || b.HarvestMerged? || b.HarvestClosed?)
    ensures HarvestStep(w.t, E.OutcomeNext(w, b).t, f)
  {}

  lemma OutcomeHarvestCounter(w: World, b: E.OutcomeStep, f: nat)
    requires StreaksOk(w.t, f) && E.OutcomeEnabled(w, b) && f in w.t.findings
    ensures HarvestStep(w.t, E.OutcomeNext(w, b).t, f)
  {
    if b.HarvestPaused? || b.HarvestFailed? || b.HarvestMerged? || b.HarvestClosed? {
      HarvestOutcomeCounter(w, b, f);
    } else {
      OtherOutcomeCounter(w, b, f);
    }
  }

  lemma OutsideCounters(w: World, o: O.OutsideStep, f: nat)
    requires O.Enabled(w, o) && f in w.t.findings
    ensures SameStreaks(w.t, O.Next(w, o).t, f)
  {}

  lemma DaemonCounters(w: World, d: D.DaemonStep, f: nat)
    requires D.Enabled(w, d) && f in w.t.findings
    ensures SameStreaks(w.t, D.Next(w, d).t, f)
  {}

  lemma SameStreaksStep(t: Tables, t': Tables, f: nat)
    requires SameStreaks(t, t', f)
    ensures FixStep(t, t', f) && RecheckStep(t, t', f) && HarvestStep(t, t', f)
  {}

  /** Each failure counter is the length of the trailing run of identical
      failures since its last clear, below three in every reachable state;
      and whatever step counts a failure - a worker's, an unmade tree's, a
      chain's that gave up - the work leaves its tier with the third
      identical one and not before. */
  lemma ThirdFailureLeavesTier(w: World, x: Step, f: nat)
    requires Reachable(w) && Enabled(w, x) && f in w.t.findings
    ensures StreakOk(w.t.findings[f].fix) && StreakOk(w.t.findings[f].recheck)
    ensures w.t.findings[f].pr.Some? ==> StreakOk(w.t.findings[f].pr.value.harvest)
    ensures FixStep(w.t, Next(w, x).t, f) && RecheckStep(w.t, Next(w, x).t, f) && HarvestStep(w.t, Next(w, x).t, f)
  {
    ReachableOk(w);
    InvAtWork(w);
    assert FindingOk(w.t, w.t.findings[f]);
    match x
    case Outside(o) => OutsideCounters(w, o, f); SameStreaksStep(w.t, O.Next(w, o).t, f);
    case Daemon(d) => DaemonCounters(w, d, f); SameStreaksStep(w.t, D.Next(w, d).t, f);
    case Select(s) => SelectCounters(w, s, f);
    case Start(a) => StartCounters(w, a, f);
    case Outcome(b) => OutcomeCounters(w, b, f);
  }
}
