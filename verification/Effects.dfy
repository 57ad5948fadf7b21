/** What a request, a sync and an outcome achieve: where each leaves its
    finding, told by the tier that waits for it (hunter-rs/src/server.rs,
    hunter-rs/src/scheduler.rs, hunter-rs/src/store.rs). */
module Effects {
  import opened Domain
  import opened Streaks
  import opened Tables
  import opened Suppression
  import opened World
  import opened TableChanges
  import opened Runs
  import O = OperatorSteps
  import S = SelectSteps
  import E = ExecSteps

  // ------------------------------------------------------------------
  // Tiers and statuses
  // ------------------------------------------------------------------

  /** A suspended attempt at what a tier waits for is never out of season:
      what is in a tier is at the status its attempts are offered at. */
  lemma TierIsActionable(t: Tables, kind: JobKind, f: nat)
    requires S.InTier(t, kind, f)
    ensures IsFindingKind(kind) && Actionable(kind, t.findings[f].status)
    ensures KeptBySweep(kind, t.findings[f].status)
    ensures kind.Harvest? ==>
      t.findings[f].pr.Some? && !t.findings[f].pr.value.harvested
      && (t.findings[f].status.Closed? ==> t.findings[f].pr.value.end.ClosedPr?)
  {}

  /** What the six classes of a closed or declined piece of work come to. */
  lemma ClassesComeTo(c: ClosureClass)
    ensures IsSuppressed(ClosureStatus(c)) <==> c.Wrong? || c.Unwanted?
    ensures ClosureStatus(c).New? <==> c.Abandoned?
    ensures ClosureStatus(c).Superseded? <==> c.SupersededBy? || c.Duplicate? || c.Obsolete?
    ensures forall sha, file, on :: VerdictAnchor(ClosureStatus(c), sha, file, on).Some? <==> c.Wrong?
  {}

  // ------------------------------------------------------------------
  // Requests
  // ------------------------------------------------------------------

  /** An operator's verdict is taken for a finding in the inbox, on hold, set
      aside as a note or closed - none that a fix, a recheck or an open PR is at
      work on; it queues, rejects, drops or notes it, and a suppression needs a
      reason. */
  lemma VerdictAccepted(w: World, f: nat, to: FindingStatus, reasoned: bool)
    ensures O.Enabled(w, O.Verdict(f, to, reasoned)) <==>
      && f in w.t.findings
      && w.t.findings[f].status in {New, Blocked, Note, Closed} && to in {Queued, Rejected, Wontfix, Note}
      && w.t.findings[f].status != to && (to in {Rejected, Wontfix} ==> reasoned)
    ensures O.Enabled(w, O.Verdict(f, to, reasoned)) ==> forall k :: S.InTier(w.t, k, f) ==> k.Harvest?
  {}

  /** The finding a request is about stands where the request puts it. */
  lemma RequestTakesEffect(w: World, o: O.OutsideStep)
    requires O.Enabled(w, o)
    ensures var t' := O.Next(w, o).t;
      && (o.Verdict? ==> o.f in t'.findings && t'.findings[o.f].status == o.to && t'.findings[o.f].judge.Operator?
                         && (S.InTier(t', Fix, o.f) <==> o.to.Queued?)
                         && (o.reasoned ==> t'.findings[o.f].anchor.None?))
      && (o.AskRecheck? ==> S.InTier(t', Recheck, o.f))
      && (o.Unqueue? ==> t'.findings[o.f].status.New? && !S.InTier(t', Fix, o.f))
      && (o.FileFinding? ==> t'.findings[o.f].status.New? && t'.findings[o.f].repo == o.repo
                             && t'.findings[o.f].file == o.file && t'.findings[o.f].pr.None?
                             && t'.findings[o.f].fix.count == t'.findings[o.f].recheck.count == 0)
      && (o.Reopen? ==> t'.findings[o.f].status.New? && t'.findings[o.f].anchor.None?)
      && (o.Reconfirm? ==>
            t'.findings[o.f].anchor == Some(Anchor(o.sha, w.t.findings[o.f].anchor.value.files))
            && t'.findings[o.f].status == w.t.findings[o.f].status)
  {}

  /** A dependency scan's: what was proposed again waits for a verdict, what
      is proposed no more does not, and a queued update gives its place in the
      tier to the one proposed for the same move. */
  lemma ScanTakesEffect(w: World, o: O.OutsideStep)
    requires O.Enabled(w, o)
    ensures var t' := O.Next(w, o).t;
      && (o.RefreshDep? ==> t'.findings[o.f].status.New?)
      && (o.RetractDep? ==> t'.findings[o.f].status.Superseded? && t'.findings[o.f].judge.Unproposed?)
      && (o.HandOverDep? ==>
            S.InTier(t', Fix, o.proposed) && t'.findings[o.queued].status.Superseded?
            && t'.findings[o.queued].judge.Replaced?)
  {}

  // ------------------------------------------------------------------
  // Syncs
  // ------------------------------------------------------------------

  /** A flagged open PR waits for an engage, an unflagged one for nothing. */
  lemma OpenSyncTakesEffect(w: World, f: nat, number: nat, attention: bool)
    requires S.Enabled(w, S.SyncRow(f, number, Open, attention))
    ensures S.InTier(S.Next(w, S.SyncRow(f, number, Open, attention)).t, Engage, f) <==> attention
  {}

  /** The row is the harvest of another PR. */
  predicate AnotherPr(row: Option<PrRow>, number: nat) {
    row.None? || (row.value.number.Some? && row.value.number.value != number)
  }

  lemma EndedRow(w: World, f: nat, number: nat, end: PrEnd)
    requires S.Enabled(w, S.SyncRow(f, number, end, false)) && !end.Open?
    ensures var w1 := S.Next(w, S.SyncRow(f, number, end, false));
      && w1.phase == w.phase && f in w1.t.findings && w1.t.findings[f].status == w.t.findings[f].status
      && w1.t.findings[f].pr.Some?
      && var row := w1.t.findings[f].pr.value;
         && row.number == Some(number) && row.end == end && !row.attention
         && (row.harvested <==> w.t.findings[f].pr.Some? && w.t.findings[f].pr.value.harvested
                                && !AnotherPr(w.t.findings[f].pr, number))
         && (!AnotherPr(w.t.findings[f].pr, number) ==> row.harvest == w.t.findings[f].pr.value.harvest)
         && (AnotherPr(w.t.findings[f].pr, number) ==> row.harvest.count == 0 && row.harvest.last.None?)
  {}

  /** A PR that was merged or closed waits for its harvest - every PR once: the
      second PR of a finding is not taken for the first one's. */
  lemma EndedPrAwaitsHarvest(w: World, f: nat, number: nat, merged: bool)
    requires var end := if merged then MergedPr else ClosedPr;
      S.Enabled(w, S.SyncRow(f, number, end, false)) && w.t.findings[f].status.PrOpen?
    ensures var end, to := if merged then MergedPr else ClosedPr, if merged then Merged else Closed;
      var w1 := S.Next(w, S.SyncRow(f, number, end, false));
      && S.Enabled(w1, S.SyncStatus(f, to))
      && (S.InTier(S.Next(w1, S.SyncStatus(f, to)).t, Harvest, f) <==>
            AnotherPr(w.t.findings[f].pr, number) || !w.t.findings[f].pr.value.harvested)
  {
    EndedRow(w, f, number, if merged then MergedPr else ClosedPr);
  }

  // ------------------------------------------------------------------
  // Outcomes
  // ------------------------------------------------------------------

  /** The finding of the job at work. */
  function Subject(w: World): nat
    requires w.phase.Recorded? && E.HasFinding(w, w.phase.job)
  {
    w.t.jobs[w.phase.job].finding.value
  }

  /** A shipped fix has an open PR and a clean record, a paused one is back in
      its tier with its record. */
  lemma FixTakesEffect(w: World, b: E.OutcomeStep)
    requires Inv(w) && E.OutcomeEnabled(w, b) && (b.FixShipped? || b.FixPaused?)
    ensures var f, t' := Subject(w), E.OutcomeNext(w, b).t;
      && f in t'.findings
      && (b.FixShipped? ==> t'.findings[f].status.PrOpen? && t'.findings[f].fix.count == 0)
      && (b.FixPaused? ==> S.InTier(t', Fix, f) && t'.findings[f].fix.count == w.t.findings[f].fix.count)
  {}

  /** A declined fix stands where the worker's classification puts it: without
      one it waits for a verdict again. */
  lemma DeclineTakesEffect(w: World, why: Option<ClosureClass>, dependsOn: seq<string>)
    requires Inv(w) && E.OutcomeEnabled(w, E.FixDeclined(why, dependsOn))
    ensures var f, t' := Subject(w), E.OutcomeNext(w, E.FixDeclined(why, dependsOn)).t;
      && f in t'.findings && t'.findings[f].fix.count == 0
      && (IsSuppressed(t'.findings[f].status) <==> why == Some(Wrong) || why == Some(Unwanted))
      && (t'.findings[f].status.New? <==> why.None? || why == Some(Abandoned))
      && (t'.findings[f].anchor.Some? <==> why == Some(Wrong))
      && (why == Some(Wrong) ==>
            t'.findings[f].anchor.value.files == Watched(Mentions(w.t.findings[f].file, dependsOn))
            && (w.t.jobs[w.phase.job].pinned.Some? ==>
                  t'.findings[f].anchor.value.sha == w.t.jobs[w.phase.job].pinned.value))
  {}

  lemma HeldRowKeeps(w: World, report: string, fromTree: bool)
    requires Inv(w) && E.OutcomeEnabled(w, E.FixBlocked(report, fromTree))
    ensures var t1, c := E.OutcomeNext(w, E.FixBlocked(report, fromTree)).t, w.phase.job;
      && c < |w.t.jobs| && c < |t1.jobs| && LooseEnd(t1.jobs, c) && t1.jobs[c].blocker == Some(report)
      && t1.jobs[c].kind.Fix? && t1.jobs[c].finding == Some(Subject(w)) && t1.jobs[c].repo !in t1.deleted
      && Subject(w) in t1.findings && t1.findings[Subject(w)].status.Blocked?
  {
    var w1 := E.OutcomeNext(w, E.FixBlocked(report, fromTree));
    assert RowOk(w.t, w.phase.job);
    SameLinksSameSuccessors(w.t.jobs, w1.t.jobs);
  }

  /** A held fix keeps its report, and its transcript or the one it was
      continuing: queued again by the operator it is offered for a resume,
      exactly if there is either. */
  lemma HeldFixResumes(w: World, report: string, fromTree: bool)
    requires Reachable(w) && E.OutcomeEnabled(w, E.FixBlocked(report, fromTree))
    ensures var w1, c, f := E.OutcomeNext(w, E.FixBlocked(report, fromTree)), w.phase.job, Subject(w);
      && c < |w.t.jobs| && c < |w1.t.jobs| && w1.t.jobs[c].blocker == Some(report)
      && O.Enabled(w1, O.Verdict(f, Queued, false))
      && (Offered(O.Next(w1, O.Verdict(f, Queued, false)).t, c) <==>
            w.t.jobs[c].session
            || (w.t.jobs[c].resumedFrom.Some? && w.t.jobs[c].resumedFrom.value < |w.t.jobs|
                && w.t.jobs[w.t.jobs[c].resumedFrom.value].session))
  {
    ReachableOk(w);
    HeldRowKeeps(w, report, fromTree);
  }

  /** A held fix that is stopped again - its report gone stale, or its backend
      failing - is held on the very report it had. */
  lemma ReportStays(w: World, a: E.StartStep)
    requires Reachable(w) && E.StartEnabled(w, a)
    requires a.HoldAgain? || (a.WorkerFails? && w.t.jobs[w.phase.job].kind.Fix?
                              && w.t.jobs[w.phase.job].blocker.Some?)
    ensures var j, t' := if a.HoldAgain? then w.phase.resume.value else w.phase.job, E.StartNext(w, a).t;
      && j < |w.t.jobs| && j < |t'.jobs| && t'.jobs[j].blocker == w.t.jobs[j].blocker && LooseEnd(t'.jobs, j)
      && w.t.jobs[j].finding.Some? && w.t.jobs[j].finding.value in t'.findings
      && t'.findings[w.t.jobs[j].finding.value].status.Blocked?
  {
    ReachableOk(w);
    var j := if a.HoldAgain? then w.phase.resume.value else w.phase.job;
    assert RowOk(w.t, j);
    SameLinksSameSuccessors(w.t.jobs, E.StartNext(w, a).t.jobs);
  }

  /** A judged recheck stands at its verdict; a rejection is anchored to the
      commit it was judged at and to what the worker says it rests on. */
  lemma RecheckTakesEffect(w: World, to: FindingStatus, dependsOn: seq<string>)
    requires Inv(w) && E.OutcomeEnabled(w, E.RecheckJudged(to, dependsOn))
    ensures var f, t' := Subject(w), E.OutcomeNext(w, E.RecheckJudged(to, dependsOn)).t;
      && f in t'.findings && t'.findings[f].status == to && t'.findings[f].recheck.count == 0
      && (to.Rejected? ==>
            t'.findings[f].anchor.Some?
            && t'.findings[f].anchor.value.files == Watched(Mentions(w.t.findings[f].file, dependsOn))
            && (w.t.jobs[w.phase.job].pinned.Some? ==>
                  t'.findings[f].anchor.value.sha == w.t.jobs[w.phase.job].pinned.value))
      && (to.Superseded? ==> t'.findings[f].anchor.None?)
  {}

  /** A finished engage that published stays done, and one whose push or
      comment was refused is failed - so only the former is a sample of what
      engages cost; one that did not finish stays what it is. */
  lemma EngageRecorded(w: World, published: Option<E.Publication>)
    requires Inv(w) && E.OutcomeEnabled(w, E.EngagePublished(published))
    ensures var c, t' := w.phase.job, E.OutcomeNext(w, E.EngagePublished(published)).t;
      && c < |w.t.jobs| && t'.findings == w.t.findings && t'.jobs == w.t.jobs[c := t'.jobs[c]]
      && (t'.jobs[c].state.Done? <==> published.Some?)
      && (t'.jobs[c] != w.t.jobs[c] ==> t'.jobs[c] == w.t.jobs[c].(state := Failed) && w.t.jobs[c].state.Done?)
  {}

  /** A withdrawn PR waits for its harvest, with which the engage may go
      straight on. */
  lemma WithdrawalAwaitsHarvest(w: World, number: nat)
    requires Inv(w) && E.OutcomeEnabled(w, E.WithdrawRow(number))
    ensures var f, w1 := Subject(w), E.OutcomeNext(w, E.WithdrawRow(number));
      && E.OutcomeEnabled(w1, E.WithdrawStatus)
      && var w2 := E.OutcomeNext(w1, E.WithdrawStatus);
         && f in w2.t.findings && w2.t.findings[f].status.Closed?
         && (S.InTier(w2.t, Harvest, f) <==>
               AnotherPr(w.t.findings[f].pr, number) || !w.t.findings[f].pr.value.harvested)
         && w2.phase == Withdrawn(w.phase.job)
  {}

  /** A reviewed harvest is done with its PR; a closed PR's classification
      counts only where the finding is still closed. */
  lemma HarvestTakesEffect(w: World, b: E.OutcomeStep)
    requires Inv(w) && E.OutcomeEnabled(w, b) && (b.HarvestMerged? || b.HarvestClosed?)
    ensures var f, t' := Subject(w), E.OutcomeNext(w, b).t;
      && f in t'.findings && t'.findings[f].pr.Some? && t'.findings[f].pr.value.harvested
      && t'.findings[f].pr.value.harvest.count == 0
      && (b.HarvestMerged? || !w.t.findings[f].status.Closed? ==>
            t'.findings[f].status == w.t.findings[f].status && t'.findings[f].anchor == w.t.findings[f].anchor)
      && (b.HarvestClosed? && w.t.findings[f].status.Closed? ==>
            && (IsSuppressed(t'.findings[f].status) <==> b.closure.Wrong? || b.closure.Unwanted?)
            && (t'.findings[f].status.New? <==> b.closure.Abandoned?)
            && (t'.findings[f].anchor.Some? <==> b.closure.Wrong?))
  {}

  lemma ConcludedPlace(w: World)
    requires Reachable(w) && (w.phase.Concluded? || w.phase.Withdrawn?)
    ensures w.phase.job < |w.t.jobs|
  {
    ReachableOk(w);
  }

  /** Work that was settled while its attempt was suspended is not resumed: the
      attempt is retired before its tree is let go, and only then. */
  lemma ConcludedIsRetired(w: World)
    requires Reachable(w) && (w.phase.Concluded? || w.phase.Withdrawn?)
    ensures w.phase.job < |w.t.jobs|
    ensures E.OutcomeEnabled(w, E.RetireConcluded) <==> w.t.jobs[w.phase.job].state.Suspended?
    ensures E.OutcomeEnabled(w, E.RetireConcluded) ==>
      var w1 := E.OutcomeNext(w, E.RetireConcluded);
      && w1.phase == w.phase && w1.t.findings == w.t.findings && !Offered(w1.t, w.phase.job)
      && w1.t.jobs == w.t.jobs[w.phase.job := w1.t.jobs[w.phase.job]]
      && w1.t.jobs[w.phase.job].state.Killed? && w1.t.jobs[w.phase.job].tokens == w.t.jobs[w.phase.job].tokens
    ensures w.phase.Concluded? ==>
      (E.OutcomeEnabled(w, E.Close) <==> !w.t.jobs[w.phase.job].state.Suspended?)
  {
    ConcludedPlace(w);
  }
}
