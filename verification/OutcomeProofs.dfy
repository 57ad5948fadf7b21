/** Every recorded outcome keeps the invariant. */
module OutcomeProofs {
  import opened Domain
  import opened Chains
  import opened Streaks
  import opened Tables
  import opened World
  import opened TableChanges
  import opened ExecSteps
  import opened ExecProofs

  /** An outcome that writes only the finding and ends the cycle or settles
      the attempt. */
  lemma FindingOnly(w: World, w': World, row: Finding)
    requires Inv(w) && w.phase.Recorded? && HasFinding(w, w.phase.job)
    requires var f := w.t.jobs[w.phase.job].finding.value;
      && FindingOk(w.t, row) && row.repo == w.t.findings[f].repo
      && (row.status.Blocked? ==> w.t.findings[f].status.Blocked?)
      && w' == w.(t := SetFinding(w.t, f, row), phase := w'.phase)
    requires w'.phase == Between
      || ((w'.phase == Closing(w.phase.job) || w'.phase == Concluded(w.phase.job))
          && (w'.phase.Concluded? ==> !row.status.Blocked?)
          && (row.status.Fixing? ==>
                w.t.findings[w.t.jobs[w.phase.job].finding.value].status.Fixing? && FixOwner(w).None?))
    ensures Inv(w')
  {
    var f := w.t.jobs[w.phase.job].finding.value;
    FindingChange(w.t, f, row);
    if w'.phase == Between { EndsBetween(w'); } else { EndsSettled(w, w'); }
  }

  lemma FixBlockedKeeps(w: World, report: string, fromTree: bool)
    requires Inv(w) && OutcomeEnabled(w, FixBlocked(report, fromTree))
    ensures Inv(OutcomeNext(w, FixBlocked(report, fromTree)))
  {
    var c := w.phase.job;
    assert FindingOk(w.t, w.t.findings[w.t.jobs[c].finding.value]);
    BlockKeeps(w.t, w.t.jobs[c].finding.value, c, report, w.trees + w.lost, Some(c));
    EndsSettled(w, OutcomeNext(w, FixBlocked(report, fromTree)));
  }

  lemma FixFailedTables(w: World, key: string, report: string)
    requires Inv(w) && OutcomeEnabled(w, FixFailed(key, report))
    ensures var c, f := w.phase.job, w.t.jobs[w.phase.job].finding.value;
      var t' := ReleaseClaim(RecordFixFailure(w.t, f, c, key, report), f);
      TablesOk(t') && TreesKept(t'.jobs, w.trees + w.lost, None) && !HasSuccessor(t'.jobs, c)
  {
    var c := w.phase.job;
    var f := w.t.jobs[c].finding.value;
    assert FindingOk(w.t, w.t.findings[f]);
    FixFailureKeeps(w.t, f, c, key, report);
    var t1 := RecordFixFailure(w.t, f, c, key, report);
    ReleaseKeeps(t1, f);
    TreesKeptByShape(w.t.jobs, t1.jobs, w.trees + w.lost, Some(c), None);
    assert ReleaseClaim(t1, f).jobs == t1.jobs;
  }

  /** The end of a fix whose claim is gone. */
  lemma FixEnds(w: World, t': Tables)
    requires Inv(w) && RecordedAs(w, Fix)
    requires TablesOk(t') && TreesKept(t'.jobs, w.trees + w.lost, None) && !HasSuccessor(t'.jobs, w.phase.job)
    requires |t'.jobs| == |w.t.jobs| && t'.findings.Keys == w.t.findings.Keys
    requires forall j | 0 <= j < |w.t.jobs| && t'.jobs[j].state.Running? :: w.t.jobs[j].state.Running?
    requires var f := w.t.jobs[w.phase.job].finding.value;
      !t'.findings[f].status.Fixing? && forall g | g in w.t.findings && g != f :: t'.findings[g] == w.t.findings[g]
    ensures Inv(w.(t := t', phase := Closing(w.phase.job)))
  {
    EndsSettled(w, w.(t := t', phase := Closing(w.phase.job)));
  }

  lemma FixFailedKeeps(w: World, key: string, report: string)
    requires Inv(w) && OutcomeEnabled(w, FixFailed(key, report))
    ensures Inv(OutcomeNext(w, FixFailed(key, report)))
  {
    var c := w.phase.job;
    var f := w.t.jobs[c].finding.value;
    FixFailedTables(w, key, report);
    FailedFixLeaves(w.t, f, c, key, report);
    FixEnds(w, ReleaseClaim(RecordFixFailure(w.t, f, c, key, report), f));
  }

  /** A failed fix leaves its finding queued or held, and its row ended. */
  lemma FailedFixLeaves(t: Tables, f: nat, c: nat, key: string, report: string)
    requires f in t.findings && c < |t.jobs| && !t.jobs[c].state.Running?
    ensures var t' := ReleaseClaim(RecordFixFailure(t, f, c, key, report), f);
      && f in t'.findings && !t'.findings[f].status.Fixing? && t'.findings.Keys == t.findings.Keys
      && (forall g | g in t.findings && g != f :: t'.findings[g] == t.findings[g])
      && |t'.jobs| == |t.jobs|
      && (forall j | 0 <= j < |t.jobs| && t'.jobs[j].state.Running? :: t.jobs[j].state.Running?)
  {}

  /** What a settled fix writes is its finding's row. */
  lemma FixSettledRow(w: World, a: OutcomeStep)
    requires OutcomeEnabled(w, a) && (a.FixDeclined? || a.FixShipped?)
    requires FindingOk(w.t, w.t.findings[w.t.jobs[w.phase.job].finding.value])
    requires w.t.findings[w.t.jobs[w.phase.job].finding.value].status.Fixing?
    ensures var f := w.t.jobs[w.phase.job].finding.value;
      var w' := OutcomeNext(w, a);
      && f in w'.t.findings && FindingOk(w.t, w'.t.findings[f]) && w'.t.findings[f].repo == w.t.findings[f].repo
      && w' == w.(t := SetFinding(w.t, f, w'.t.findings[f]), phase := Concluded(w.phase.job))
      && !w'.t.findings[f].status.Blocked? && !w'.t.findings[f].status.Fixing?
  {
    StreakFollowsHistory(w.t.findings[w.t.jobs[w.phase.job].finding.value].fix, "");
  }

  lemma FixPausedRow(w: World)
    requires OutcomeEnabled(w, FixPaused)
    requires w.t.findings[w.t.jobs[w.phase.job].finding.value].status.Fixing?
    ensures var f := w.t.jobs[w.phase.job].finding.value;
      var row := w.t.findings[f];
      OutcomeNext(w, FixPaused)
      == w.(t := SetFinding(w.t, f, row.(fix := Pause(row.fix), status := Queued)), phase := Closing(w.phase.job))
  {
    var f := w.t.jobs[w.phase.job].finding.value;
    var row := w.t.findings[f];
    var paused := row.(fix := Pause(row.fix), status := Queued);
    assert w.t.findings[f := row.(fix := Pause(row.fix))][f := paused] == w.t.findings[f := paused];
  }

  lemma FixSettledKeeps(w: World, a: OutcomeStep)
    requires Inv(w) && OutcomeEnabled(w, a) && (a.FixDeclined? || a.FixShipped? || a.FixPaused?)
    ensures Inv(OutcomeNext(w, a))
  {
    var f := w.t.jobs[w.phase.job].finding.value;
    var row := w.t.findings[f];
    assert FindingOk(w.t, row);
    var w' := OutcomeNext(w, a);
    if a.FixPaused? {
      FixPausedRow(w);
      StreakFollowsHistory(row.fix, "");
      FindingOnly(w, w', row.(fix := Pause(row.fix), status := Queued));
    } else {
      FixSettledRow(w, a);
      FindingOnly(w, w', w'.t.findings[f]);
    }
  }

  lemma RecheckKeeps(w: World, a: OutcomeStep)
    requires Inv(w) && OutcomeEnabled(w, a) && (a.RecheckPaused? || a.RecheckJudged? || a.RecheckFailed?)
    ensures Inv(OutcomeNext(w, a))
  {
    var f := w.t.jobs[w.phase.job].finding.value;
    var row := w.t.findings[f];
    assert FindingOk(w.t, row);
    StreakFollowsHistory(row.recheck, "");
    var w' := OutcomeNext(w, a);
    if a.RecheckFailed? {
      RecheckFailureKeeps(w.t, f, a.key);
      EndsBetween(w');
    } else {
      FindingOnly(w, w', w'.t.findings[f]);
    }
  }

  lemma PublishFailsTables(w: World)
    requires Inv(w) && OutcomeEnabled(w, EngagePublished(None)) && w.t.jobs[w.phase.job].state.Done?
    ensures var w' := OutcomeNext(w, EngagePublished(None));
      && TablesOk(w'.t) && TreesKept(w'.t.jobs, w'.trees + w'.lost, None)
      && !HasSuccessor(w'.t.jobs, w.phase.job)
  {
    var c := w.phase.job;
    var w' := OutcomeNext(w, EngagePublished(None));
    assert RowOk(w.t, c);
    JobChange(w.t, c, w'.t.jobs[c]);
    TreesKeptByShape(w.t.jobs, w'.t.jobs, w.trees + w.lost, Some(c), None);
  }

  lemma EngageKeeps(w: World, a: OutcomeStep)
    requires Inv(w) && OutcomeEnabled(w, a) && (a.EngagePublished? || a.WithdrawRefused?)
    ensures Inv(OutcomeNext(w, a))
  {
    var w' := OutcomeNext(w, a);
    if w'.t != w.t { PublishFailsTables(w); }
    EndsSettled(w, w');
  }

  /** A finding's row moves, its status does not, and the job stays where it
      is. */
  lemma StaysRecorded(w: World, f: nat, row: Finding)
    requires Inv(w) && w.phase.Recorded? && f in w.t.findings && row.status == w.t.findings[f].status
    requires TablesOk(SetFinding(w.t, f, row))
    ensures Inv(w.(t := SetFinding(w.t, f, row)))
  {
    var w' := w.(t := SetFinding(w.t, f, row));
    assert CurrentOk(w'.t, w.phase.job);
    assert RunningOk(w') && FixingOk(w');
  }

  lemma WithdrawRowKeeps(w: World, number: nat)
    requires Inv(w) && OutcomeEnabled(w, WithdrawRow(number))
    ensures Inv(OutcomeNext(w, WithdrawRow(number)))
  {
    var f := w.t.jobs[w.phase.job].finding.value;
    var row := w.t.findings[f];
    assert FindingOk(w.t, row);
    if row.pr.Some? { StreakFollowsHistory(row.pr.value.harvest, ""); }
    var row' := row.(pr := Some(UpsertPr(row.pr, number, ClosedPr, false)));
    FindingChange(w.t, f, row');
    StaysRecorded(w, f, row');
  }

  lemma WithdrawStatusKeeps(w: World)
    requires Inv(w) && OutcomeEnabled(w, WithdrawStatus)
    ensures Inv(OutcomeNext(w, WithdrawStatus))
  {
    var f := w.t.jobs[w.phase.job].finding.value;
    assert FindingOk(w.t, w.t.findings[f]);
    var w' := OutcomeNext(w, WithdrawStatus);
    FindingChange(w.t, f, w'.t.findings[f]);
    assert NoLiveHarvest(w'.t, f);
    assert RunningOk(w') && FixingOk(w');
  }

  lemma RetireConcludedTables(w: World)
    requires Inv(w) && OutcomeEnabled(w, RetireConcluded)
    ensures var w' := OutcomeNext(w, RetireConcluded);
      && TablesOk(w'.t) && TreesKept(w'.t.jobs, w.trees + w.lost, Wanted(w'))
      && (forall p: nat :: HasSuccessor(w'.t.jobs, p) == HasSuccessor(w.t.jobs, p))
  {
    var c := w.phase.job;
    var w' := OutcomeNext(w, RetireConcluded);
    assert RowOk(w.t, c);
    ConcludedNotHeld(w);
    JobChange(w.t, c, w'.t.jobs[c]);
    assert Live(w.t.jobs, c);
    TreesKeptByShape(w.t.jobs, w'.t.jobs, w.trees + w.lost, Wanted(w), Wanted(w'));
  }

  lemma RetireConcludedKeeps(w: World)
    requires Inv(w) && OutcomeEnabled(w, RetireConcluded)
    ensures Inv(OutcomeNext(w, RetireConcluded))
  {
    var w' := OutcomeNext(w, RetireConcluded);
    RetireConcludedTables(w);
    assert forall j | 0 <= j < |w.t.jobs| && Live(w'.t.jobs, j) :: Live(w.t.jobs, j);
    assert RunningOk(w') && FixingOk(w');
  }

  lemma ConcludedNotHeld(w: World)
    requires Inv(w) && OutcomeEnabled(w, RetireConcluded)
    ensures !IsHeld(w.t, w.phase.job)
  {
  }

  lemma HarvestFailedKeeps(w: World, a: OutcomeStep)
    requires Inv(w) && OutcomeEnabled(w, a) && a.HarvestFailed?
    ensures Inv(OutcomeNext(w, a))
  {
    var f := w.t.jobs[w.phase.job].finding.value;
    if !w.phase.handoff { HarvestFailureKeeps(w.t, f, a.key); }
    EndsBetween(OutcomeNext(w, a));
  }

  /** What a harvest writes is one finding's row. */
  lemma HarvestRow(w: World, a: OutcomeStep)
    requires OutcomeEnabled(w, a) && (a.HarvestPaused? || a.HarvestMerged? || a.HarvestClosed?)
    requires FindingOk(w.t, w.t.findings[w.t.jobs[w.phase.job].finding.value])
    ensures var f := w.t.jobs[w.phase.job].finding.value;
      var w' := OutcomeNext(w, a);
      && w'.phase == Between && w'.trees == w.trees && w'.lost == w.lost
      && (w'.t == w.t || w'.t == SetFinding(w.t, f, w'.t.findings[f]))
      && f in w'.t.findings && FindingOk(w.t, w'.t.findings[f]) && w'.t.findings[f].repo == w.t.findings[f].repo
      && (w'.t.findings[f].status.Blocked? ==> w.t.findings[f].status.Blocked?)
  {
    var row := w.t.findings[w.t.jobs[w.phase.job].finding.value];
    if row.pr.Some? { StreakFollowsHistory(row.pr.value.harvest, ""); }
  }

  lemma HarvestKeeps(w: World, a: OutcomeStep)
    requires Inv(w) && OutcomeEnabled(w, a)
    requires a.HarvestPaused? || a.HarvestMerged? || a.HarvestClosed?
    ensures Inv(OutcomeNext(w, a))
  {
    var f := w.t.jobs[w.phase.job].finding.value;
    assert FindingOk(w.t, w.t.findings[f]);
    HarvestRow(w, a);
    var w' := OutcomeNext(w, a);
    FindingChange(w.t, f, w'.t.findings[f]);
    EndsBetween(w');
  }

  lemma NoHandoffKeeps(w: World)
    requires Inv(w) && OutcomeEnabled(w, NoHandoff)
    ensures Inv(OutcomeNext(w, NoHandoff))
  {
    assert RunningOk(OutcomeNext(w, NoHandoff));
  }

  lemma BailKeeps(w: World)
    requires Inv(w) && OutcomeEnabled(w, Bail)
    ensures Inv(OutcomeNext(w, Bail))
  {
    if w.t.jobs[w.phase.job].kind.Fix? { ReleaseKeeps(w.t, w.t.jobs[w.phase.job].finding.value); }
    EndsBetween(OutcomeNext(w, Bail));
  }

  lemma ScanEndedKeeps(w: World)
    requires Inv(w) && OutcomeEnabled(w, ScanEnded)
    ensures Inv(OutcomeNext(w, ScanEnded))
  {
    EndsSettled(w, OutcomeNext(w, ScanEnded)) by {
      assert FixOwner(w).None?;
    }
  }

  lemma CloseKeeps(w: World)
    requires Inv(w) && OutcomeEnabled(w, Close)
    ensures Inv(OutcomeNext(w, Close))
  {
    var w' := OutcomeNext(w, Close);
    if w.phase.Closing? { EndsBetween(w'); } else { assert RunningOk(w') && FixingOk(w'); }
  }

  predicate OfFix(a: OutcomeStep) {
    a.FixBlocked? || a.FixDeclined? || a.FixShipped? || a.FixPaused? || a.FixFailed?
  }

  lemma FixOutcomeKeeps(w: World, a: OutcomeStep)
    requires Inv(w) && OutcomeEnabled(w, a) && OfFix(a)
    ensures Inv(OutcomeNext(w, a))
  {
    if a.FixBlocked? { FixBlockedKeeps(w, a.report, a.fromTree); }
    else if a.FixFailed? { FixFailedKeeps(w, a.key, a.report); }
    else { FixSettledKeeps(w, a); }
  }

  predicate OfEngage(a: OutcomeStep) {
    a.EngagePublished? || a.WithdrawRefused? || a.WithdrawRow? || a.WithdrawStatus? || a.Handoff? || a.NoHandoff?
  }

  lemma EngageOutcomeKeeps(w: World, a: OutcomeStep)
    requires Inv(w) && OutcomeEnabled(w, a) && OfEngage(a)
    ensures Inv(OutcomeNext(w, a))
  {
    if a.WithdrawRow? { WithdrawRowKeeps(w, a.number); }
    else if a.WithdrawStatus? { WithdrawStatusKeeps(w); }
    else if a.Handoff? { HandoffKeeps(w); }
    else if a.NoHandoff? { NoHandoffKeeps(w); }
    else { EngageKeeps(w, a); }
  }

  lemma OutcomeKeepsInv(w: World, a: OutcomeStep)
    requires Inv(w) && OutcomeEnabled(w, a)
    ensures Inv(OutcomeNext(w, a))
  {
    if OfFix(a) { FixOutcomeKeeps(w, a); }
    else if OfEngage(a) { EngageOutcomeKeeps(w, a); }
    else if a.RecheckPaused? || a.RecheckJudged? || a.RecheckFailed? { RecheckKeeps(w, a); }
    else if a.HarvestFailed? { HarvestFailedKeeps(w, a); }
    else if a.HarvestPaused? || a.HarvestMerged? || a.HarvestClosed? { HarvestKeeps(w, a); }
    else if a.Bail? { BailKeeps(w); }
    else if a.ScanEnded? { ScanEndedKeeps(w); }
    else if a.RetireConcluded? { RetireConcludedKeeps(w); }
    else { CloseKeeps(w); }
  }
}
