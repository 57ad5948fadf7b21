/** Every executor step keeps the invariant. */
module ExecProofs {
  import opened Domain
  import opened Chains
  import opened Streaks
  import opened Tables
  import opened World
  import opened TableChanges
  import opened ExecSteps

  /** Between cycles only the tables and the trees matter. */
  lemma EndsBetween(w: World)
    requires TablesOk(w.t) && w.phase.Between? && TreesKept(w.t.jobs, w.trees + w.lost, None)
    ensures Inv(w)
  {}

  /** The end of an attempt whose finding is settled. */
  lemma EndsSettled(w: World, w': World)
    requires Inv(w) && w.phase.Recorded?
    requires TablesOk(w'.t) && TreesKept(w'.t.jobs, w'.trees + w'.lost, None)
    requires |w'.t.jobs| == |w.t.jobs| && !HasSuccessor(w'.t.jobs, w.phase.job)
    requires forall j | 0 <= j < |w.t.jobs| && w'.t.jobs[j].state.Running? :: w.t.jobs[j].state.Running?
    requires w'.phase == Closing(w.phase.job)
      || (w'.phase == Concluded(w.phase.job) && NotHeldOn(w'.t, OwnerOf(w'.t, w.phase.job)))
    requires forall f | f in w'.t.findings && w'.t.findings[f].status.Fixing? ::
      f in w.t.findings && w.t.findings[f].status.Fixing? && FixOwner(w) != Some(f)
    ensures Inv(w')
  {}

  lemma NoRunning(w: World, c: nat)
    requires Inv(w) && c < |w.t.jobs| && w.t.jobs[c].state.Running?
    ensures !HasSuccessor(w.t.jobs, c) && Alone(w.t.jobs, c)
  {
    forall s | 0 <= s < |w.t.jobs| ensures w.t.jobs[s].resumedFrom != Some(c) { assert RowOk(w.t, s); }
    assert Live(w.t.jobs, c);
  }

  /** A released claim, or nothing. */
  lemma ReleaseKeeps(t: Tables, f: nat)
    requires TablesOk(t) && f in t.findings
    ensures TablesOk(ReleaseClaim(t, f))
  {
    assert FindingOk(t, t.findings[f]);
    var status := if t.findings[f].status.Fixing? then Queued else t.findings[f].status;
    FindingChange(t, f, t.findings[f].(status := status));
  }

  // ------------------------------------------------------------------
  // Creating the job
  // ------------------------------------------------------------------

  lemma SupersedeKeeps(w: World)
    requires Inv(w) && w.phase.Picked? && StartEnabled(w, Create) && w.phase.resume.None?
    ensures var ids := SupersededIds(w.t.jobs, w.phase.kind, w.phase.repo, w.phase.finding);
      var t' := w.t.(jobs := RetireAll(w.t.jobs, ids, Superseding));
      && TablesOk(t') && TreesKept(t'.jobs, w.trees + w.lost, None) && SameLinks(w.t.jobs, t'.jobs)
      && (forall j | 0 <= j < |t'.jobs| :: !t'.jobs[j].state.Running?)
      && (forall j: nat | j < |t'.jobs| && Live(t'.jobs, j) ::
           Live(w.t.jobs, j) && !SameWork(t'.jobs[j], w.phase.kind, w.phase.repo, w.phase.finding))
  {
    var ids := SupersededIds(w.t.jobs, w.phase.kind, w.phase.repo, w.phase.finding);
    var t' := w.t.(jobs := RetireAll(w.t.jobs, ids, Superseding));
    RetireAllKeeps(w.t, ids, Superseding);
    forall g | g in t'.findings && t'.findings[g].status.Blocked? ensures HasCheckpoint(t', g) {
      assert HasCheckpoint(w.t, g);
      var j: nat :| Checkpoint(w.t, g, j);
      assert j !in ids;
      assert Checkpoint(t', g, j);
    }
    TreesKeptByShape(w.t.jobs, t'.jobs, w.trees + w.lost, None, None);
  }

  /** A new running row whose checkpoint, if any, is not one that is held. */
  lemma AppendChange(t: Tables, row: Job)
    requires TablesOk(t) && TablesAppend(t, row)
    ensures TablesOk(t.(jobs := t.jobs + [row])) && SameLinks(t.jobs, t.jobs + [row])
    ensures forall j: nat | j < |t.jobs| :: Live(t.jobs + [row], j) <==> Live(t.jobs, j) && row.resumedFrom != Some(j)
    ensures !HasSuccessor(t.jobs + [row], |t.jobs|)
  {
    var t' := t.(jobs := t.jobs + [row]);
    AppendKeeps(t, row);
    AppendShape(t.jobs, row);
    forall g | g in t'.findings && t'.findings[g].status.Blocked? ensures HasCheckpoint(t', g) {
      assert HasCheckpoint(t, g);
      var j: nat :| Checkpoint(t, g, j);
      assert row.resumedFrom != Some(j);
      assert Checkpoint(t', g, j);
    }
  }

  ghost predicate TablesAppend(t: Tables, row: Job) {
    && (forall j | 0 <= j < |t.jobs| :: !t.jobs[j].state.Running?)
    && row.state.Running? && row.repo !in t.deleted
    && (row.finding.Some? <==> IsFindingKind(row.kind))
    && (row.finding.Some? ==> row.finding.value in t.findings && t.findings[row.finding.value].repo == row.repo)
    && (row.blocker.Some? ==> row.kind.Fix?)
    && (row.resumedFrom.Some? ==>
          && row.resumedFrom.value < |t.jobs| && !HasSuccessor(t.jobs, row.resumedFrom.value)
          && LinkOk(t.jobs + [row], row.resumedFrom.value, |t.jobs|)
          && !IsHeld(t, row.resumedFrom.value)
          && (row.blocker.None? && t.jobs[row.resumedFrom.value].kind == row.kind ==>
                Pos(t.jobs, row.resumedFrom.value) + 1 < MAX_RESUME_ATTEMPTS))
    && (forall j: nat | j < |t.jobs| && Live(t.jobs, j) && row.resumedFrom != Some(j) ::
          !SameWork(t.jobs[j], row.kind, row.repo, row.finding))
  }

  lemma NobodyRuns(w: World)
    requires Inv(w) && (w.phase.Picked? || w.phase.Ready? || w.phase.Withdrawn?)
    ensures forall j | 0 <= j < |w.t.jobs| :: !w.t.jobs[j].state.Running?
  {}

  /** A job that has just been created is the one at work. */
  lemma JobStarts(w: World, c: nat)
    requires TablesOk(w.t) && TreesKept(w.t.jobs, w.trees + w.lost, None)
    requires c < |w.t.jobs| && w.t.jobs[c].state.Running? && !HasSuccessor(w.t.jobs, c)
    requires forall j: nat | j < |w.t.jobs| && j != c :: !w.t.jobs[j].state.Running?
    requires w.phase == Working(c, w.t.jobs[c].kind.Harvest?) || w.phase == Working(c, false)
      || (w.phase == Opening(c) && w.t.jobs[c].resumedFrom.None? && w.t.jobs[c].pinned.None?)
    requires StatusFits(w.t, w.t.jobs[c].kind, w.t.jobs[c].finding)
    requires forall f | f in w.t.findings && w.t.findings[f].status.Fixing? :: OwnerOf(w.t, c) == Some(f)
    requires OwnerOf(w.t, c).Some? ==>
      OwnerOf(w.t, c).value in w.t.findings && w.t.findings[OwnerOf(w.t, c).value].status.Fixing?
    ensures Inv(w)
  {}

  /** Whom the claim belongs to once the job is there. */
  lemma ClaimPasses(w: World)
    requires Inv(w) && w.phase.Picked? && (w.phase.kind.Fix? ==> w.phase.claimed)
    ensures forall f | f in w.t.findings && w.t.findings[f].status.Fixing? ::
      w.phase.kind.Fix? && w.phase.finding == Some(f)
    ensures w.phase.kind.Fix? && w.phase.finding.Some? ==>
      w.phase.finding.value in w.t.findings && w.t.findings[w.phase.finding.value].status.Fixing?
    ensures StatusFits(w.t, w.phase.kind, w.phase.finding)
  {}

  /** Live harvests do not multiply, so the status still fits. */
  lemma StillFits(a: Tables, b: Tables, c: nat)
    requires a.findings == b.findings && |b.jobs| == c + 1 && |a.jobs| == c
    requires StatusFits(a, b.jobs[c].kind, b.jobs[c].finding)
    requires forall j: nat | j < c && Live(b.jobs, j) ::
      Live(a.jobs, j) && b.jobs[j].kind == a.jobs[j].kind && b.jobs[j].finding == a.jobs[j].finding
    ensures StatusFits(b, b.jobs[c].kind, b.jobs[c].finding)
  {}

  lemma FreshKeeps(w: World)
    requires Inv(w) && w.phase.Picked? && StartEnabled(w, Create) && w.phase.resume.None?
    ensures Inv(StartNext(w, Create))
  {
    var w' := StartNext(w, Create);
    SupersedeKeeps(w);
    var ids := SupersededIds(w.t.jobs, w.phase.kind, w.phase.repo, w.phase.finding);
    var t1 := w.t.(jobs := RetireAll(w.t.jobs, ids, Superseding));
    var row := FreshRow(w.phase.kind, w.phase.repo, w.phase.finding);
    assert TablesAppend(t1, row) by { PickedWhole(w); }
    AppendChange(t1, row);
    AppendKeepsTrees(t1.jobs, row, w.trees + w.lost, None);
    ClaimPasses(w);
    StillFits(w.t, w'.t, |w.t.jobs|);
    JobStarts(w', |w.t.jobs|);
  }

  lemma PickedWhole(w: World)
    requires Inv(w) && w.phase.Picked?
    ensures w.phase.finding.Some? <==> IsFindingKind(w.phase.kind)
    ensures w.phase.finding.Some? ==>
      w.phase.finding.value in w.t.findings && w.t.findings[w.phase.finding.value].repo == w.phase.repo
    ensures w.phase.resume.Some? ==> ResumeOk(w.t, w.phase.resume.value, w.phase.kind, w.phase.repo, w.phase.finding)
  {}

  /** What may follow a suspension. */
  lemma ResumedRowFits(t: Tables, p: nat, kind: JobKind, repo: nat, finding: Option<nat>)
    requires TablesOk(t) && ResumeOk(t, p, kind, repo, finding) && !IsHeld(t, p) && repo !in t.deleted
    requires forall j | 0 <= j < |t.jobs| :: !t.jobs[j].state.Running?
    requires finding.Some? <==> IsFindingKind(kind)
    requires finding.Some? ==> finding.value in t.findings && t.findings[finding.value].repo == repo
    ensures TablesAppend(t, ResumedRow(kind, repo, finding, p, t.jobs[p]))
  {
    var row := ResumedRow(kind, repo, finding, p, t.jobs[p]);
    assert RowOk(t, p) && Live(t.jobs, p) && Alone(t.jobs, p);
    assert (t.jobs + [row])[p] == t.jobs[p];
  }

  lemma PickedNotHeld(w: World)
    requires Inv(w) && w.phase.Picked? && w.phase.resume.Some? && (w.phase.kind.Fix? ==> w.phase.claimed)
    ensures !IsHeld(w.t, w.phase.resume.value)
  {}

  lemma ResumeKeeps(w: World)
    requires Inv(w) && w.phase.Picked? && StartEnabled(w, Create) && w.phase.resume.Some?
    ensures Inv(StartNext(w, Create))
  {
    var w' := StartNext(w, Create);
    var p := w.phase.resume.value;
    var row := ResumedRow(w.phase.kind, w.phase.repo, w.phase.finding, p, w.t.jobs[p]);
    NobodyRuns(w);
    PickedWhole(w);
    PickedNotHeld(w);
    ResumedRowFits(w.t, p, w.phase.kind, w.phase.repo, w.phase.finding);
    AppendChange(w.t, row);
    AppendKeepsTrees(w.t.jobs, row, w.trees + w.lost, None);
    ClaimPasses(w);
    StillFits(w.t, w'.t, |w.t.jobs|);
    JobStarts(w', |w.t.jobs|);
  }

  /** What a withdrawal leaves for its harvest. */
  lemma HandoffRowFits(w: World)
    requires Inv(w) && OutcomeEnabled(w, Handoff)
    ensures var e := w.t.jobs[w.phase.job];
      TablesAppend(w.t, ResumedRow(Harvest, e.repo, e.finding, w.phase.job, e))
  {
    var e := w.phase.job;
    var row := ResumedRow(Harvest, w.t.jobs[e].repo, w.t.jobs[e].finding, e, w.t.jobs[e]);
    NobodyRuns(w);
    assert RowOk(w.t, e);
    assert (w.t.jobs + [row])[e] == w.t.jobs[e];
  }

  lemma HandoffKeeps(w: World)
    requires Inv(w) && OutcomeEnabled(w, Handoff)
    ensures Inv(OutcomeNext(w, Handoff))
  {
    var w' := OutcomeNext(w, Handoff);
    var e, c := w.phase.job, |w.t.jobs|;
    var row := ResumedRow(Harvest, w.t.jobs[e].repo, w.t.jobs[e].finding, e, w.t.jobs[e]);
    NobodyRuns(w);
    HandoffRowFits(w);
    AppendChange(w.t, row);
    AppendKeepsTrees(w.t.jobs, row, w.trees + w.lost, Some(e));
    assert forall f | f in w.t.findings :: !w.t.findings[f].status.Fixing?;
    JobStarts(w', c);
  }

  // ------------------------------------------------------------------
  // From the row to the worker's end
  // ------------------------------------------------------------------

  lemma MakeTreeTables(t: Tables, c: nat, sha: nat, kept: set<nat>)
    requires TablesOk(t) && TreesKept(t.jobs, kept, None) && c < |t.jobs| && t.jobs[c].state.Running?
    requires t.jobs[c].resumedFrom.None? && !HasSuccessor(t.jobs, c) && Alone(t.jobs, c)
    ensures var t' := SetJob(t, c, t.jobs[c].(pinned := Some(sha)));
      && TablesOk(t') && TreesKept(t'.jobs, kept + {c}, None)
      && (forall p: nat :: HasSuccessor(t'.jobs, p) == HasSuccessor(t.jobs, p))
  {
    var t' := SetJob(t, c, t.jobs[c].(pinned := Some(sha)));
    assert RowOk(t, c);
    JobChange(t, c, t'.jobs[c]);
    forall j: nat | j < |t'.jobs| && Live(t'.jobs, j) ensures TreeKept(t'.jobs, kept + {c}, j) {
      SameLinksSameShape(t.jobs, t'.jobs, j);
      assert Live(t.jobs, j) && TreeKept(t.jobs, kept, j);
    }
  }

  lemma MakeTreeKeeps(w: World, sha: nat)
    requires Inv(w) && StartEnabled(w, MakeTree(sha))
    ensures Inv(StartNext(w, MakeTree(sha)))
  {
    var c := w.phase.job;
    var w' := StartNext(w, MakeTree(sha));
    NoRunning(w, c);
    MakeTreeTables(w.t, c, sha, w.trees + w.lost);
    assert w'.trees + w'.lost == w.trees + w.lost + {c};
    assert StatusFits(w'.t, w'.t.jobs[c].kind, w'.t.jobs[c].finding);
    JobStarts(w', c);
  }

  /** The current job's row moves to a state it may have; the finding does
      not move. */
  lemma CurrentMoves(w: World, c: nat, row: Job)
    requires Inv(w) && JobOf(w.phase) == Some(c) && (w.phase.Opening? || w.phase.Working?)
    requires row.kind == w.t.jobs[c].kind && row.repo == w.t.jobs[c].repo && row.finding == w.t.jobs[c].finding
    requires row.resumedFrom == w.t.jobs[c].resumedFrom && row.pinned == w.t.jobs[c].pinned
    requires row.blocker == w.t.jobs[c].blocker
    requires !row.state.Running? && (row.state.Suspended? ==> Counted(row))
    ensures var t' := SetJob(w.t, c, row);
      && TablesOk(t') && SameLinks(w.t.jobs, t'.jobs)
      && (forall p: nat :: HasSuccessor(t'.jobs, p) == HasSuccessor(w.t.jobs, p))
      && TreesKept(t'.jobs, w.trees + w.lost, Some(c)) && Alone(t'.jobs, c)
  {
    var t' := SetJob(w.t, c, row);
    assert RowOk(w.t, c);
    NoRunning(w, c);
    JobChange(w.t, c, row);
    assert Live(w.t.jobs, c);
    TreesKeptByShape(w.t.jobs, t'.jobs, w.trees + w.lost, None, Some(c));
  }

  /** The attempt has ended, its outcome is still to be recorded. */
  lemma JobEnds(w: World, c: nat)
    requires TablesOk(w.t) && w.phase.Recorded? && w.phase.job == c && c < |w.t.jobs|
    requires !HasSuccessor(w.t.jobs, c) && Alone(w.t.jobs, c) && TreesKept(w.t.jobs, w.trees + w.lost, Some(c))
    requires forall j | 0 <= j < |w.t.jobs| :: !w.t.jobs[j].state.Running?
    requires StatusFits(w.t, w.t.jobs[c].kind, w.t.jobs[c].finding)
    requires forall f | f in w.t.findings && w.t.findings[f].status.Fixing? :: OwnerOf(w.t, c) == Some(f)
    requires OwnerOf(w.t, c).Some? ==>
      OwnerOf(w.t, c).value in w.t.findings && w.t.findings[OwnerOf(w.t, c).value].status.Fixing?
    ensures Inv(w)
  {}

  /** What the running job's place says. */
  lemma WorkingPlace(w: World)
    requires Inv(w) && w.phase.Working?
    ensures CurrentOk(w.t, w.phase.job) && w.t.jobs[w.phase.job].state.Running?
    ensures forall j | 0 <= j < |w.t.jobs| && w.t.jobs[j].state.Running? :: j == w.phase.job
    ensures forall f | f in w.t.findings && w.t.findings[f].status.Fixing? :: OwnerOf(w.t, w.phase.job) == Some(f)
    ensures OwnerOf(w.t, w.phase.job).Some? ==>
      && OwnerOf(w.t, w.phase.job).value in w.t.findings
      && w.t.findings[OwnerOf(w.t, w.phase.job).value].status.Fixing?
  {}

  /** A job that ends makes nothing alive. */
  lemma EndFits(a: Tables, b: Tables, k: JobKind, finding: Option<nat>)
    requires StatusFits(a, k, finding) && a.findings == b.findings && |a.jobs| == |b.jobs|
    requires forall j: nat | j < |a.jobs| && Live(b.jobs, j) ::
      Live(a.jobs, j) && b.jobs[j].kind == a.jobs[j].kind && b.jobs[j].finding == a.jobs[j].finding
    ensures StatusFits(b, k, finding)
  {}

  lemma RecordKeeps(w: World, rr: RunResult)
    requires Inv(w) && StartEnabled(w, Record(rr))
    ensures Inv(StartNext(w, Record(rr)))
  {
    var c := w.phase.job;
    var w' := StartNext(w, Record(rr));
    CurrentMoves(w, c, Completed(w.t.jobs[c], rr));
    WorkingPlace(w);
    EndFits(w.t, w'.t, w.t.jobs[c].kind, w.t.jobs[c].finding);
    JobEnds(w', c);
  }

  lemma FailTreeKeeps(w: World)
    requires Inv(w) && StartEnabled(w, FailTree)
    ensures Inv(StartNext(w, FailTree))
  {
    var c := w.phase.job;
    var w' := StartNext(w, FailTree);
    CurrentMoves(w, c, w.t.jobs[c].(state := Failed));
    assert RunningOk(w');
  }

  lemma RetirePredecessorTables(w: World)
    requires Inv(w) && StartEnabled(w, RetirePredecessor)
    ensures var w' := StartNext(w, RetirePredecessor);
      && TablesOk(w'.t) && TreesKept(w'.t.jobs, w.trees + w.lost, Wanted(w'))
      && (forall q: nat :: HasSuccessor(w'.t.jobs, q) == HasSuccessor(w.t.jobs, q))
      && w.t.jobs[w.phase.job].resumedFrom.value != w.phase.job
  {
    var c := w.phase.job;
    var p := w.t.jobs[c].resumedFrom.value;
    var w' := StartNext(w, RetirePredecessor);
    assert RowOk(w.t, c) && RowOk(w.t, p);
    assert HasSuccessor(w.t.jobs, p);
    JobChange(w.t, p, w'.t.jobs[p]);
    TreesKeptByShape(w.t.jobs, w'.t.jobs, w.trees + w.lost, Wanted(w), Wanted(w'));
  }

  lemma RetirePredecessorKeeps(w: World)
    requires Inv(w) && StartEnabled(w, RetirePredecessor)
    ensures Inv(StartNext(w, RetirePredecessor))
  {
    var w' := StartNext(w, RetirePredecessor);
    RetirePredecessorTables(w);
    assert forall j: nat | j < |w.t.jobs| && Live(w'.t.jobs, j) :: Live(w.t.jobs, j);
    assert RunningOk(w');
  }

  /** A fix turned into a held checkpoint, for the tables and the trees. */
  lemma BlockKeeps(t: Tables, f: nat, c: nat, report: string, kept: set<nat>, wanted: Option<nat>)
    requires TablesOk(t) && f in t.findings && t.findings[f].anchor.None? && TreesKept(t.jobs, kept, wanted)
    requires c < |t.jobs| && t.jobs[c].kind.Fix? && t.jobs[c].finding == Some(f) && !HasSuccessor(t.jobs, c)
    requires Alone(t.jobs, c) && (Live(t.jobs, c) || wanted == Some(c))
    ensures var t' := BlockFixJob(t, f, c, report);
      TablesOk(t') && TreesKept(t'.jobs, kept, None) && !HasSuccessor(t'.jobs, c)
  {
    var t' := BlockFixJob(t, f, c, report);
    assert RowOk(t, c) && FindingOk(t, t.findings[f]);
    StreakFollowsHistory(t.findings[f].fix, "");
    HoldChange(t, f, c, t'.jobs[c], t'.findings[f]);
    TreesKeptByShape(t.jobs, t'.jobs, kept, wanted, None);
  }

  lemma UnmadeFixTables(t: Tables, f: nat, c: nat, report: string, kept: set<nat>)
    requires TablesOk(t) && f in t.findings && t.findings[f].anchor.None? && TreesKept(t.jobs, kept, None)
    requires c < |t.jobs| && t.jobs[c].kind.Fix? && t.jobs[c].finding == Some(f) && !HasSuccessor(t.jobs, c)
    requires Alone(t.jobs, c) && t.jobs[c].state.Failed? && t.jobs[c].pinned.None?
    ensures var t' := ReleaseClaim(RecordFixFailure(t, f, c, TREE_NOT_MADE, report), f);
      TablesOk(t') && TreesKept(t'.jobs, kept, None)
  {
    FixFailureKeeps(t, f, c, TREE_NOT_MADE, report);
    var t1 := RecordFixFailure(t, f, c, TREE_NOT_MADE, report);
    ReleaseKeeps(t1, f);
    assert t1.jobs[c].pinned.None?;
    forall j: nat | j < |t1.jobs| && Live(t1.jobs, j) ensures TreeKept(t1.jobs, kept, j) {
      SameLinksSameShape(t.jobs, t1.jobs, j);
      if j != c { assert Live(t.jobs, j) && TreeKept(t.jobs, kept, j); }
    }
    assert ReleaseClaim(t1, f).jobs == t1.jobs;
  }

  lemma CountUnmadeKeeps(w: World, report: string)
    requires Inv(w) && StartEnabled(w, CountUnmade(report))
    ensures Inv(StartNext(w, CountUnmade(report)))
  {
    var c := w.phase.job;
    var f := w.t.jobs[c].finding.value;
    assert FindingOk(w.t, w.t.findings[f]);
    if w.t.jobs[c].kind.Fix? {
      UnmadeFixTables(w.t, f, c, report, w.trees + w.lost);
    } else {
      RecheckFailureKeeps(w.t, f, TREE_NOT_MADE);
    }
    EndsBetween(StartNext(w, CountUnmade(report)));
  }

  lemma HoldAgainKeeps(w: World)
    requires Inv(w) && StartEnabled(w, HoldAgain)
    ensures Inv(StartNext(w, HoldAgain))
  {
    var p, f := w.phase.resume.value, w.phase.finding.value;
    assert RowOk(w.t, p) && FindingOk(w.t, w.t.findings[f]);
    assert Live(w.t.jobs, p) && Alone(w.t.jobs, p);
    BlockKeeps(w.t, f, p, w.t.jobs[p].blocker.value, w.trees + w.lost, None);
    EndsBetween(StartNext(w, HoldAgain));
  }

  lemma WorkerFailsKeeps(w: World)
    requires Inv(w) && StartEnabled(w, WorkerFails)
    ensures Inv(StartNext(w, WorkerFails))
  {
    var c := w.phase.job;
    if w.t.jobs[c].kind.Fix? {
      var f := w.t.jobs[c].finding.value;
      if w.t.jobs[c].blocker.Some? {
        assert FindingOk(w.t, w.t.findings[f]);
        NoRunning(w, c);
        BlockKeeps(w.t, f, c, w.t.jobs[c].blocker.value, w.trees + w.lost, None);
      } else {
        ReleaseKeeps(w.t, f);
      }
    }
    EndsBetween(StartNext(w, WorkerFails));
  }

  lemma DenyKeeps(t: Tables, kind: JobKind, finding: Option<nat>)
    requires TablesOk(t)
    ensures TablesOk(NoteDenial(t, kind, finding)) && NoteDenial(t, kind, finding).jobs == t.jobs
  {
    if finding.Some? && finding.value in t.findings {
      var row := t.findings[finding.value];
      assert FindingOk(t, row);
      StreakFollowsHistory(row.fix, "");
      StreakFollowsHistory(row.recheck, "");
      if row.pr.Some? { StreakFollowsHistory(row.pr.value.harvest, ""); }
      var t' := NoteDenial(t, kind, finding);
      if t' != t { FindingChange(t, finding.value, t'.findings[finding.value]); }
    }
  }

  lemma ClaimTables(w: World)
    requires Inv(w) && StartEnabled(w, ClaimFix) && w.t.findings[w.phase.finding.value].status.Queued?
    ensures TablesOk(SetStatus(w.t, w.phase.finding.value, Fixing))
  {
    var f := w.phase.finding.value;
    assert FindingOk(w.t, w.t.findings[f]);
    FindingChange(w.t, f, w.t.findings[f].(status := Fixing));
  }

  lemma ClaimKeeps(w: World)
    requires Inv(w) && StartEnabled(w, ClaimFix)
    ensures Inv(StartNext(w, ClaimFix))
  {
    if w.t.findings[w.phase.finding.value].status.Queued? {
      ClaimTables(w);
      NobodyRuns(w);
    } else {
      EndsBetween(StartNext(w, ClaimFix));
    }
  }

  predicate BeforeJob(a: StartStep) {
    a.Deny? || a.EndsEarly? || a.PrefetchFails? || a.ClaimFix? || a.HoldAgain? || a.Create?
  }

  lemma BeforeJobKeeps(w: World, a: StartStep)
    requires Inv(w) && StartEnabled(w, a) && BeforeJob(a)
    ensures Inv(StartNext(w, a))
  {
    if a.ClaimFix? { ClaimKeeps(w); }
    else if a.HoldAgain? { HoldAgainKeeps(w); }
    else if a.Create? { if w.phase.resume.Some? { ResumeKeeps(w); } else { FreshKeeps(w); } }
    else {
      if a.Deny? { DenyKeeps(w.t, w.phase.kind, w.phase.finding); }
      else if a.PrefetchFails? { HarvestFailureKeeps(w.t, w.phase.finding.value, a.key); }
      EndsBetween(StartNext(w, a));
    }
  }

  lemma AbandonKeeps(w: World)
    requires Inv(w) && StartEnabled(w, Abandon)
    ensures Inv(StartNext(w, Abandon))
  {
    if w.t.jobs[w.phase.job].kind.Fix? { ReleaseKeeps(w.t, w.t.jobs[w.phase.job].finding.value); }
    EndsBetween(StartNext(w, Abandon));
  }

  lemma StartKeepsInv(w: World, a: StartStep)
    requires Inv(w) && StartEnabled(w, a)
    ensures Inv(StartNext(w, a))
  {
    if BeforeJob(a) { BeforeJobKeeps(w, a); }
    else if a.MakeTree? { MakeTreeKeeps(w, a.sha); }
    else if a.FailTree? { FailTreeKeeps(w); }
    else if a.CountUnmade? { CountUnmadeKeeps(w, a.report); }
    else if a.Abandon? { AbandonKeeps(w); }
    else if a.WorkerFails? { WorkerFailsKeeps(w); }
    else if a.Record? { RecordKeeps(w, a.rr); }
    else { RetirePredecessorKeeps(w); }
  }
}
