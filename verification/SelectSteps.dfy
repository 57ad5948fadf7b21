/** Inside a cycle, before a job runs: the PR sync and the selection
    (hunter-rs/src/scheduler.rs). */
module SelectSteps {
  import opened Domain
  import opened Chains
  import opened Streaks
  import opened Tables
  import opened World
  import opened TableChanges

  const CHAIN_GAVE_UP := "resume chain gave up"

  /** `z` is the per-kind typical cost `resume_plan` judges a chain by. */
  datatype SelectStep =
    | SyncStatus(f: nat, to: FindingStatus)
    | SyncRow(f: nat, number: nat, end: PrEnd, attention: bool)
    | Discard(job: nat)
    | GiveUpOn(job: nat, z: int)
    | GiveUpCounted(job: nat, z: int, report: string)
    | PickFresh(kind: JobKind, repo: nat, finding: Option<nat>)
    | PickResume(job: nat, z: int)

  /** Whether finding `f` is in the tier of `kind`. */
  predicate InTier(t: Tables, kind: JobKind, f: nat) {
    && f in t.findings
    && var row := t.findings[f];
       match kind
       case Engage => row.status.PrOpen? && row.pr.Some? && row.pr.value.attention
       case Harvest => row.pr.Some? && !row.pr.value.harvested
                       && (row.status.Merged? || (row.pr.value.end.ClosedPr? && row.status.Closed?))
       case Recheck => row.status.Rechecking?
       case Fix => row.status.Queued?
       case _ => false
  }

  /** The chain of `j` is retired as given up. */
  function GivenUp(t: Tables, j: nat): Tables
    requires j < |t.jobs|
  {
    SetJob(t, j, Retired(t.jobs[j], Failed, Some(GiveUp)))
  }

  /** `count_given_up_chain`: one failed attempt at the finding's work. */
  function CountGivenUp(t: Tables, kind: JobKind, f: nat, j: nat, report: string): Tables
    requires j < |t.jobs| && InTier(t, kind, f)
  {
    if kind.Fix? then RecordFixFailure(t, f, j, CHAIN_GAVE_UP, report)
    else if kind.Recheck? then RecordRecheckFailure(t, f, CHAIN_GAVE_UP)
    else if kind.Harvest? then RecordHarvestFailure(t, f, CHAIN_GAVE_UP)
    else SetFinding(t, f, t.findings[f].(pr := Some(t.findings[f].pr.value.(attention := false))))
  }

  predicate Enabled(w: World, a: SelectStep) {
    && w.phase.Ready?
    && match a
       case SyncStatus(f, to) =>
         f in w.t.findings && w.t.findings[f].status.PrOpen? && (to.Queued? || to.Merged? || to.Closed?)
       case SyncRow(f, _, end, attention) =>
         && f in w.t.findings
         && (w.t.findings[f].status.PrOpen? || (w.t.findings[f].status.Merged? && end.MergedPr?))
         && (attention ==> end.Open?)
       case Discard(j) =>
         Offered(w.t, j) && !(w.t.jobs[j].pinned.Some? && ResumeOrigin(w.t.jobs, j) in w.trees)
       case GiveUpOn(j, z) => Offered(w.t, j) && PastCeiling(w.t.jobs, j, z) && !OperatorRequeued(w.t.jobs[j])
       case GiveUpCounted(j, z, _) =>
         && Offered(w.t, j) && PastCeiling(w.t.jobs, j, z) && !OperatorRequeued(w.t.jobs[j])
         && w.t.jobs[j].finding.Some? && InTier(w.t, w.t.jobs[j].kind, w.t.jobs[j].finding.value)
       case PickFresh(kind, repo, finding) =>
         && (finding.Some? <==> IsFindingKind(kind))
         && (finding.Some? ==> InTier(w.t, kind, finding.value) && w.t.findings[finding.value].repo == repo)
       case PickResume(j, z) =>
         && Offered(w.t, j) && w.t.jobs[j].pinned.Some? && ResumeOrigin(w.t.jobs, j) in w.trees
         && (!PastCeiling(w.t.jobs, j, z) || OperatorRequeued(w.t.jobs[j]))
  }

  function Next(w: World, a: SelectStep): World
    requires Enabled(w, a)
  {
    match a
    case SyncStatus(f, to) =>
      if to.Closed? then w.(t := SetFinding(w.t, f, Judged(w.t.findings[f], Closed, None, Forge)))
      else w.(t := SetStatus(w.t, f, to))
    case SyncRow(f, number, end, attention) =>
      w.(t := SetFinding(w.t, f, w.t.findings[f].(pr := Some(UpsertPr(w.t.findings[f].pr, number, end, attention)))))
    case Discard(j) => w.(t := SetJob(w.t, j, Retired(w.t.jobs[j], Killed, Some(WorkdirGone))))
    case GiveUpOn(j, _) => w.(t := GivenUp(w.t, j))
    case GiveUpCounted(j, _, report) =>
      w.(t := CountGivenUp(GivenUp(w.t, j), w.t.jobs[j].kind, w.t.jobs[j].finding.value, j, report))
    case PickFresh(kind, repo, finding) => w.(phase := Picked(kind, repo, finding, None, false))
    case PickResume(j, _) =>
      w.(phase := Picked(w.t.jobs[j].kind, w.t.jobs[j].repo, w.t.jobs[j].finding, Some(j), false))
  }

  // ------------------------------------------------------------------
  // The ceiling counts every link
  // ------------------------------------------------------------------

  lemma {:induction false} EveryLinkCounts(t: Tables, j: nat)
    requires TablesOk(t) && j < |t.jobs| && t.jobs[j].blocker.None? && Counted(t.jobs[j])
    ensures SegmentSum(t.jobs, j, CountOne) == Pos(t.jobs, j) + 1
    decreases j
  {
    assert RowOk(t, j);
    if SameKindPred(t.jobs, j).Some? { EveryLinkCounts(t, SameKindPred(t.jobs, j).value); }
  }

  /** For an unheld chain end, the attempts the query reports are the links
      the chain has. */
  lemma AttemptsAreLinks(t: Tables, j: nat)
    requires TablesOk(t) && j < |t.jobs| && LooseEnd(t.jobs, j) && t.jobs[j].blocker.None?
    ensures Stats(t.jobs, j).attempts == Pos(t.jobs, j) + 1
  {
    assert RowOk(t, j);
    assert Pos(t.jobs, j) < MAX_RESUME_ATTEMPTS;
    forall m | 0 <= m < |t.jobs| ensures SameKindPred(t.jobs, m) != Some(j) {
      assert t.jobs[m].resumedFrom != Some(j);
    }
    StatsMeterSegment(t.jobs, j, j);
    EveryLinkCounts(t, j);
  }

  // ------------------------------------------------------------------
  // The invariant
  // ------------------------------------------------------------------

  lemma EndNotHeld(t: Tables, j: nat)
    requires TablesOk(t) && Offered(t, j)
    ensures !IsHeld(t, j)
  {
    assert RowOk(t, j);
  }

  /** Retiring an offered chain in `Ready`. */
  lemma RetireOffered(w: World, j: nat, row: Job)
    requires Inv(w) && w.phase.Ready? && Offered(w.t, j)
    requires row == Retired(w.t.jobs[j], Failed, Some(GiveUp)) || row == Retired(w.t.jobs[j], Killed, Some(WorkdirGone))
    ensures Inv(w.(t := SetJob(w.t, j, row)))
    ensures Alone(SetJob(w.t, j, row).jobs, j) && !HasSuccessor(SetJob(w.t, j, row).jobs, j)
    ensures SameLinks(w.t.jobs, SetJob(w.t, j, row).jobs)
    ensures forall p: nat :: HasSuccessor(SetJob(w.t, j, row).jobs, p) == HasSuccessor(w.t.jobs, p)
  {
    var w' := w.(t := SetJob(w.t, j, row));
    assert RowOk(w.t, j);
    EndNotHeld(w.t, j);
    JobChange(w.t, j, row);
    TreesKeptByShape(w.t.jobs, w'.t.jobs, w.trees + w.lost, None, None);
    assert Live(w.t.jobs, j) && Alone(w.t.jobs, j);
  }

  /** A finding whose PR left `pr_open`, or whose `pr_state` row moved. */
  lemma SyncKeeps(w: World, f: nat, row: Finding)
    requires Inv(w) && w.phase.Ready? && f in w.t.findings && FindingOk(w.t, row) && row.repo == w.t.findings[f].repo
    requires !row.status.Blocked? && !row.status.Fixing?
    requires row.status.PrOpen? ==> w.t.findings[f].status.PrOpen?
    ensures Inv(w.(t := SetFinding(w.t, f, row)))
  {
    FindingChange(w.t, f, row);
  }

  lemma CountFixTables(w: World, f: nat, j: nat, key: string, report: string)
    requires Inv(w) && w.phase.Ready? && f in w.t.findings && w.t.findings[f].status.Queued?
    requires j < |w.t.jobs| && w.t.jobs[j].kind.Fix? && w.t.jobs[j].finding == Some(f) && w.t.jobs[j].state.Failed?
    requires !HasSuccessor(w.t.jobs, j) && Alone(w.t.jobs, j)
    requires w.t.jobs[j].pinned.Some? && Depth(w.t.jobs, j) <= MAX_DEPTH ==> Origin(w.t.jobs, j) in w.trees + w.lost
    ensures var t' := RecordFixFailure(w.t, f, j, key, report);
      TablesOk(t') && TreesKept(t'.jobs, w.trees + w.lost, None)
  {
    var t' := RecordFixFailure(w.t, f, j, key, report);
    assert FindingOk(w.t, w.t.findings[f]);
    FixFailureKeeps(w.t, f, j, key, report);
    assert TreesKept(w.t.jobs, w.trees + w.lost, Some(j));
    TreesKeptByShape(w.t.jobs, t'.jobs, w.trees + w.lost, Some(j), None);
  }

  /** What the count does to the rows that `Ready` relies on. */
  lemma CountFixRows(t: Tables, f: nat, j: nat, key: string, report: string)
    requires f in t.findings && t.findings[f].status.Queued? && j < |t.jobs| && t.jobs[j].kind.Fix?
    ensures var t' := RecordFixFailure(t, f, j, key, report);
      && |t'.jobs| == |t.jobs| && t'.findings.Keys == t.findings.Keys
      && (forall i: nat | i < |t.jobs| && i != j :: t'.jobs[i] == t.jobs[i])
      && t'.jobs[j].kind.Fix? && t'.jobs[j].resumedFrom == t.jobs[j].resumedFrom
      && (t'.jobs[j].state.Running? ==> t.jobs[j].state.Running?)
      && (forall g | g in t.findings && g != f :: t'.findings[g] == t.findings[g])
      && (t'.findings[f].status.Queued? || t'.findings[f].status.Blocked?)
  {}

  /** What `Ready` asks of the tables. */
  ghost predicate Quiet(t: Tables) {
    && (forall i: nat | i < |t.jobs| :: !t.jobs[i].state.Running?)
    && (forall g | g in t.findings :: !t.findings[g].status.Fixing?)
    && (forall g | g in t.findings && t.findings[g].status.PrOpen? :: NoLiveHarvest(t, g))
  }

  lemma ReadyIsQuiet(w: World)
    requires Inv(w) && w.phase.Ready?
    ensures Quiet(w.t)
  {}

  lemma QuietIsReady(w: World)
    requires w.phase.Ready? && TablesOk(w.t) && TreesKept(w.t.jobs, w.trees + w.lost, None) && Quiet(w.t)
    ensures Inv(w)
  {}

  lemma CountFixQuiet(t: Tables, f: nat, j: nat, key: string, report: string)
    requires f in t.findings && t.findings[f].status.Queued? && j < |t.jobs| && t.jobs[j].kind.Fix? && Quiet(t)
    ensures Quiet(RecordFixFailure(t, f, j, key, report))
  {
    var t' := RecordFixFailure(t, f, j, key, report);
    CountFixRows(t, f, j, key, report);
    forall g | g in t'.findings && t'.findings[g].status.PrOpen? ensures NoLiveHarvest(t', g) {
      HarvestsStayGone(t, t', j, g);
    }
  }

  lemma HarvestsStayGone(a: Tables, b: Tables, j: nat, g: nat)
    requires |a.jobs| == |b.jobs| && SameLinks(a.jobs, b.jobs) && j < |a.jobs| && b.jobs[j].kind.Fix?
    requires forall i: nat | i < |a.jobs| && i != j :: b.jobs[i] == a.jobs[i]
    requires NoLiveHarvest(a, g)
    ensures NoLiveHarvest(b, g)
  {
    SameLinksSameSuccessors(a.jobs, b.jobs);
  }

  lemma CountFixKeeps(w: World, f: nat, j: nat, key: string, report: string)
    requires Inv(w) && w.phase.Ready? && f in w.t.findings && w.t.findings[f].status.Queued?
    requires j < |w.t.jobs| && w.t.jobs[j].kind.Fix? && w.t.jobs[j].finding == Some(f) && w.t.jobs[j].state.Failed?
    requires !HasSuccessor(w.t.jobs, j) && Alone(w.t.jobs, j)
    requires w.t.jobs[j].pinned.Some? && Depth(w.t.jobs, j) <= MAX_DEPTH ==> Origin(w.t.jobs, j) in w.trees + w.lost
    ensures Inv(w.(t := RecordFixFailure(w.t, f, j, key, report)))
  {
    var t' := RecordFixFailure(w.t, f, j, key, report);
    CountFixTables(w, f, j, key, report);
    ReadyIsQuiet(w);
    CountFixQuiet(w.t, f, j, key, report);
    QuietIsReady(w.(t := t'));
  }

  lemma OtherCountKeeps(w: World, kind: JobKind, f: nat, j: nat, report: string)
    requires Inv(w) && w.phase.Ready? && j < |w.t.jobs| && InTier(w.t, kind, f) && !kind.Fix?
    ensures Inv(w.(t := CountGivenUp(w.t, kind, f, j, report)))
  {
    assert FindingOk(w.t, w.t.findings[f]);
    if kind.Recheck? { RecheckFailureKeeps(w.t, f, CHAIN_GAVE_UP); }
    if kind.Harvest? { HarvestFailureKeeps(w.t, f, CHAIN_GAVE_UP); }
    var t' := CountGivenUp(w.t, kind, f, j, report);
    SyncKeeps(w, f, t'.findings[f]);
  }

  lemma GiveUpKeeps(w: World, a: SelectStep)
    requires Inv(w) && a.GiveUpCounted? && Enabled(w, a)
    ensures Inv(Next(w, a))
  {
    var j, f := a.job, w.t.jobs[a.job].finding.value;
    var w1 := w.(t := GivenUp(w.t, j));
    RetireOffered(w, j, w1.t.jobs[j]);
    if w.t.jobs[j].kind.Fix? {
      SameLinksSameShape(w.t.jobs, w1.t.jobs, j);
      assert TreeKept(w.t.jobs, w.trees + w.lost, j);
      CountFixKeeps(w1, f, j, CHAIN_GAVE_UP, a.report);
    } else {
      OtherCountKeeps(w1, w.t.jobs[j].kind, f, j, a.report);
    }
  }

  lemma SyncStepKeeps(w: World, a: SelectStep)
    requires Inv(w) && (a.SyncStatus? || a.SyncRow?) && Enabled(w, a)
    ensures Inv(Next(w, a))
  {
    var f := a.f;
    assert FindingOk(w.t, w.t.findings[f]);
    if w.t.findings[f].pr.Some? { StreakFollowsHistory(w.t.findings[f].pr.value.harvest, ""); }
    SyncKeeps(w, f, Next(w, a).t.findings[f]);
  }

  lemma PickFreshKeeps(w: World, a: SelectStep)
    requires Inv(w) && a.PickFresh? && Enabled(w, a)
    ensures Inv(Next(w, a))
  {}

  lemma PickResumeKeeps(w: World, a: SelectStep)
    requires Inv(w) && a.PickResume? && Enabled(w, a)
    ensures Inv(Next(w, a))
  {
    assert RowOk(w.t, a.job);
    if w.t.jobs[a.job].blocker.None? { AttemptsAreLinks(w.t, a.job); }
  }

  lemma KeepsInv(w: World, a: SelectStep)
    requires Inv(w) && Enabled(w, a)
    ensures Inv(Next(w, a))
  {
    match a
    case SyncStatus(_, _) => SyncStepKeeps(w, a);
    case SyncRow(_, _, _, _) => SyncStepKeeps(w, a);
    case Discard(j) => RetireOffered(w, j, Retired(w.t.jobs[j], Killed, Some(WorkdirGone)));
    case GiveUpOn(j, _) => RetireOffered(w, j, Retired(w.t.jobs[j], Failed, Some(GiveUp)));
    case GiveUpCounted(_, _, _) => GiveUpKeeps(w, a);
    case PickFresh(_, _, _) => PickFreshKeeps(w, a);
    case PickResume(_, _) => PickResumeKeeps(w, a);
  }
}
