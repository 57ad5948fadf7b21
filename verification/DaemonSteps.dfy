/** Between cycles: the workspace sweep (hunter-rs/src/workspace.rs) and the
    recovery of what a died process left (hunter-rs/src/daemon.rs). */
module DaemonSteps {
  import opened Domain
  import opened Chains
  import opened Tables
  import opened World
  import opened TableChanges

  /** `Release` is also the release an executor makes itself, when its job
      has ended or its fresh job superseded another chain. */
  datatype DaemonStep =
    | SweepStart
    | Release(origin: nat)
    | SweepEnd
    | SuspendOrphan(job: nat, tokens: int)
    | KillOrphan(job: nat)
    | RequeueStuck(f: nat)
    | ReconcileEnd
    | CycleEnd

  predicate MayRelease(w: World) {
    || w.phase.Sweeping? || w.phase.Opening? || w.phase.Closing?
    || (w.phase.Recorded? && w.phase.job < |w.t.jobs|
        && (w.t.jobs[w.phase.job].kind.Recheck? || w.t.jobs[w.phase.job].kind.Harvest?))
  }

  predicate Enabled(w: World, a: DaemonStep) {
    match a
    case SweepStart => w.phase.Down? || w.phase.Reconciled?
    case Release(o) => o in w.trees && MayRelease(w) && LiveCount(w.t.jobs, o) == 0
    case SweepEnd => w.phase.Sweeping? && forall o | o in w.trees :: LiveCount(w.t.jobs, o) > 0
    case SuspendOrphan(j, tokens) => w.phase.Between? && j < |w.t.jobs| && w.t.jobs[j].state.Running? && tokens > 0
    case KillOrphan(j) => w.phase.Between? && j < |w.t.jobs| && w.t.jobs[j].state.Running?
    case RequeueStuck(f) => w.phase.Between? && f in w.t.findings && w.t.findings[f].status.Fixing?
    case ReconcileEnd =>
      && w.phase.Between?
      && (forall j | 0 <= j < |w.t.jobs| :: !w.t.jobs[j].state.Running?)
      && (forall f | f in w.t.findings :: !w.t.findings[f].status.Fixing?)
    case CycleEnd => w.phase.Ready?
  }

  function Next(w: World, a: DaemonStep): World
    requires Enabled(w, a)
  {
    match a
    case SweepStart => w.(t := RetireStranded(w.t), phase := Sweeping(w.phase.Down?))
    case Release(o) => w.(trees := w.trees - {o}, lost := w.lost - {o})
    case SweepEnd => w.(phase := if w.phase.startup then Between else Ready)
    case SuspendOrphan(j, tokens) => w.(t := SetJob(w.t, j, OrphanSuspended(w.t.jobs[j], tokens)))
    case KillOrphan(j) => w.(t := SetJob(w.t, j, OrphanKilled(w.t.jobs[j])))
    case RequeueStuck(f) => w.(t := SetStatus(w.t, f, Queued))
    case ReconcileEnd => w.(phase := Reconciled)
    case CycleEnd => w.(phase := Between)
  }

  // ------------------------------------------------------------------
  // What the sweep leaves suspended
  // ------------------------------------------------------------------

  /** The three ways a suspension outlives a sweep. */
  predicate HeldOrClaimed(t: Tables, j: nat)
    requires j < |t.jobs|
  {
    t.jobs[j].kind.Fix? && StatusOf(t, t.jobs[j]).Some?
    && (StatusOf(t, t.jobs[j]).value.Blocked? || StatusOf(t, t.jobs[j]).value.Fixing?)
  }

  predicate WithoutTranscript(t: Tables, j: nat)
    requires j < |t.jobs|
  {
    !t.jobs[j].session && StatusOf(t, t.jobs[j]).Some? && Actionable(t.jobs[j].kind, StatusOf(t, t.jobs[j]).value)
  }

  function Among(a: bool, b: bool, c: bool): nat {
    (if a then 1 else 0) + (if b then 1 else 0) + (if c then 1 else 0)
  }

  /** After `retire_stranded_suspensions` every finding job that is suspended
      and not continued is in exactly one class. */
  lemma SweepClassifies(w: World, j: nat)
    requires Inv(w)
    requires j < |w.t.jobs| && IsFindingKind(w.t.jobs[j].kind) && LooseEnd(RetireStranded(w.t).jobs, j)
    ensures Among(Offered(RetireStranded(w.t), j),
                  HeldOrClaimed(RetireStranded(w.t), j),
                  WithoutTranscript(RetireStranded(w.t), j)) == 1
  {
    assert RowOk(w.t, j);
    RetireSuccessors(w.t.jobs, StrandedIds(w.t), FindingMoved);
    assert j !in StrandedIds(w.t);
  }

  /** A suspension without a transcript goes with the next fresh start of its
      work. */
  lemma FreshStartSupersedes(t: Tables, j: nat)
    requires j < |t.jobs| && LooseEnd(t.jobs, j)
    ensures CreateJob(t, t.jobs[j].kind, t.jobs[j].repo, t.jobs[j].finding, None).jobs[j].state.Killed?
  {
    assert j in SupersededIds(t.jobs, t.jobs[j].kind, t.jobs[j].repo, t.jobs[j].finding);
  }

  // ------------------------------------------------------------------
  // The invariant
  // ------------------------------------------------------------------

  lemma StrandedKeepsHolds(w: World)
    requires Inv(w)
    ensures HoldsOk(RetireStranded(w.t))
  {
    var t' := RetireStranded(w.t);
    RetireSuccessors(w.t.jobs, StrandedIds(w.t), FindingMoved);
    forall g | g in t'.findings && t'.findings[g].status.Blocked? ensures HasCheckpoint(t', g) {
      assert HasCheckpoint(w.t, g);
      var j: nat :| Checkpoint(w.t, g, j);
      assert j !in StrandedIds(w.t);
      assert Checkpoint(t', g, j);
    }
  }

  lemma StrandedClearsHarvests(t: Tables, f: nat)
    requires f in t.findings && t.findings[f].status.PrOpen?
    requires forall j: nat | j < |t.jobs| :: !t.jobs[j].state.Running?
    ensures NoLiveHarvest(RetireStranded(t), f)
  {
    var t' := RetireStranded(t);
    RetireSuccessors(t.jobs, StrandedIds(t), FindingMoved);
    forall j: nat | j < |t'.jobs| && Live(t'.jobs, j)
      ensures !(t'.jobs[j].kind.Harvest? && t'.jobs[j].finding == Some(f))
    {
      assert t'.jobs[j].state.Suspended?;
      assert j !in StrandedIds(t);
      assert LooseEnd(t.jobs, j) && !Stranded(t, j);
    }
  }

  lemma StrandedKeeps(w: World)
    requires Inv(w) && Enabled(w, SweepStart)
    ensures Inv(Next(w, SweepStart))
  {
    var w' := Next(w, SweepStart);
    RetireAllKeeps(w.t, StrandedIds(w.t), FindingMoved);
    StrandedKeepsHolds(w);
    if w.phase.Reconciled? {
      forall f | f in w'.t.findings && w'.t.findings[f].status.PrOpen? ensures NoLiveHarvest(w'.t, f) {
        StrandedClearsHarvests(w.t, f);
      }
    }
    assert RunningOk(w');
    TreesKeptByShape(w.t.jobs, w'.t.jobs, w.trees + w.lost, None, None);
  }

  lemma OrphanKeeps(w: World, j: nat, row: Job)
    requires Inv(w) && w.phase.Between? && j < |w.t.jobs| && w.t.jobs[j].state.Running?
    requires row == OrphanKilled(w.t.jobs[j]) || exists n | n > 0 :: row == OrphanSuspended(w.t.jobs[j], n)
    ensures Inv(w.(t := SetJob(w.t, j, row)))
  {
    var w' := w.(t := SetJob(w.t, j, row));
    assert RowOk(w.t, j);
    assert Live(w.t.jobs, j);
    forall s | 0 <= s < |w.t.jobs| ensures w.t.jobs[s].resumedFrom != Some(j) { assert RowOk(w.t, s); }
    JobChange(w.t, j, row);
    TreesKeptByShape(w.t.jobs, w'.t.jobs, w.trees + w.lost, None, None);
  }

  lemma KeepsInv(w: World, a: DaemonStep)
    requires Inv(w) && Enabled(w, a)
    ensures Inv(Next(w, a))
  {
    match a
    case SweepStart => StrandedKeeps(w);
    case Release(o) =>
      ReleaseKeepsTrees(w.t.jobs, w.trees + w.lost, o);
      assert Next(w, a).trees + Next(w, a).lost == w.trees + w.lost - {o};
    case SweepEnd =>
    case SuspendOrphan(j, tokens) => OrphanKeeps(w, j, OrphanSuspended(w.t.jobs[j], tokens));
    case KillOrphan(j) => OrphanKeeps(w, j, OrphanKilled(w.t.jobs[j]));
    case RequeueStuck(f) => RequeueKeeps(w, f);
    case ReconcileEnd =>
    case CycleEnd =>
  }

  lemma RequeueKeeps(w: World, f: nat)
    requires Inv(w) && Enabled(w, RequeueStuck(f))
    ensures Inv(Next(w, RequeueStuck(f)))
  {
    assert FindingOk(w.t, w.t.findings[f]);
    FindingChange(w.t, f, w.t.findings[f].(status := Queued));
  }
}
