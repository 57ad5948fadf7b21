/** Runs in which no operator puts a held fix back on the queue: no held link
    is ever continued, so the ceiling bounds every chain and every live
    chain keeps its tree. */
module UnheldRuns {
  import opened Domain
  import opened Chains
  import opened Streaks
  import opened Tables
  import opened World
  import opened TableChanges
  import opened Runs
  import opened Guarantees
  import O = OperatorSteps
  import D = DaemonSteps
  import S = SelectSteps
  import E = ExecSteps

  /** The operator queues a finding that still has a held checkpoint. */
  ghost predicate Requeues(w: World, x: Step) {
    x.Outside? && x.o.Verdict? && x.o.to.Queued? && HasCheckpoint(w.t, x.o.f)
  }

  ghost predicate NeverRequeues(w: World, xs: seq<Step>)
    decreases |xs|
  {
    xs != [] && Enabled(w, xs[0]) ==> !Requeues(w, xs[0]) && NeverRequeues(Next(w, xs[0]), xs[1..])
  }

  predicate Parked(s: FindingStatus) {
    s.Blocked? || s.Rejected? || s.Wontfix? || s.Note?
  }

  /** A held row is the end of its chain, and while it is suspended its
      finding is where only an operator moves it on - or nowhere. */
  ghost predicate HeldRowOk(t: Tables, j: nat)
    requires j < |t.jobs|
  {
    t.jobs[j].blocker.Some? ==>
      && !HasSuccessor(t.jobs, j) && !t.jobs[j].state.Running? && Pos(t.jobs, j) < MAX_RESUME_ATTEMPTS
      && (t.jobs[j].state.Suspended? ==>
            t.jobs[j].finding.Some? && t.jobs[j].finding.value in t.findings
            && Parked(t.findings[t.jobs[j].finding.value].status)
            && t.findings[t.jobs[j].finding.value].anchor.None?)
  }

  ghost predicate HeldRowsOk(t: Tables) {
    forall j: nat | j < |t.jobs| :: HeldRowOk(t, j)
  }

  /** The attempt under way is not a held chain's. */
  ghost predicate PlaceUnheld(w: World) {
    match w.phase
    case Picked(_, _, _, resume, _) => resume.Some? && resume.value < |w.t.jobs| ==>
      w.t.jobs[resume.value].blocker.None?
    case Opening(c) => c < |w.t.jobs| ==> w.t.jobs[c].blocker.None?
    case Unmade(c) => c < |w.t.jobs| ==> w.t.jobs[c].blocker.None?
    case Working(c, _) => c < |w.t.jobs| ==> w.t.jobs[c].blocker.None?
    case Recorded(c, _) => c < |w.t.jobs| ==> w.t.jobs[c].blocker.None?
    case Withdrawn(c) => c < |w.t.jobs| ==> w.t.jobs[c].blocker.None?
    case Concluded(c) => c < |w.t.jobs| ==> w.t.jobs[c].blocker.None?
    case _ => true
  }

  ghost predicate Unheld(w: World) {
    HeldRowsOk(w.t) && PlaceUnheld(w)
  }

  // ------------------------------------------------------------------
  // Every step keeps it
  // ------------------------------------------------------------------

  /** A finding's row moves. */
  lemma FindingMoves(t: Tables, f: nat, row: Finding)
    requires HeldRowsOk(t)
    requires f in t.findings && Parked(t.findings[f].status) && t.findings[f].anchor.None? && HasCheckpoint(t, f) ==>
      Parked(row.status) && row.anchor.None?
    requires RowsOk(t)
    ensures HeldRowsOk(SetFinding(t, f, row))
  {
    var t' := SetFinding(t, f, row);
    forall j: nat | j < |t'.jobs| ensures HeldRowOk(t', j) {
      assert HeldRowOk(t, j) && RowOk(t, j);
      if t.jobs[j].blocker.Some? && t.jobs[j].state.Suspended? && t.jobs[j].finding == Some(f) {
        assert Checkpoint(t, f, j);
      }
    }
  }

  /** A job's row moves: not to a suspension, or to one that is not held. */
  lemma RowMoves(t: Tables, c: nat, row: Job)
    requires HeldRowsOk(t) && c < |t.jobs| && row.resumedFrom == t.jobs[c].resumedFrom && row.kind == t.jobs[c].kind
    requires row.blocker == t.jobs[c].blocker && row.finding == t.jobs[c].finding
    requires row.blocker.Some? ==> !row.state.Running? && !row.state.Suspended?
    requires Descending(t.jobs)
    ensures HeldRowsOk(SetJob(t, c, row))
  {
    var t' := SetJob(t, c, row);
    SameLinksSameSuccessors(t.jobs, t'.jobs);
    forall j: nat | j < |t'.jobs| ensures HeldRowOk(t', j) {
      assert HeldRowOk(t, j);
      SameLinksSameShape(t.jobs, t'.jobs, j);
    }
  }

  /** A hold: the row and its finding together. */
  lemma HoldMoves(t: Tables, f: nat, c: nat, report: string)
    requires HeldRowsOk(t) && c < |t.jobs| && f in t.findings && t.jobs[c].finding == Some(f)
    requires !HasSuccessor(t.jobs, c)
    requires t.findings[f].anchor.None? && Descending(t.jobs) && Pos(t.jobs, c) < MAX_RESUME_ATTEMPTS
    ensures HeldRowsOk(BlockFixJob(t, f, c, report))
  {
    var t' := BlockFixJob(t, f, c, report);
    SameLinksSameSuccessors(t.jobs, t'.jobs);
    forall j: nat | j < |t'.jobs| ensures HeldRowOk(t', j) {
      assert HeldRowOk(t, j);
      SameLinksSameShape(t.jobs, t'.jobs, j);
    }
  }

  /** Retiring suspensions. */
  lemma RetiredMove(t: Tables, ids: set<nat>, reason: KilledReason)
    requires HeldRowsOk(t) && Descending(t.jobs)
    ensures HeldRowsOk(t.(jobs := RetireAll(t.jobs, ids, reason)))
  {
    var t' := t.(jobs := RetireAll(t.jobs, ids, reason));
    RetireSuccessors(t.jobs, ids, reason);
    forall j: nat | j < |t'.jobs| ensures HeldRowOk(t', j) {
      assert HeldRowOk(t, j);
      SameLinksSameShape(t.jobs, t'.jobs, j);
    }
  }

  /** A new row, not a held chain's. */
  lemma RowAppended(t: Tables, row: Job)
    requires HeldRowsOk(t) && row.blocker.None? && RowsOk(t)
    requires row.resumedFrom.Some? ==> row.resumedFrom.value < |t.jobs| && t.jobs[row.resumedFrom.value].blocker.None?
    requires Descending(t.jobs)
    ensures HeldRowsOk(t.(jobs := t.jobs + [row]))
  {
    var t' := t.(jobs := t.jobs + [row]);
    AppendShape(t.jobs, row);
    forall j: nat | j < |t'.jobs| ensures HeldRowOk(t', j) {
      if j < |t.jobs| {
        assert HeldRowOk(t, j);
        SameLinksSameShape(t.jobs, t'.jobs, j);
      }
    }
  }

  lemma HandOverUnheld(t: Tables, q: nat, p: nat)
    requires HeldRowsOk(t) && RowsOk(t) && q in t.findings && p in t.findings && q != p
    requires t.findings[q].status.Queued? && (t.findings[p].status.New? || t.findings[p].status.Queued?)
    ensures HeldRowsOk(HandOver(t, q, p))
  {
    var t' := HandOver(t, q, p);
    var t1 := SetFinding(t, q, t'.findings[q]);
    FindingMoves(t, q, t'.findings[q]);
    assert RowsOk(t1) by { forall j | 0 <= j < |t1.jobs| ensures RowOk(t1, j) { assert RowOk(t, j); } }
    FindingMoves(t1, p, t'.findings[p]);
  }

  lemma OutsideUnheld(w: World, o: O.OutsideStep)
    requires Inv(w) && Unheld(w) && O.Enabled(w, o) && !Requeues(w, Outside(o))
    ensures Unheld(O.Next(w, o))
  {
    var t' := O.Next(w, o).t;
    if O.OneRow(o) {
      FindingMoves(w.t, o.f, t'.findings[o.f]);
    } else if o.HandOverDep? {
      HandOverUnheld(w.t, o.queued, o.proposed);
    } else {
      forall j: nat | j < |t'.jobs| ensures HeldRowOk(t', j) { assert HeldRowOk(w.t, j); }
    }
  }

  lemma DaemonUnheld(w: World, d: D.DaemonStep)
    requires Inv(w) && Unheld(w) && D.Enabled(w, d)
    ensures Unheld(D.Next(w, d))
  {
    var t' := D.Next(w, d).t;
    if d.SweepStart? {
      RetiredMove(w.t, StrandedIds(w.t), FindingMoved);
    } else if d.SuspendOrphan? || d.KillOrphan? {
      assert HeldRowOk(w.t, d.job);
      RowMoves(w.t, d.job, t'.jobs[d.job]);
    } else if d.RequeueStuck? {
      FindingMoves(w.t, d.f, t'.findings[d.f]);
    }
  }

  /** The third failure holds, any other moves only the streak. */
  lemma FailureMoves(t: Tables, f: nat, c: nat, key: string, report: string)
    requires HeldRowsOk(t) && RowsOk(t) && f in t.findings && t.findings[f].anchor.None?
    requires Descending(t.jobs) && c < |t.jobs| && Pos(t.jobs, c) < MAX_RESUME_ATTEMPTS
    requires t.jobs[c].finding == Some(f) && !HasSuccessor(t.jobs, c)
    ensures HeldRowsOk(RecordFixFailure(t, f, c, key, report))
  {
    var counted := SetFinding(t, f, t.findings[f].(fix := Fail(t.findings[f].fix, key)));
    FindingMoves(t, f, counted.findings[f]);
    if counted.findings[f].fix.count >= MAX_SAME_FAILURE { HoldMoves(counted, f, c, report); }
  }

  lemma ReleaseMoves(t: Tables, f: nat)
    requires HeldRowsOk(t) && RowsOk(t) && f in t.findings
    ensures HeldRowsOk(E.ReleaseClaim(t, f))
  {
    if t.findings[f].status.Fixing? { FindingMoves(t, f, t.findings[f].(status := Queued)); }
  }

  /** What the resume tier offers is not held. */
  lemma OfferedUnheld(t: Tables, j: nat)
    requires RowsOk(t) && HeldRowsOk(t) && Offered(t, j)
    ensures t.jobs[j].blocker.None?
  {
    assert HeldRowOk(t, j) && RowOk(t, j);
  }

  lemma GiveUpUnheld(w: World, s: S.SelectStep)
    requires Inv(w) && HeldRowsOk(w.t) && S.Enabled(w, s) && s.GiveUpCounted?
    ensures HeldRowsOk(S.Next(w, s).t)
  {
    var j, f := s.job, w.t.jobs[s.job].finding.value;
    OfferedUnheld(w.t, j);
    assert FindingOk(w.t, w.t.findings[f]);
    var t1 := S.GivenUp(w.t, j);
    S.RetireOffered(w, j, t1.jobs[j]);
    RowMoves(w.t, j, t1.jobs[j]);
    if w.t.jobs[j].kind.Fix? {
      FailureMoves(t1, f, j, S.CHAIN_GAVE_UP, s.report);
    } else {
      var t2 := S.CountGivenUp(t1, w.t.jobs[j].kind, f, j, s.report);
      assert t2 == SetFinding(t1, f, t2.findings[f]);
      FindingMoves(t1, f, t2.findings[f]);
    }
  }

  lemma SelectUnheld(w: World, s: S.SelectStep)
    requires Inv(w) && Unheld(w) && S.Enabled(w, s)
    ensures Unheld(S.Next(w, s))
  {
    var t' := S.Next(w, s).t;
    if s.SyncStatus? || s.SyncRow? {
      FindingMoves(w.t, s.f, t'.findings[s.f]);
    } else if s.Discard? || s.GiveUpOn? {
      OfferedUnheld(w.t, s.job);
      RowMoves(w.t, s.job, t'.jobs[s.job]);
    } else if s.GiveUpCounted? {
      GiveUpUnheld(w, s);
    } else if s.PickResume? {
      OfferedUnheld(w.t, s.job);
    }
  }

  lemma CreateUnheld(w: World)
    requires Inv(w) && Unheld(w) && E.StartEnabled(w, E.Create)
    ensures Unheld(E.StartNext(w, E.Create))
  {
    if w.phase.resume.Some? {
      var p := w.phase.resume.value;
      RowAppended(w.t, ResumedRow(w.phase.kind, w.phase.repo, w.phase.finding, p, w.t.jobs[p]));
    } else {
      var ids := SupersededIds(w.t.jobs, w.phase.kind, w.phase.repo, w.phase.finding);
      RetiredMove(w.t, ids, Superseding);
      RetireAllKeeps(w.t, ids, Superseding);
      RowAppended(w.t.(jobs := RetireAll(w.t.jobs, ids, Superseding)),
        FreshRow(w.phase.kind, w.phase.repo, w.phase.finding));
    }
  }

  lemma DenyUnheld(t: Tables, kind: JobKind, finding: Option<nat>)
    requires HeldRowsOk(t) && RowsOk(t)
    ensures HeldRowsOk(E.NoteDenial(t, kind, finding))
  {
    var t' := E.NoteDenial(t, kind, finding);
    if t' != t { FindingMoves(t, finding.value, t'.findings[finding.value]); }
  }

  lemma UnmadeUnheld(w: World, report: string)
    requires Inv(w) && Unheld(w) && E.StartEnabled(w, E.CountUnmade(report))
    ensures HeldRowsOk(E.StartNext(w, E.CountUnmade(report)).t)
  {
    var c, f := w.phase.job, w.t.jobs[w.phase.job].finding.value;
    assert FindingOk(w.t, w.t.findings[f]);
    if w.t.jobs[c].kind.Fix? {
      FailureMoves(w.t, f, c, E.TREE_NOT_MADE, report);
      var t1 := RecordFixFailure(w.t, f, c, E.TREE_NOT_MADE, report);
      FixFailureKeeps(w.t, f, c, E.TREE_NOT_MADE, report);
      ReleaseMoves(t1, f);
    } else {
      var t1 := RecordRecheckFailure(w.t, f, E.TREE_NOT_MADE);
      FindingMoves(w.t, f, t1.findings[f]);
    }
  }

  lemma StartUnheld(w: World, a: E.StartStep)
    requires Inv(w) && Unheld(w) && E.StartEnabled(w, a)
    ensures Unheld(E.StartNext(w, a))
  {
    var t' := E.StartNext(w, a).t;
    if a.Deny? {
      DenyUnheld(w.t, w.phase.kind, w.phase.finding);
    } else if a.PrefetchFails? || a.ClaimFix? {
      var f := w.phase.finding.value;
      if t' != w.t { FindingMoves(w.t, f, t'.findings[f]); }
    } else if a.Create? {
      CreateUnheld(w);
    } else if a.MakeTree? || a.FailTree? || a.Record? {
      RowMoves(w.t, w.phase.job, t'.jobs[w.phase.job]);
    } else if a.CountUnmade? {
      UnmadeUnheld(w, a.report);
    } else if a.Abandon? || a.WorkerFails? {
      if w.t.jobs[w.phase.job].kind.Fix? { ReleaseMoves(w.t, w.t.jobs[w.phase.job].finding.value); }
    } else if a.RetirePredecessor? {
      var p := w.t.jobs[w.phase.job].resumedFrom.value;
      assert HasSuccessor(w.t.jobs, p) && HeldRowOk(w.t, p);
      RowMoves(w.t, p, t'.jobs[p]);
    }
  }

  lemma FixOutcomeUnheld(w: World, b: E.OutcomeStep)
    requires Inv(w) && Unheld(w) && E.OutcomeEnabled(w, b)
    requires b.FixBlocked? || b.FixDeclined? || b.FixShipped? || b.FixPaused? || b.FixFailed?
    ensures Unheld(E.OutcomeNext(w, b))
  {
    var c, f := w.phase.job, w.t.jobs[w.phase.job].finding.value;
    var t' := E.OutcomeNext(w, b).t;
    assert FindingOk(w.t, w.t.findings[f]);
    if b.FixBlocked? {
      HoldMoves(w.t, f, c, b.report);
    } else if b.FixFailed? {
      FailureMoves(w.t, f, c, b.key, b.report);
      FixFailureKeeps(w.t, f, c, b.key, b.report);
      ReleaseMoves(RecordFixFailure(w.t, f, c, b.key, b.report), f);
    } else {
      if b.FixPaused? {
        var paused := w.t.findings[f].(fix := Pause(w.t.findings[f].fix), status := Queued);
        assert w.t.findings[f := w.t.findings[f].(fix := Pause(w.t.findings[f].fix))][f := paused]
          == w.t.findings[f := paused];
      }
      assert t' == SetFinding(w.t, f, t'.findings[f]);
      FindingMoves(w.t, f, t'.findings[f]);
    }
  }

  lemma RecheckUnheld(w: World, b: E.OutcomeStep)
    requires Inv(w) && Unheld(w) && E.OutcomeEnabled(w, b)
    requires b.RecheckPaused? || b.RecheckJudged? || b.RecheckFailed?
    ensures Unheld(E.OutcomeNext(w, b))
  {
    var f := w.t.jobs[w.phase.job].finding.value;
    assert w.t.findings[f].status.Rechecking?;
    FindingMoves(w.t, f, E.OutcomeNext(w, b).t.findings[f]);
  }

  lemma WithdrawUnheld(w: World, b: E.OutcomeStep)
    requires Inv(w) && Unheld(w) && E.OutcomeEnabled(w, b) && (b.WithdrawRow? || b.WithdrawStatus?)
    ensures Unheld(E.OutcomeNext(w, b))
  {
    var f := w.t.jobs[w.phase.job].finding.value;
    assert w.t.findings[f].status.PrOpen?;
    FindingMoves(w.t, f, E.OutcomeNext(w, b).t.findings[f]);
  }

  lemma HarvestUnheld(w: World, b: E.OutcomeStep)
    requires RowsOk(w.t) && Unheld(w) && E.OutcomeEnabled(w, b)
    requires b.HarvestPaused? || b.HarvestFailed? || b.HarvestMerged? || b.HarvestClosed?
    ensures Unheld(E.OutcomeNext(w, b))
  {
    var f := w.t.jobs[w.phase.job].finding.value;
    var t' := E.OutcomeNext(w, b).t;
    if t' != w.t { FindingMoves(w.t, f, t'.findings[f]); }
  }

  lemma HandoffUnheld(w: World)
    requires Inv(w) && Unheld(w) && E.OutcomeEnabled(w, E.Handoff)
    ensures Unheld(E.OutcomeNext(w, E.Handoff))
  {
    var e := w.t.jobs[w.phase.job];
    RowAppended(w.t, ResumedRow(Harvest, e.repo, e.finding, w.phase.job, e));
  }

  lemma JobOutcomeUnheld(w: World, b: E.OutcomeStep)
    requires Inv(w) && Unheld(w) && E.OutcomeEnabled(w, b) && (b.EngagePublished? || b.RetireConcluded?)
    ensures Unheld(E.OutcomeNext(w, b))
  {
    var w' := E.OutcomeNext(w, b);
    if w'.t != w.t { RowMoves(w.t, w.phase.job, w'.t.jobs[w.phase.job]); }
  }

  /** The outcomes that only release a claim, or end the attempt. */
  lemma EndUnheld(w: World, b: E.OutcomeStep)
    requires Inv(w) && Unheld(w) && E.OutcomeEnabled(w, b)
    requires b.Bail? || b.WithdrawRefused? || b.NoHandoff? || b.ScanEnded? || b.Close?
    ensures Unheld(E.OutcomeNext(w, b))
  {
    if b.Bail? && w.t.jobs[w.phase.job].kind.Fix? { ReleaseMoves(w.t, w.t.jobs[w.phase.job].finding.value); }
  }

  lemma OutcomeUnheld(w: World, b: E.OutcomeStep)
    requires Inv(w) && Unheld(w) && E.OutcomeEnabled(w, b)
    ensures Unheld(E.OutcomeNext(w, b))
  {
    if b.FixBlocked? || b.FixDeclined? || b.FixShipped? || b.FixPaused? || b.FixFailed? {
      FixOutcomeUnheld(w, b);
    } else if b.HarvestPaused? || b.HarvestFailed? || b.HarvestMerged? || b.HarvestClosed? {
      HarvestUnheld(w, b);
    } else if b.WithdrawRow? || b.WithdrawStatus? {
      WithdrawUnheld(w, b);
    } else if b.RecheckPaused? || b.RecheckJudged? || b.RecheckFailed? {
      RecheckUnheld(w, b);
    } else if b.Handoff? {
      HandoffUnheld(w);
    } else if b.EngagePublished? || b.RetireConcluded? {
      JobOutcomeUnheld(w, b);
    } else {
      EndUnheld(w, b);
    }
  }

  lemma StepUnheld(w: World, x: Step)
    requires Inv(w) && Unheld(w) && Enabled(w, x) && !Requeues(w, x)
    ensures Unheld(Next(w, x))
  {
    match x
    case Outside(o) => OutsideUnheld(w, o);
    case Daemon(d) => DaemonUnheld(w, d);
    case Select(s) => SelectUnheld(w, s);
    case Start(a) => StartUnheld(w, a);
    case Outcome(b) => OutcomeUnheld(w, b);
  }

  lemma {:induction false} RunUnheld(w: World, xs: seq<Step>)
    requires Inv(w) && Unheld(w) && After(w, xs).Some? && NeverRequeues(w, xs)
    ensures Inv(After(w, xs).value) && Unheld(After(w, xs).value)
    decreases |xs|
  {
    if xs != [] {
      StepUnheld(w, xs[0]);
      StepKeepsInv(w, xs[0]);
      RunUnheld(Next(w, xs[0]), xs[1..]);
    }
  }

  // ------------------------------------------------------------------
  // What such runs keep
  // ------------------------------------------------------------------

  /** In every run without an operator's requeue of a held fix no chain of one
      kind exceeds `MAX_RESUME_ATTEMPTS` attempts, and none across a handoff
      twice that - held or not. */
  lemma EveryChainBounded(xs: seq<Step>, j: nat)
    requires After(START, xs).Some? && NeverRequeues(START, xs) && j < |After(START, xs).value.t.jobs|
    ensures var js := After(START, xs).value.t.jobs;
      Forest(js) && Pos(js, j) + 1 <= MAX_RESUME_ATTEMPTS && Depth(js, j) + 1 <= 2 * MAX_RESUME_ATTEMPTS
  {
    StartOk();
    RunUnheld(START, xs);
    var w := After(START, xs).value;
    assert Reachable(w);
    assert RowOk(w.t, j) && HeldRowOk(w.t, j);
    if w.t.jobs[j].blocker.Some? {
      DepthOfSegments(w.t, j);
    } else {
      ChainsBounded(w, j);
    }
  }

  /** And every live chain's tree is where the chain left it, unless something
      outside the daemon took it. */
  lemma EveryLiveTreeStays(xs: seq<Step>, j: nat)
    requires After(START, xs).Some? && NeverRequeues(START, xs)
    requires var w := After(START, xs).value; j < |w.t.jobs| && Live(w.t.jobs, j) && w.t.jobs[j].pinned.Some?
    ensures var w := After(START, xs).value;
      Descending(w.t.jobs) && (Origin(w.t.jobs, j) in w.trees || Origin(w.t.jobs, j) in w.lost)
  {
    EveryChainBounded(xs, j);
    LiveTreeStays(After(START, xs).value, j);
  }
}
