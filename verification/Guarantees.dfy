/** What holds in every reachable state of the system, and of every step. */
module Guarantees {
  import opened Domain
  import opened Chains
  import opened Tables
  import opened World
  import opened TableChanges
  import opened Runs
  import O = OperatorSteps
  import D = DaemonSteps
  import S = SelectSteps
  import E = ExecSteps

  // ------------------------------------------------------------------
  // Chains
  // ------------------------------------------------------------------

  /** Past its own segment a chain only has an engage's. */
  lemma {:induction false} DepthOfSegments(t: Tables, j: nat)
    requires TablesOk(t) && j < |t.jobs|
    ensures t.jobs[SegmentRoot(t.jobs, j)].resumedFrom.None? ==> Depth(t.jobs, j) == Pos(t.jobs, j)
    ensures t.jobs[SegmentRoot(t.jobs, j)].resumedFrom.Some? ==>
      var e := t.jobs[SegmentRoot(t.jobs, j)].resumedFrom.value;
      && e < |t.jobs| && t.jobs[j].kind.Harvest? && t.jobs[e].kind.Engage?
      && Depth(t.jobs, j) == Pos(t.jobs, j) + 1 + Pos(t.jobs, e)
    decreases j
  {
    assert RowOk(t, j);
    if t.jobs[j].resumedFrom.Some? {
      var p := t.jobs[j].resumedFrom.value;
      DepthOfSegments(t, p);
      if SameKindPred(t.jobs, j).None? {
        EngageIsFirst(t, p);
      }
    }
  }

  /** An engage continues only engages. */
  lemma {:induction false} EngageIsFirst(t: Tables, e: nat)
    requires TablesOk(t) && e < |t.jobs| && t.jobs[e].kind.Engage?
    ensures t.jobs[SegmentRoot(t.jobs, e)].resumedFrom.None?
    decreases e
  {
    assert RowOk(t, e);
    if SameKindPred(t.jobs, e).Some? { EngageIsFirst(t, SameKindPred(t.jobs, e).value); }
  }

  /** A chain has at most `MAX_RESUME_ATTEMPTS` attempts of one kind, and at
      most twice that across an engage that hands over to a harvest, up to the
      first link held on a report. Every query over such a chain sees all of
      it. */
  lemma ChainsBounded(w: World, j: nat)
    requires Reachable(w) && j < |w.t.jobs| && w.t.jobs[j].blocker.None?
    ensures Forest(w.t.jobs)
    ensures Pos(w.t.jobs, j) + 1 <= MAX_RESUME_ATTEMPTS
    ensures Depth(w.t.jobs, j) + 1 <= 2 * MAX_RESUME_ATTEMPTS
    ensures w.t.jobs[SegmentRoot(w.t.jobs, j)].resumedFrom.None? ==> Depth(w.t.jobs, j) + 1 <= MAX_RESUME_ATTEMPTS
    ensures ResumeOrigin(w.t.jobs, j) == Origin(w.t.jobs, j)
  {
    ReachableOk(w);
    DepthOfSegments(w.t, j);
    if w.t.jobs[SegmentRoot(w.t.jobs, j)].resumedFrom.Some? {
      var e := w.t.jobs[SegmentRoot(w.t.jobs, j)].resumedFrom.value;
      assert RowOk(w.t, e);
    }
    OriginExact(w.t.jobs, j);
  }

  /** The counts behind the ceiling miss no link: for an offered chain the
      query's attempts are the links the chain has. */
  lemma CountsMissNoLink(w: World, j: nat)
    requires Reachable(w) && Offered(w.t, j) && w.t.jobs[j].blocker.None?
    ensures Forest(w.t.jobs) && Stats(w.t.jobs, j).attempts == Pos(w.t.jobs, j) + 1
  {
    ReachableOk(w);
    S.AttemptsAreLinks(w.t, j);
  }

  lemma PastAtTheLimit(js: seq<Job>, j: nat, z: int)
    requires j < |js| && Stats(js, j).attempts >= MAX_RESUME_ATTEMPTS
    ensures PastCeiling(js, j, z)
  {}

  /** So `resume_plan` gives up a chain of `MAX_RESUME_ATTEMPTS` links
      whatever it spent, and never continues it. */
  lemma CeilingFires(w: World, j: nat, z: int)
    requires Reachable(w) && Offered(w.t, j) && w.t.jobs[j].blocker.None?
    requires Pos(w.t.jobs, j) + 1 == MAX_RESUME_ATTEMPTS
    ensures !S.Enabled(w, S.PickResume(j, z))
    ensures w.phase.Ready? ==> S.Enabled(w, S.GiveUpOn(j, z))
  {
    CountsMissNoLink(w, j);
    PastAtTheLimit(w.t.jobs, j, z);
  }

  /** One attempt at a piece of work at a time, and one running at all. */
  lemma OneLiveAttempt(w: World, i: nat, j: nat)
    requires Reachable(w) && i < |w.t.jobs| && j < |w.t.jobs| && Live(w.t.jobs, i) && Live(w.t.jobs, j)
    requires var a, b := w.t.jobs[i], w.t.jobs[j];
      || (a.kind == b.kind && a.finding == b.finding && (a.finding.Some? || a.repo == b.repo))
      || (a.state.Running? && b.state.Running?)
    ensures i == j
  {
    ReachableOk(w);
    assert RowOk(w.t, i) && RowOk(w.t, j);
    assert Alone(w.t.jobs, j);
  }

  /** A finished attempt is never continued by its own kind, and neither is
      a chain that was given up. */
  lemma DoneIsFinal(w: World, p: nat, j: nat)
    requires Reachable(w) && p < |w.t.jobs| && j < |w.t.jobs| && w.t.jobs[j].resumedFrom == Some(p)
    requires w.t.jobs[j].kind == w.t.jobs[p].kind
    ensures w.t.jobs[p].state.Suspended? || w.t.jobs[p].state.Killed?
  {
    ReachableOk(w);
    assert RowOk(w.t, j);
  }

  // ------------------------------------------------------------------
  // Trees
  // ------------------------------------------------------------------

  /** A live chain whose tree was made still has it, unless something outside
      the daemon took it: for every chain whose walks are not cut short, which
      no unheld chain's are. */
  lemma LiveTreeStays(w: World, j: nat)
    requires Reachable(w) && j < |w.t.jobs| && Live(w.t.jobs, j) && w.t.jobs[j].pinned.Some?
    ensures Descending(w.t.jobs)
    ensures w.t.jobs[j].blocker.None? || Depth(w.t.jobs, j) <= MAX_DEPTH ==>
      Origin(w.t.jobs, j) in w.trees || Origin(w.t.jobs, j) in w.lost
  {
    ReachableOk(w);
    assert TreeKept(w.t.jobs, w.trees + w.lost, j);
    if w.t.jobs[j].blocker.None? { ChainsBounded(w, j); }
  }

  lemma OutcomesKeepTrees(w: World, b: E.OutcomeStep)
    requires E.OutcomeEnabled(w, b)
    ensures E.OutcomeNext(w, b).trees == w.trees
  {}

  lemma OnlyReleaseRemoves(w: World, x: Step, o: nat)
    requires Enabled(w, x) && o in w.trees && o !in Next(w, x).trees && !x.Outside?
    ensures x == Daemon(D.Release(o))
  {
    if x.Outcome? { OutcomesKeepTrees(w, x.b); }
  }

  /** The daemon removes a tree only by a release, and a release takes the
      tree from a live link exactly when every live link of its chain lies
      past the depth cap. */
  lemma RemovalSparesLive(w: World, x: Step, o: nat)
    requires Reachable(w) && Enabled(w, x) && o in w.trees && o !in Next(w, x).trees && !x.Outside?
    ensures x == Daemon(D.Release(o)) && Descending(w.t.jobs)
    ensures forall j: nat | j < |w.t.jobs| && Live(w.t.jobs, j) && Origin(w.t.jobs, j) == o ::
      w.t.jobs[j].blocker.Some? && Depth(w.t.jobs, j) > MAX_DEPTH
  {
    OnlyReleaseRemoves(w, x, o);
    ReachableOk(w);
    LiveCountZero(w.t.jobs, o);
    forall j: nat | j < |w.t.jobs| && Live(w.t.jobs, j) && Origin(w.t.jobs, j) == o
      ensures w.t.jobs[j].blocker.Some? && Depth(w.t.jobs, j) > MAX_DEPTH
    {
      if w.t.jobs[j].blocker.None? { ChainsBounded(w, j); }
    }
  }

  /** When a sweep ends, every tree on disk has a live link. */
  lemma SweepLeavesLiveTrees(w: World, o: nat) returns (j: nat)
    requires Reachable(w) && D.Enabled(w, D.SweepEnd) && o in w.trees
    ensures j < |w.t.jobs| && Live(w.t.jobs, j) && Descending(w.t.jobs) && Origin(w.t.jobs, j) == o
  {
    ReachableOk(w);
    LiveCountZero(w.t.jobs, o);
    j :| j < |w.t.jobs| && Origin(w.t.jobs, j) == o && Depth(w.t.jobs, j) <= MAX_DEPTH && Live(w.t.jobs, j);
  }

  // ------------------------------------------------------------------
  // Suspensions
  // ------------------------------------------------------------------

  /** Nothing is suspended for good: after the sweep before a cycle every
      suspension that nothing continues is offered, held for the operator, or
      without a transcript and killed by the next fresh start of its work,
      which its finding is waiting for. */
  lemma NothingStrands(w: World, j: nat)
    requires Reachable(w) && w.phase.Reconciled?
    requires j < |w.t.jobs| && IsFindingKind(w.t.jobs[j].kind) && LooseEnd(RetireStranded(w.t).jobs, j)
    ensures var t := RetireStranded(w.t);
      && D.Among(Offered(t, j), D.HeldOrClaimed(t, j), D.WithoutTranscript(t, j)) == 1
      && (D.HeldOrClaimed(t, j) ==> StatusOf(t, t.jobs[j]) == Some(Blocked))
      && (D.WithoutTranscript(t, j) ==>
            CreateJob(t, t.jobs[j].kind, t.jobs[j].repo, t.jobs[j].finding, None).jobs[j].state.Killed?)
  {
    ReachableOk(w);
    D.SweepClassifies(w, j);
    D.FreshStartSupersedes(RetireStranded(w.t), j);
  }

  /** A checkpoint that recovery may still have to hand back. */
  predicate Recoverable(t: Tables, p: nat, f: nat) {
    && p < |t.jobs| && LooseEnd(t.jobs, p) && t.jobs[p].session && t.jobs[p].repo !in t.deleted
    && t.jobs[p].kind.Fix? && t.jobs[p].finding == Some(f)
    && f in t.findings && (t.findings[f].status.Queued? || t.findings[f].status.Fixing?)
  }

  predicate RecoveryStep(x: Step, f: nat) {
    x.Daemon? || (x.Outside? && x.o != O.Unqueue(f))
  }

  lemma OutsideRecovery(w: World, o: O.OutsideStep, p: nat, f: nat)
    requires O.Enabled(w, o) && o != O.Unqueue(f) && Recoverable(w.t, p, f) && Idle(w.phase)
    ensures Recoverable(O.Next(w, o).t, p, f)
  {
    assert O.Next(w, o).t.jobs == w.t.jobs;
  }

  lemma DaemonRecovery(w: World, d: D.DaemonStep, p: nat, f: nat)
    requires D.Enabled(w, d) && Recoverable(w.t, p, f)
    ensures Recoverable(D.Next(w, d).t, p, f)
  {
    var t' := D.Next(w, d).t;
    if d == D.SweepStart {
      RetireSuccessors(w.t.jobs, StrandedIds(w.t), FindingMoved);
      assert p !in StrandedIds(w.t);
    } else {
      SameLinksSameSuccessors(w.t.jobs, t'.jobs);
      assert t'.jobs[p] == w.t.jobs[p];
    }
  }

  /** Without a scheduler step nothing is claimed and no scan is at work. */
  lemma {:induction false} RecoveryKeeps(w: World, xs: seq<Step>, p: nat, f: nat)
    requires After(w, xs).Some? && Recoverable(w.t, p, f) && Idle(w.phase)
    requires forall x | x in xs :: RecoveryStep(x, f)
    ensures Recoverable(After(w, xs).value.t, p, f) && Idle(After(w, xs).value.phase)
    decreases |xs|
  {
    if xs != [] {
      var x := xs[0];
      assert RecoveryStep(x, f);
      if x.Daemon? { DaemonRecovery(w, x.d, p, f); } else { OutsideRecovery(w, x.o, p, f); }
      RecoveryKeeps(Next(w, x), xs[1..], p, f);
    }
  }

  lemma ClaimIsRecoverable(w: World, p: nat)
    requires Inv(w) && w.phase.Picked? && w.phase.claimed && w.phase.resume == Some(p) && w.phase.finding.Some?
    requires p < |w.t.jobs| && w.t.jobs[p].session
    ensures Recoverable(w.t, p, w.phase.finding.value)
  {
    assert RowOk(w.t, p);
  }

  lemma RecoveredIsOffered(w: World, p: nat, f: nat)
    requires Inv(w) && Recoverable(w.t, p, f) && Idle(w.phase) && !Unreconciled(w.phase)
    ensures Offered(w.t, p)
  {}

  lemma CrashThen(w: World, xs: seq<Step>)
    ensures After(w, [Outside(O.Crash)] + xs) == After(w.(phase := Down), xs)
    ensures Inv(w) ==> Inv(w.(phase := Down))
  {
    StepThen(w, Outside(O.Crash), xs);
    if Inv(w) { O.KeepsInv(w, O.Crash); }
  }

  lemma RecoveryOffers(w: World, xs: seq<Step>, p: nat, f: nat)
    requires Inv(w) && After(w, xs).Some? && Recoverable(w.t, p, f) && Idle(w.phase)
    requires forall x | x in xs :: RecoveryStep(x, f)
    ensures !Unreconciled(After(w, xs).value.phase) ==> Offered(After(w, xs).value.t, p)
  {
    RecoveryKeeps(w, xs, p, f);
    RunKeepsInv(w, xs);
    var w' := After(w, xs).value;
    if !Unreconciled(w'.phase) { RecoveredIsOffered(w', p, f); }
  }

  /** A crash between a fix's claim and its job row loses nothing: however
      sweep, recovery and operator steps interleave afterwards, once recovery
      is done the checkpoint is offered again, unless the operator took the
      finding off the queue. */
  lemma ClaimSurvivesCrash(w: World, p: nat, xs: seq<Step>)
    requires Reachable(w) && w.phase.Picked? && w.phase.claimed && w.phase.resume == Some(p) && w.phase.finding.Some?
    requires p < |w.t.jobs| && w.t.jobs[p].session
    requires forall x | x in xs :: RecoveryStep(x, w.phase.finding.value)
    requires After(w, [Outside(O.Crash)] + xs).Some?
    ensures var w' := After(w, [Outside(O.Crash)] + xs).value;
      !Unreconciled(w'.phase) ==> Offered(w'.t, p)
  {
    CrashThen(w, xs);
    ReachableOk(w);
    ClaimIsRecoverable(w, p);
    RecoveryOffers(w.(phase := Down), xs, p, w.phase.finding.value);
  }

  // ------------------------------------------------------------------
  // What becomes of a run that is over
  // ------------------------------------------------------------------

  lemma RecordedRow(w: World, rr: RunResult)
    requires E.StartEnabled(w, E.Record(rr)) && Inv(w)
    ensures var t', c := E.StartNext(w, E.Record(rr)).t, w.phase.job;
      && c < |t'.jobs| && (LooseEnd(t'.jobs, c) <==> WorthContinuing(rr))
      && t'.jobs[c].session == rr.session && t'.jobs[c].repo !in t'.deleted
      && t'.jobs[c].kind == w.t.jobs[c].kind && t'.jobs[c].finding == w.t.jobs[c].finding
  {
    var c := w.phase.job;
    var t' := E.StartNext(w, E.Record(rr)).t;
    assert RowOk(w.t, c);
    SameLinksSameSuccessors(w.t.jobs, t'.jobs);
  }

  /** From the moment it is recorded a run is offered for a resume exactly if
      it is worth continuing and, for work at a finding, as long as that
      finding still waits for this kind of work - whatever the findings have
      become by then. */
  lemma OfferedAfterRun(w: World, rr: RunResult, findings: map<nat, Finding>)
    requires Reachable(w) && E.StartEnabled(w, E.Record(rr))
    ensures var t, c := E.StartNext(w, E.Record(rr)).t.(findings := findings), w.phase.job;
      c < |t.jobs| &&
      (Offered(t, c) <==>
        && WorthContinuing(rr)
        && (IsFindingKind(t.jobs[c].kind) ==>
              StatusOf(t, t.jobs[c]).Some? && Actionable(t.jobs[c].kind, StatusOf(t, t.jobs[c]).value)))
  {
    ReachableOk(w);
    RecordedRow(w, rr);
  }

  /** How each kind's executor records an attempt that is to be continued. */
  function PauseOf(kind: JobKind): E.OutcomeStep {
    match kind
    case Fix => E.FixPaused
    case Recheck => E.RecheckPaused
    case Harvest => E.HarvestPaused
    case Engage => E.EngagePublished(None)
    case _ => E.ScanEnded
  }

  lemma PauseKeepsFix(w: World, c: nat)
    requires Inv(w) && w.phase.Recorded? && w.phase.job == c && c < |w.t.jobs| && w.t.jobs[c].blocker.None?
    requires LooseEnd(w.t.jobs, c) && E.HasFinding(w, c) && w.t.jobs[c].kind.Fix?
    ensures E.OutcomeEnabled(w, E.FixPaused)
    ensures var t' := E.OutcomeNext(w, E.FixPaused).t;
      t'.jobs == w.t.jobs && t'.deleted == w.t.deleted && StatusOf(t', t'.jobs[c]) == Some(Queued)
  {}

  lemma PauseKeepsWork(w: World, c: nat)
    requires Inv(w) && w.phase.Recorded? && w.phase.job == c && c < |w.t.jobs| && w.t.jobs[c].blocker.None?
    requires LooseEnd(w.t.jobs, c)
    requires E.HasFinding(w, c) || !IsFindingKind(w.t.jobs[c].kind)
    requires !w.t.jobs[c].kind.Fix?
    ensures E.OutcomeEnabled(w, PauseOf(w.t.jobs[c].kind))
    ensures var t' := E.OutcomeNext(w, PauseOf(w.t.jobs[c].kind)).t;
      && t'.jobs == w.t.jobs && t'.deleted == w.t.deleted
      && (IsFindingKind(w.t.jobs[c].kind) && !w.t.jobs[c].kind.Harvest? ==>
            StatusOf(t', t'.jobs[c]).Some? && Actionable(w.t.jobs[c].kind, StatusOf(t', t'.jobs[c]).value))
      && (w.t.jobs[c].kind.Harvest? ==> StatusOf(t', t'.jobs[c]) == StatusOf(w.t, w.t.jobs[c]))
  {}

  lemma PauseKeepsJobs(w: World, c: nat)
    requires Inv(w) && w.phase.Recorded? && w.phase.job == c && c < |w.t.jobs| && w.t.jobs[c].blocker.None?
    requires LooseEnd(w.t.jobs, c)
    requires E.HasFinding(w, c) || !IsFindingKind(w.t.jobs[c].kind)
    ensures E.OutcomeEnabled(w, PauseOf(w.t.jobs[c].kind))
    ensures var t' := E.OutcomeNext(w, PauseOf(w.t.jobs[c].kind)).t;
      && t'.jobs == w.t.jobs && t'.deleted == w.t.deleted
      && (IsFindingKind(w.t.jobs[c].kind) && !w.t.jobs[c].kind.Harvest? ==>
            StatusOf(t', t'.jobs[c]).Some? && Actionable(w.t.jobs[c].kind, StatusOf(t', t'.jobs[c]).value))
      && (w.t.jobs[c].kind.Harvest? ==> StatusOf(t', t'.jobs[c]) == StatusOf(w.t, w.t.jobs[c]))
  {
    if w.t.jobs[c].kind.Fix? { PauseKeepsFix(w, c); } else { PauseKeepsWork(w, c); }
  }

  /** And it is recorded so: the executor of an unheld attempt worth
      continuing leaves its finding where the attempt is offered, so the very
      next selection may continue it. A harvest's finding is not its own to
      keep: what the operator made of it meanwhile decides. */
  lemma PausedIsOffered(w: World, rr: RunResult)
    requires Reachable(w) && E.StartEnabled(w, E.Record(rr)) && WorthContinuing(rr)
    requires w.t.jobs[w.phase.job].blocker.None?
    ensures var w1, c := E.StartNext(w, E.Record(rr)), w.phase.job;
      c < |w1.t.jobs| &&
      var pause := PauseOf(w1.t.jobs[c].kind);
      && E.OutcomeEnabled(w1, pause)
      && (Offered(E.OutcomeNext(w1, pause).t, c) <==>
            (w1.t.jobs[c].kind.Harvest? ==>
               StatusOf(w1.t, w1.t.jobs[c]).Some? && Actionable(Harvest, StatusOf(w1.t, w1.t.jobs[c]).value)))
  {
    var w1, c := E.StartNext(w, E.Record(rr)), w.phase.job;
    ReachableOk(w);
    RecordedRow(w, rr);
    StepKeepsInv(w, Start(E.Record(rr)));
    assert RowOk(w1.t, c);
    PauseKeepsJobs(w1, c);
  }
}
