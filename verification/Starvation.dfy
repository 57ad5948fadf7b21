/** Attempts that end before their job: what they change, and that the ones
    counted nowhere keep their finding in front of everything else
    (hunter-rs/src/scheduler.rs). */
module Starvation {
  import opened Domain
  import opened Streaks
  import opened Tables
  import opened World
  import opened Runs
  import opened Selection
  import opened SelectionProofs
  import opened Workspaces
  import O = OperatorSteps
  import D = DaemonSteps
  import S = SelectSteps
  import E = ExecSteps
  import R = Rotation

  // ------------------------------------------------------------------
  // The tiers decide the pick
  // ------------------------------------------------------------------

  /** The same findings in the same tiers. */
  ghost predicate SameTiers(a: Tables, b: Tables) {
    && a.findings.Keys == b.findings.Keys
    && (forall f | f in a.findings :: a.findings[f].repo == b.findings[f].repo)
    && (forall k, f :: S.InTier(a, k, f) <==> S.InTier(b, k, f))
  }

  lemma {:induction false} SameItems(a: Tables, b: Tables, kind: JobKind, force: Option<nat>, n: nat)
    requires SameTiers(a, b)
    ensures ItemsBelow(a, kind, force, n) == ItemsBelow(b, kind, force, n)
  {
    if n > 0 { SameItems(a, b, kind, force, n - 1); }
  }

  lemma {:induction false} SameFirstIn(a: Tables, b: Tables, env: Env, ahead: bool, n: nat)
    requires SameTiers(a, b) && n <= |TIERS|
    ensures FirstIn(a, env, ahead, n) == FirstIn(b, env, ahead, n)
    decreases |TIERS| - n
  {
    if n < |TIERS| {
      SameItems(a, b, TIERS[n], env.force, Bound(a.findings.Keys));
      assert TierPick(a, env, TIERS[n], ahead) == TierPick(b, env, TIERS[n], ahead);
      SameFirstIn(a, b, env, ahead, n + 1);
    }
  }

  lemma SameTiersSamePick(a: Tables, b: Tables, env: Env)
    requires SameTiers(a, b)
    ensures FirstItem(a, env) == FirstItem(b, env)
  {
    SameFirstIn(a, b, env, true, 0);
    SameFirstIn(a, b, env, false, 0);
  }

  // ------------------------------------------------------------------
  // Before the job
  // ------------------------------------------------------------------

  /** The attempt ends with no job to show for it. */
  predicate EndsWithoutJob(a: E.StartStep) {
    a.Deny? || a.EndsEarly? || a.PrefetchFails?
  }

  /** The one such end that is counted, and whether it is the third in a
      row. */
  predicate EndsTheWork(w: World, a: E.StartStep)
    requires E.StartEnabled(w, a)
  {
    a.PrefetchFails?
    && TrailingRun(w.t.findings[w.phase.finding.value].pr.value.harvest.log, a.key) + 1 >= MAX_SAME_FAILURE
  }

  lemma DenialKeepsTiers(t: Tables, kind: JobKind, finding: Option<nat>)
    ensures SameTiers(t, E.NoteDenial(t, kind, finding))
  {}

  lemma PrefetchKeepsTiers(t: Tables, f: nat, key: string)
    requires f in t.findings && t.findings[f].pr.Some? && Faithful(t.findings[f].pr.value.harvest)
    ensures TrailingRun(t.findings[f].pr.value.harvest.log, key) + 1 < MAX_SAME_FAILURE ==>
      SameTiers(t, RecordHarvestFailure(t, f, key))
    ensures TrailingRun(t.findings[f].pr.value.harvest.log, key) + 1 >= MAX_SAME_FAILURE ==>
      !S.InTier(RecordHarvestFailure(t, f, key), Harvest, f)
  {
    var s := t.findings[f].pr.value.harvest;
    if s.last != Some(key) { OtherKeysRestart(s.log, key); }
  }

  /** An attempt at the selected finding that ends before its job leaves that
      finding the next one selected, whatever else is waiting - exactly unless
      it was a harvest's third identical prefetch failure. A fetch that fails
      for a recheck or an engage is counted nowhere. */
  lemma UncountedEndRepeats(w: World, a: E.StartStep, env: Env)
    requires Reachable(w) && E.StartEnabled(w, a) && EndsWithoutJob(a) && w.phase.finding.Some?
    requires FirstItem(w.t, env) == Some((w.phase.kind, w.phase.finding.value))
    ensures FirstItem(E.StartNext(w, a).t, env) == FirstItem(w.t, env) <==> !EndsTheWork(w, a)
    ensures !a.PrefetchFails? ==> E.StartNext(w, a).t.jobs == w.t.jobs
  {
    ReachableOk(w);
    var t' := E.StartNext(w, a).t;
    if a.Deny? {
      DenialKeepsTiers(w.t, w.phase.kind, w.phase.finding);
      SameTiersSamePick(w.t, t', env);
    } else if a.PrefetchFails? {
      var f := w.phase.finding.value;
      assert FindingOk(w.t, w.t.findings[f]);
      PrefetchKeepsTiers(w.t, f, a.key);
      if !EndsTheWork(w, a) { SameTiersSamePick(w.t, t', env); }
    }
  }

  // ------------------------------------------------------------------
  // For ever
  // ------------------------------------------------------------------

  /** No job and no claim is left to recover. */
  ghost predicate Rested(t: Tables) {
    && (forall j | 0 <= j < |t.jobs| :: !t.jobs[j].state.Running?)
    && (forall f | f in t.findings :: !t.findings[f].status.Fixing?)
  }

  /** The tables and trees as a sweep leaves them. */
  ghost predicate Swept(w: World) {
    w.phase.Ready? && StrandedIds(w.t) == {} && KeptTrees(w.t.jobs, w.trees) == w.trees
  }

  const SWEEP: seq<Step> := [Daemon(D.ReconcileEnd), Daemon(D.SweepStart), Daemon(D.SweepEnd)]

  function FreshPick(w: World, kind: JobKind, f: nat): Step
    requires f in w.t.findings
  {
    Select(S.PickFresh(kind, w.t.findings[f].repo, Some(f)))
  }

  /** A whole cycle on finding `f` that ends before its job. */
  function FutileCycle(w: World, kind: JobKind, f: nat): seq<Step>
    requires f in w.t.findings
  {
    [FreshPick(w, kind, f), Start(E.EndsEarly)] + SWEEP
  }

  lemma TwoSteps(w: World, x: Step, w1: World, y: Step, w2: World, rest: seq<Step>)
    requires Enabled(w, x) && Next(w, x) == w1 && Enabled(w1, y) && Next(w1, y) == w2
    ensures After(w, [x, y] + rest) == After(w2, rest)
  {
    StepThen(w, x, [y] + rest);
    StepThen(w1, y, rest);
    assert [x] + ([y] + rest) == [x, y] + rest;
  }

  lemma SweepSteps(w: World)
    requires Rested(w.t) && Swept(w)
    ensures var w1, w2, w3 := w.(phase := Between), w.(phase := Reconciled), w.(phase := Sweeping(false));
      && D.Enabled(w1, D.ReconcileEnd) && D.Next(w1, D.ReconcileEnd) == w2
      && D.Enabled(w2, D.SweepStart) && D.Next(w2, D.SweepStart) == w3
      && D.Enabled(w3, D.SweepEnd) && D.Next(w3, D.SweepEnd) == w
  {
    assert RetireStranded(w.t).jobs == w.t.jobs;
    assert forall o | o in w.trees :: o in KeptTrees(w.t.jobs, w.trees);
  }

  lemma SweepChangesNothing(w: World)
    requires Rested(w.t) && Swept(w)
    ensures After(w.(phase := Between), SWEEP) == Some(w)
  {
    var w1, w2, w3 := w.(phase := Between), w.(phase := Reconciled), w.(phase := Sweeping(false));
    SweepSteps(w);
    TwoSteps(w1, Daemon(D.ReconcileEnd), w2, Daemon(D.SweepStart), w3, [Daemon(D.SweepEnd)]);
    StepThen(w3, Daemon(D.SweepEnd), []);
    assert [Daemon(D.SweepEnd)] + [] == [Daemon(D.SweepEnd)] && After(w, []) == Some(w);
    assert [Daemon(D.ReconcileEnd), Daemon(D.SweepStart)] + [Daemon(D.SweepEnd)] == SWEEP;
  }

  lemma EarlyEndSteps(w: World, kind: JobKind, f: nat)
    requires w.phase.Ready? && IsFindingKind(kind) && S.InTier(w.t, kind, f)
    ensures var w1 := w.(phase := Picked(kind, w.t.findings[f].repo, Some(f), None, false));
      && Enabled(w, FreshPick(w, kind, f)) && Next(w, FreshPick(w, kind, f)) == w1
      && Enabled(w1, Start(E.EndsEarly)) && Next(w1, Start(E.EndsEarly)) == w.(phase := Between)
  {}

  /** Such a cycle leads back to where it began. */
  lemma FutileCycleRepeats(w: World, kind: JobKind, f: nat)
    requires Inv(w) && Swept(w) && IsFindingKind(kind) && S.InTier(w.t, kind, f)
    ensures After(w, FutileCycle(w, kind, f)) == Some(w)
  {
    var w1 := w.(phase := Picked(kind, w.t.findings[f].repo, Some(f), None, false));
    EarlyEndSteps(w, kind, f);
    TwoSteps(w, FreshPick(w, kind, f), w1, Start(E.EndsEarly), w.(phase := Between), SWEEP);
    SweepChangesNothing(w);
  }

  function Times(xs: seq<Step>, n: nat): seq<Step> {
    if n == 0 then [] else xs + Times(xs, n - 1)
  }

  lemma {:induction false} LoopRepeats(w: World, xs: seq<Step>, n: nat)
    requires After(w, xs) == Some(w)
    ensures After(w, Times(xs, n)) == Some(w)
  {
    if n > 0 {
      LoopRepeats(w, xs, n - 1);
      RunThenRun(w, xs, w, Times(xs, n - 1), w);
    }
  }

  /** So while the attempts at the selected finding end early, the scheduler
      serves nothing else, for any number of cycles: it selects the same
      finding from the same state each time. */
  lemma StuckForEver(w: World, s: State, env: Env, kind: JobKind, f: nat, n: nat)
    requires Reachable(w) && Swept(w) && Stands(w, s, env) && IsFindingKind(kind) && S.InTier(w.t, kind, f)
    requires Selected(s, env, Mode.Run) == (s, Some(Fresh(kind, f)))
    ensures After(w, Times(FutileCycle(w, kind, f), n)) == Some(w)
  {
    ReachableOk(w);
    FutileCycleRepeats(w, kind, f);
    LoopRepeats(w, FutileCycle(w, kind, f), n);
  }

  // ------------------------------------------------------------------
  // A run that shows it
  // ------------------------------------------------------------------

  function Inbox(s: FindingStatus, judge: Judge): Finding {
    Finding(0, None, s, FRESH, FRESH, None, None, judge)
  }

  function TwoFindings(a: Finding, b: Finding, p: Phase): World {
    World(Tables([], map[0 := a, 1 := b], {}), {}, {}, p)
  }

  lemma TwoFiled()
    ensures Reachable(TwoFindings(Inbox(New, Nobody), Inbox(New, Nobody), Down))
  {
    assert After(START, []) == Some(START);
    StepReaches(START, Outside(O.FileFinding(0, 0, None)));
    var w := World(Tables([], map[0 := Inbox(New, Nobody)], {}), {}, {}, Down);
    assert START.t.findings[0 := Inbox(New, Nobody)] == w.t.findings;
    assert O.Next(START, O.FileFinding(0, 0, None)) == w;
    StepReaches(w, Outside(O.FileFinding(1, 0, None)));
    assert w.t.findings[1 := Inbox(New, Nobody)] == map[0 := Inbox(New, Nobody), 1 := Inbox(New, Nobody)];
  }

  lemma OneRechecksOneWaits()
    ensures Reachable(TwoFindings(Inbox(Rechecking, Nobody), Inbox(Queued, Operator), Down))
  {
    TwoFiled();
    var w := TwoFindings(Inbox(New, Nobody), Inbox(New, Nobody), Down);
    var w1 := TwoFindings(Inbox(Rechecking, Nobody), Inbox(New, Nobody), Down);
    StepReaches(w, Outside(O.AskRecheck(0)));
    assert w.t.findings[0 := Inbox(Rechecking, Nobody)] == w1.t.findings;
    assert O.Next(w, O.AskRecheck(0)) == w1;
    StepReaches(w1, Outside(O.Verdict(1, Queued, false)));
    var w2 := TwoFindings(Inbox(Rechecking, Nobody), Inbox(Queued, Operator), Down);
    assert w1.t.findings[1 := Inbox(Queued, Operator)] == w2.t.findings;
  }

  function RecheckAndFix(p: Phase): World {
    TwoFindings(Inbox(Rechecking, Nobody), Inbox(Queued, Operator), p)
  }

  lemma BothReady()
    ensures Reachable(RecheckAndFix(Ready)) && Swept(RecheckAndFix(Ready))
  {
    OneRechecksOneWaits();
    var t := RecheckAndFix(Down).t;
    assert RetireStranded(t) == t;
    StepReaches(RecheckAndFix(Down), Daemon(D.SweepStart));
    StepReaches(RecheckAndFix(Sweeping(true)), Daemon(D.SweepEnd));
    StepReaches(RecheckAndFix(Between), Daemon(D.ReconcileEnd));
    StepReaches(RecheckAndFix(Reconciled), Daemon(D.SweepStart));
    StepReaches(RecheckAndFix(Sweeping(false)), Daemon(D.SweepEnd));
  }

  lemma NobodyWaitsFor(env: Env, kind: JobKind)
    requires kind.Engage? || kind.Harvest?
    ensures TierPick(RecheckAndFix(Ready).t, env, kind, false).None?
  {}

  lemma RecheckIsFirst(env: Env)
    requires env.overridden == {} && env.force.None?
    ensures FirstItem(RecheckAndFix(Ready).t, env) == Some((Recheck, 0))
  {
    var t := RecheckAndFix(Ready).t;
    assert FirstIn(t, env, true, 0).None?;
    NobodyWaitsFor(env, Engage);
    NobodyWaitsFor(env, Harvest);
    assert S.InTier(t, Recheck, 0) && Forced(env.force, t.findings[0].repo);
    assert TierPick(t, env, TIERS[2], false) == Some(0);
    assert TIERS[0] == Engage && TIERS[1] == Harvest && TIERS[2] == Recheck;
    assert FirstIn(t, env, false, 2) == Some((Recheck, 0));
    assert FirstIn(t, env, false, 1) == FirstIn(t, env, false, 2);
  }

  /** A recheck whose repository cannot be fetched holds up a queued fix for
      any number of cycles. */
  lemma UnfetchableRecheckStarvesFix(env: Env, repos: seq<R.Repo>, n: nat)
    requires env.overridden == {} && env.force.None? && env.trees == {}
    ensures var w := RecheckAndFix(Ready);
      && Reachable(w) && S.InTier(w.t, Fix, 1)
      && Selected(State(w.t, repos), env, Mode.Run).1 == Some(Fresh(Recheck, 0))
      && After(w, Times(FutileCycle(w, Recheck, 0), n)) == Some(w)
  {
    var w := RecheckAndFix(Ready);
    BothReady();
    RecheckIsFirst(env);
    assert Resumable(w.t) == [];
    StuckForEver(w, State(w.t, repos), env, Recheck, 0, n);
  }
}
