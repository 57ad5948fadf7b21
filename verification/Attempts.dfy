/** A whole attempt at the finding a cycle selected, from the pick to the next
    selection, and exactly when that selects the same finding again
    (hunter-rs/src/scheduler.rs). */
module Attempts {
  import opened Domain
  import opened Streaks
  import opened Tables
  import opened World
  import opened Runs
  import opened Selection
  import opened Starvation
  import O = OperatorSteps
  import D = DaemonSteps
  import S = SelectSteps
  import E = ExecSteps

  // ------------------------------------------------------------------
  // The outcomes that settle the work
  // ------------------------------------------------------------------

  /** One more failure with this key is the third in a row. */
  predicate Third(s: Streak, key: string) {
    TrailingRun(s.log, key) + 1 >= MAX_SAME_FAILURE
  }

  /** Where the attempt holds the finding again, or counts the failure that
      ends it. */
  predicate StartSettles(w: World, a: E.StartStep)
    requires E.StartEnabled(w, a)
  {
    match a
    case PrefetchFails(key) => Third(w.t.findings[w.phase.finding.value].pr.value.harvest, key)
    case HoldAgain => true
    case CountUnmade(_) =>
      var c := w.phase.job;
      var row := w.t.findings[w.t.jobs[c].finding.value];
      Third(if w.t.jobs[c].kind.Fix? then row.fix else row.recheck, E.TREE_NOT_MADE)
    case WorkerFails => w.t.jobs[w.phase.job].kind.Fix? && w.t.jobs[w.phase.job].blocker.Some?
    case _ => false
  }

  /** A fix shipped, declined or held, a recheck judged, a withdrawal or a
      harvest recorded, or the failure that ends the work. */
  predicate OutcomeSettles(w: World, b: E.OutcomeStep)
    requires E.OutcomeEnabled(w, b)
  {
    match b
    case FixBlocked(_, _) => true
    case FixDeclined(_, _) => true
    case FixShipped => true
    case FixFailed(key, _) => Third(w.t.findings[w.t.jobs[w.phase.job].finding.value].fix, key)
    case RecheckJudged(_, _) => true
    case RecheckFailed(key) => Third(w.t.findings[w.t.jobs[w.phase.job].finding.value].recheck, key)
    case WithdrawRow(_) => true
    case WithdrawStatus => true
    case HarvestFailed(key) => !w.phase.handoff && Third(E.RowOf(w).value.harvest, key)
    case HarvestMerged => true
    case HarvestClosed(_, _, _) => true
    case _ => false
  }

  predicate Settles(w: World, x: Step)
    requires Enabled(w, x)
  {
    (x.Start? && StartSettles(w, x.a)) || (x.Outcome? && OutcomeSettles(w, x.b))
  }

  /** The failures that are counted. */
  predicate StartCounts(a: E.StartStep) {
    a.PrefetchFails? || a.CountUnmade?
  }

  predicate OutcomeCounts(w: World, b: E.OutcomeStep)
    requires E.OutcomeEnabled(w, b)
  {
    b.FixFailed? || b.RecheckFailed? || (b.HarvestFailed? && !w.phase.handoff)
  }

  predicate Counts(w: World, x: Step)
    requires Enabled(w, x)
  {
    (x.Start? && StartCounts(x.a)) || (x.Outcome? && OutcomeCounts(w, x.b))
  }

  // ------------------------------------------------------------------
  // One attempt
  // ------------------------------------------------------------------

  /** The executor, sweep and recovery, a crash, and what else happens outside
      without moving a finding: all but the selection and the operator. */
  predicate OfAttempt(x: Step) {
    x.Start? || x.Outcome? || x.Daemon? || (x.Outside? && (x.o.Crash? || x.o.LoseTree? || x.o.DeleteRepo?))
  }

  /** In its tier, or claimed out of it. */
  predicate StillDue(t: Tables, kind: JobKind, f: nat) {
    S.InTier(t, kind, f) || (kind.Fix? && f in t.findings && t.findings[f].status.Fixing?)
  }

  /** The scheduler is at `f`, on the job of this kind or on the harvest that
      continues its withdrawal, or the attempt is over. */
  predicate AtFinding(w: World, kind: JobKind, f: nat) {
    && IsFindingKind(kind) && f in w.t.findings
    && (|| Idle(w.phase)
        || (w.phase.Picked? && w.phase.kind == kind && w.phase.finding == Some(f))
        || (JobOf(w.phase).Some? && OnJob(w, JobOf(w.phase).value, kind, f)))
  }

  predicate OnJob(w: World, c: nat, kind: JobKind, f: nat) {
    && c < |w.t.jobs| && w.t.jobs[c].finding == Some(f)
    && (w.t.jobs[c].kind == kind || w.t.jobs[c].kind.Harvest?)
    && (w.t.jobs[c].kind != kind || w.phase.Withdrawn? ==> kind.Engage? && !StillDue(w.t, kind, f))
  }

  /** Where its steps find the finding. */
  predicate Underway(w: World, kind: JobKind, f: nat) {
    && AtFinding(w, kind, f)
    && var row := w.t.findings[f];
       && Faithful(row.fix) && Faithful(row.recheck) && Faithful(HarvestOf(row))
       && (w.phase.Picked? ==> (row.status.Fixing? <==> w.phase.claimed && kind.Fix?))
       && (w.phase.Concluded? || w.phase.Closing? ==> !row.status.Fixing?)
       && (w.phase.Opening? || w.phase.Unmade? || w.phase.Working? || w.phase.Recorded? ==>
             WorksOn(w, w.phase.job, row.status))
  }

  predicate WorksOn(w: World, c: nat, s: FindingStatus) {
    && c < |w.t.jobs|
    && (s.Fixing? <==> w.t.jobs[c].kind.Fix?)
    && (w.t.jobs[c].kind.Recheck? ==> s.Rechecking?)
    && (w.phase.Unmade? ==> w.t.jobs[c].kind.Fix? || w.t.jobs[c].kind.Recheck?)
  }

  lemma UnderwayHolds(w: World, kind: JobKind, f: nat)
    requires Inv(w) && AtFinding(w, kind, f)
    ensures Underway(w, kind, f)
  {
    assert FindingOk(w.t, w.t.findings[f]);
  }

  /** No other finding changes. */
  predicate OthersStay(t: Tables, t': Tables, f: nat) {
    && t'.findings.Keys == t.findings.Keys
    && forall g | g in t.findings ::
         t'.findings[g].repo == t.findings[g].repo && (g != f ==> t'.findings[g] == t.findings[g])
  }

  function Columns(s: Streak): (nat, Option<string>) {
    (s.count, s.last)
  }

  function HarvestOf(row: Finding): Streak {
    if row.pr.Some? then row.pr.value.harvest else FRESH
  }

  /** The counters' columns of `f`. */
  predicate SameCounters(t: Tables, t': Tables, f: nat) {
    && f in t.findings && f in t'.findings
    && var a, b := t.findings[f], t'.findings[f];
       && Columns(b.fix) == Columns(a.fix) && Columns(b.recheck) == Columns(a.recheck)
       && Columns(HarvestOf(b)) == Columns(HarvestOf(a))
  }

  /** What one step of an attempt does to its finding. */
  ghost predicate Fares(w: World, w': World, settled: bool, counted: bool, kind: JobKind, f: nat) {
    && AtFinding(w', kind, f) && OthersStay(w.t, w'.t, f)
    && (StillDue(w'.t, kind, f) <==> StillDue(w.t, kind, f) && !settled)
    && (settled || counted || SameCounters(w.t, w'.t, f))
  }

  ghost predicate StartFares(w: World, a: E.StartStep, kind: JobKind, f: nat)
    requires E.StartEnabled(w, a)
  {
    Fares(w, E.StartNext(w, a), StartSettles(w, a), StartCounts(a), kind, f)
  }

  ghost predicate OutcomeFares(w: World, b: E.OutcomeStep, kind: JobKind, f: nat)
    requires E.OutcomeEnabled(w, b)
  {
    Fares(w, E.OutcomeNext(w, b), OutcomeSettles(w, b), OutcomeCounts(w, b), kind, f)
  }

  lemma FailReaches(s: Streak, key: string)
    requires Faithful(s)
    ensures Fail(s, key).count >= MAX_SAME_FAILURE <==> Third(s, key)
  {
    if s.last != Some(key) { OtherKeysRestart(s.log, key); }
  }

  lemma PrefetchStep(w: World, key: string, kind: JobKind, f: nat)
    requires Underway(w, kind, f) && E.StartEnabled(w, E.PrefetchFails(key))
    ensures StartFares(w, E.PrefetchFails(key), kind, f)
  {
    var row := w.t.findings[f];
    FailReaches(row.pr.value.harvest, key);
  }

  lemma DenyStep(w: World, kind: JobKind, f: nat)
    requires Underway(w, kind, f) && E.StartEnabled(w, E.Deny)
    ensures StartFares(w, E.Deny, kind, f)
  {}

  lemma ClaimStep(w: World, a: E.StartStep, kind: JobKind, f: nat)
    requires Underway(w, kind, f) && E.StartEnabled(w, a) && (a.ClaimFix? || a.HoldAgain?)
    ensures StartFares(w, a, kind, f)
  {}

  lemma CreateStep(w: World, a: E.StartStep, kind: JobKind, f: nat)
    requires Underway(w, kind, f) && E.StartEnabled(w, a) && (a.Create? || a.EndsEarly?)
    ensures StartFares(w, a, kind, f)
  {}

  lemma UnmadeStep(w: World, report: string, kind: JobKind, f: nat)
    requires Underway(w, kind, f) && E.StartEnabled(w, E.CountUnmade(report))
    ensures StartFares(w, E.CountUnmade(report), kind, f)
  {
    var row := w.t.findings[f];
    FailReaches(row.fix, E.TREE_NOT_MADE);
    FailReaches(row.recheck, E.TREE_NOT_MADE);
  }

  lemma AbandonStep(w: World, kind: JobKind, f: nat)
    requires Underway(w, kind, f) && E.StartEnabled(w, E.Abandon)
    ensures StartFares(w, E.Abandon, kind, f)
  {}

  lemma BackendStep(w: World, kind: JobKind, f: nat)
    requires Underway(w, kind, f) && E.StartEnabled(w, E.WorkerFails)
    ensures StartFares(w, E.WorkerFails, kind, f)
  {}

  lemma TreeStep(w: World, a: E.StartStep, kind: JobKind, f: nat)
    requires Underway(w, kind, f) && E.StartEnabled(w, a) && (a.MakeTree? || a.FailTree?)
    ensures StartFares(w, a, kind, f)
  {}

  lemma RecordStep(w: World, a: E.StartStep, kind: JobKind, f: nat)
    requires Underway(w, kind, f) && E.StartEnabled(w, a) && (a.Record? || a.RetirePredecessor?)
    ensures StartFares(w, a, kind, f)
  {}

  lemma FixFailure(w: World, key: string, report: string, kind: JobKind, f: nat)
    requires Underway(w, kind, f) && E.OutcomeEnabled(w, E.FixFailed(key, report))
    ensures OutcomeFares(w, E.FixFailed(key, report), kind, f)
  {
    var row := w.t.findings[f];
    FailReaches(row.fix, key);
  }

  lemma FixSettled(w: World, b: E.OutcomeStep, kind: JobKind, f: nat)
    requires Underway(w, kind, f) && E.OutcomeEnabled(w, b)
    requires b.FixBlocked? || b.FixDeclined? || b.FixShipped?
    ensures OutcomeFares(w, b, kind, f)
  {}

  lemma FixPause(w: World, kind: JobKind, f: nat)
    requires Underway(w, kind, f) && E.OutcomeEnabled(w, E.FixPaused)
    ensures OutcomeFares(w, E.FixPaused, kind, f)
  {}

  lemma RecheckFailure(w: World, key: string, kind: JobKind, f: nat)
    requires Underway(w, kind, f) && E.OutcomeEnabled(w, E.RecheckFailed(key))
    ensures OutcomeFares(w, E.RecheckFailed(key), kind, f)
  {
    var row := w.t.findings[f];
    FailReaches(row.recheck, key);
  }

  lemma RecheckOutcome(w: World, b: E.OutcomeStep, kind: JobKind, f: nat)
    requires Underway(w, kind, f) && E.OutcomeEnabled(w, b) && (b.RecheckPaused? || b.RecheckJudged?)
    ensures OutcomeFares(w, b, kind, f)
  {}

  lemma HarvestFailure(w: World, key: string, kind: JobKind, f: nat)
    requires Underway(w, kind, f) && E.OutcomeEnabled(w, E.HarvestFailed(key))
    ensures OutcomeFares(w, E.HarvestFailed(key), kind, f)
  {
    var row := w.t.findings[f];
    FailReaches(row.pr.value.harvest, key);
  }

  lemma HarvestPause(w: World, kind: JobKind, f: nat)
    requires Underway(w, kind, f) && E.OutcomeEnabled(w, E.HarvestPaused)
    ensures OutcomeFares(w, E.HarvestPaused, kind, f)
  {}

  lemma HarvestReviewed(w: World, kind: JobKind, f: nat)
    requires Underway(w, kind, f) && E.OutcomeEnabled(w, E.HarvestMerged)
    ensures OutcomeFares(w, E.HarvestMerged, kind, f)
  {}

  lemma HarvestClassified(w: World, b: E.OutcomeStep, kind: JobKind, f: nat)
    requires Underway(w, kind, f) && E.OutcomeEnabled(w, b) && b.HarvestClosed?
    ensures OutcomeFares(w, b, kind, f)
  {}

  lemma EngageOutcome(w: World, b: E.OutcomeStep, kind: JobKind, f: nat)
    requires Underway(w, kind, f) && E.OutcomeEnabled(w, b)
    requires b.EngagePublished? || b.WithdrawRefused?
    ensures OutcomeFares(w, b, kind, f)
  {}

  lemma WithdrawOutcome(w: World, b: E.OutcomeStep, kind: JobKind, f: nat)
    requires Underway(w, kind, f) && E.OutcomeEnabled(w, b)
    requires b.WithdrawRow? || b.WithdrawStatus?
    ensures OutcomeFares(w, b, kind, f)
  {}

  lemma HandoffStep(w: World, kind: JobKind, f: nat)
    requires Underway(w, kind, f) && E.OutcomeEnabled(w, E.Handoff)
    ensures OutcomeFares(w, E.Handoff, kind, f)
  {}

  lemma EndOutcome(w: World, b: E.OutcomeStep, kind: JobKind, f: nat)
    requires Underway(w, kind, f) && E.OutcomeEnabled(w, b)
    requires b.NoHandoff? || b.ScanEnded? || b.RetireConcluded?
    ensures OutcomeFares(w, b, kind, f)
  {}

  lemma CloseStep(w: World, kind: JobKind, f: nat)
    requires Underway(w, kind, f) && E.OutcomeEnabled(w, E.Close)
    ensures OutcomeFares(w, E.Close, kind, f)
  {}

  lemma BailStep(w: World, kind: JobKind, f: nat)
    requires Underway(w, kind, f) && E.OutcomeEnabled(w, E.Bail)
    ensures OutcomeFares(w, E.Bail, kind, f)
  {}

  lemma AttemptStart(w: World, a: E.StartStep, kind: JobKind, f: nat)
    requires Underway(w, kind, f) && E.StartEnabled(w, a)
    ensures StartFares(w, a, kind, f)
  {
    if a.PrefetchFails? { PrefetchStep(w, a.key, kind, f); }
    else if a.Deny? { DenyStep(w, kind, f); }
    else if a.ClaimFix? || a.HoldAgain? { ClaimStep(w, a, kind, f); }
    else if a.Create? || a.EndsEarly? { CreateStep(w, a, kind, f); }
    else if a.CountUnmade? { UnmadeStep(w, a.report, kind, f); }
    else if a.Abandon? { AbandonStep(w, kind, f); }
    else if a.WorkerFails? { BackendStep(w, kind, f); }
    else if a.MakeTree? || a.FailTree? { TreeStep(w, a, kind, f); }
    else { RecordStep(w, a, kind, f); }
  }

  lemma AttemptOutcome(w: World, b: E.OutcomeStep, kind: JobKind, f: nat)
    requires Underway(w, kind, f) && E.OutcomeEnabled(w, b)
    ensures OutcomeFares(w, b, kind, f)
  {
    if b.FixFailed? { FixFailure(w, b.key, b.report, kind, f); }
    else if b.FixPaused? { FixPause(w, kind, f); }
    else if b.FixBlocked? || b.FixDeclined? || b.FixShipped? { FixSettled(w, b, kind, f); }
    else if b.RecheckFailed? { RecheckFailure(w, b.key, kind, f); }
    else if b.RecheckPaused? || b.RecheckJudged? { RecheckOutcome(w, b, kind, f); }
    else if b.HarvestFailed? { HarvestFailure(w, b.key, kind, f); }
    else if b.HarvestPaused? { HarvestPause(w, kind, f); }
    else if b.HarvestMerged? { HarvestReviewed(w, kind, f); }
    else if b.HarvestClosed? { HarvestClassified(w, b, kind, f); }
    else if b.EngagePublished? || b.WithdrawRefused? { EngageOutcome(w, b, kind, f); }
    else if b.WithdrawRow? || b.WithdrawStatus? { WithdrawOutcome(w, b, kind, f); }
    else if b.Handoff? { HandoffStep(w, kind, f); }
    else if b.Bail? { BailStep(w, kind, f); }
    else if b.Close? { CloseStep(w, kind, f); }
    else { EndOutcome(w, b, kind, f); }
  }

  /** No claim but that on `f`. */
  predicate NoOtherClaim(t: Tables, f: nat) {
    forall g | g in t.findings && g != f :: !t.findings[g].status.Fixing?
  }

  lemma DaemonFares(w: World, d: D.DaemonStep, kind: JobKind, f: nat)
    requires AtFinding(w, kind, f) && NoOtherClaim(w.t, f) && D.Enabled(w, d)
    ensures Fares(w, D.Next(w, d), false, false, kind, f)
  {}

  lemma OutsideFares(w: World, o: O.OutsideStep, kind: JobKind, f: nat)
    requires AtFinding(w, kind, f) && O.Enabled(w, o) && (o.Crash? || o.LoseTree? || o.DeleteRepo?)
    ensures Fares(w, O.Next(w, o), false, false, kind, f)
  {}

  lemma AttemptStep(w: World, x: Step, kind: JobKind, f: nat)
    requires Inv(w) && AtFinding(w, kind, f) && NoOtherClaim(w.t, f) && Enabled(w, x) && OfAttempt(x)
    ensures Fares(w, Next(w, x), Settles(w, x), Counts(w, x), kind, f)
  {
    UnderwayHolds(w, kind, f);
    match x
    case Start(a) => AttemptStart(w, a, kind, f);
    case Outcome(b) => AttemptOutcome(w, b, kind, f);
    case Daemon(d) => DaemonFares(w, d, kind, f);
    case Outside(o) => OutsideFares(w, o, kind, f);
    case Select(_) => assert false;
  }

  // ------------------------------------------------------------------
  // A whole one
  // ------------------------------------------------------------------

  /** From the pick of `f` to the next selection, crashes and their recovery
      included. */
  predicate IsAttempt(w: World, xs: seq<Step>, kind: JobKind, f: nat) {
    && w.phase.Picked? && !w.phase.claimed && w.phase.kind == kind && w.phase.finding == Some(f)
    && (forall x | x in xs :: OfAttempt(x))
    && After(w, xs).Some? && After(w, xs).value.phase.Ready?
  }

  /** Some step of the run settles the work. */
  predicate Settled(w: World, xs: seq<Step>)
    requires After(w, xs).Some?
    decreases |xs|
  {
    xs != [] && (Settles(w, xs[0]) || Settled(Next(w, xs[0]), xs[1..]))
  }

  predicate Counted(w: World, xs: seq<Step>)
    requires After(w, xs).Some?
    decreases |xs|
  {
    xs != [] && (Counts(w, xs[0]) || Counted(Next(w, xs[0]), xs[1..]))
  }

  lemma FaresOn(w: World, w1: World, w2: World, a: bool, b: bool, p: bool, q: bool, kind: JobKind, f: nat)
    requires Fares(w, w1, a, p, kind, f) && Fares(w1, w2, b, q, kind, f)
    ensures Fares(w, w2, a || b, p || q, kind, f)
  {}

  lemma OthersKeepClaims(w: World, w1: World, f: nat)
    requires OthersStay(w.t, w1.t, f) && NoOtherClaim(w.t, f)
    ensures NoOtherClaim(w1.t, f)
  {}

  lemma {:induction false} AttemptRun(w: World, xs: seq<Step>, kind: JobKind, f: nat)
    requires Inv(w) && AtFinding(w, kind, f) && NoOtherClaim(w.t, f)
    requires After(w, xs).Some? && forall x | x in xs :: OfAttempt(x)
    ensures Fares(w, After(w, xs).value, Settled(w, xs), Counted(w, xs), kind, f)
    decreases |xs|
  {
    if xs != [] {
      AttemptStep(w, xs[0], kind, f);
      StepKeepsInv(w, xs[0]);
      var w1 := Next(w, xs[0]);
      OthersKeepClaims(w, w1, f);
      AttemptRun(w1, xs[1..], kind, f);
      FaresOn(w, w1, After(w, xs).value, Settles(w, xs[0]), Settled(w1, xs[1..]),
              Counts(w, xs[0]), Counted(w1, xs[1..]), kind, f);
    }
  }

  /** In one tier, in no other. */
  lemma OneTier(t: Tables, k: JobKind, kind: JobKind, f: nat)
    requires S.InTier(t, k, f) && S.InTier(t, kind, f)
    ensures k == kind
  {}

  lemma StaysInFront(t: Tables, t': Tables, kind: JobKind, f: nat, env: Env)
    requires OthersStay(t, t', f) && f in t.findings && S.InTier(t, kind, f) && S.InTier(t', kind, f)
    ensures FirstItem(t', env) == FirstItem(t, env)
  {
    forall k, g ensures S.InTier(t', k, g) <==> S.InTier(t, k, g) {
      if g == f && S.InTier(t, k, f) { OneTier(t, k, kind, f); }
      if g == f && S.InTier(t', k, f) { OneTier(t', k, kind, f); }
    }
    SameTiersSamePick(t, t', env);
  }

  lemma AttemptFares(w: World, xs: seq<Step>, kind: JobKind, f: nat)
    requires Reachable(w) && IsAttempt(w, xs, kind, f)
    ensures var w' := After(w, xs).value;
      && Fares(w, w', Settled(w, xs), Counted(w, xs), kind, f)
      && f in w.t.findings && !w'.t.findings[f].status.Fixing? && !w.t.findings[f].status.Fixing?
  {
    ReachableOk(w);
    UnderwayHolds(w, kind, f);
    AttemptRun(w, xs, kind, f);
    RunKeepsInv(w, xs);
  }

  /** However an attempt at a finding goes: the finding is the first one of the
      next selection exactly if it was the first one of this selection and no
      step settled its work or counted a third identical failure - whatever
      the selection reads besides the tables. */
  lemma SameItemAgain(w: World, xs: seq<Step>, kind: JobKind, f: nat, env: Env)
    requires Reachable(w) && IsAttempt(w, xs, kind, f)
    ensures FirstItem(After(w, xs).value.t, env) == Some((kind, f)) <==>
      FirstItem(w.t, env) == Some((kind, f)) && !Settled(w, xs)
  {
    var t' := After(w, xs).value.t;
    AttemptFares(w, xs, kind, f);
    if S.InTier(w.t, kind, f) && S.InTier(t', kind, f) { StaysInFront(w.t, t', kind, f, env); }
  }

  /** And what neither settles nor is counted leaves no trace in the counters:
      nothing bounds how often it repeats. */
  lemma UncountedLeavesCounters(w: World, xs: seq<Step>, kind: JobKind, f: nat)
    requires Reachable(w) && IsAttempt(w, xs, kind, f) && !Settled(w, xs) && !Counted(w, xs)
    ensures SameCounters(w.t, After(w, xs).value.t, f)
  {
    AttemptFares(w, xs, kind, f);
  }
}
