/** Where the depth cap is not enough: a run in which a held fix is resumed
    past it, and a sweep removes the tree under the running attempt. */
module LongChains {
  import opened Domain
  import opened Chains
  import opened Streaks
  import opened Tables
  import opened World
  import opened Runs
  import O = OperatorSteps
  import D = DaemonSteps
  import S = SelectSteps
  import E = ExecSteps

  const REPORT := "needs a decision"
  const STREAK := Clear(FRESH)
  const RAN := RunResult(true, None, 1, true)

  function FindingAt(s: FindingStatus): Finding {
    Finding(0, None, s, STREAK, FRESH, None, None, Operator)
  }

  function First(): Job {
    Job(Fix, 0, Some(0), Suspended, None, None, Some(1), true, Some(7), Some(REPORT))
  }

  function Link(i: nat): Job
    requires i > 0
  {
    Job(Fix, 0, Some(0), Suspended, Some(i - 1), Some(Orphaned), Some(1), true, Some(7), Some(REPORT))
  }

  /** `n` suspended links, each continuing the one before. */
  function Links(n: nat): (js: seq<Job>)
    ensures |js| == n
    ensures forall i | 0 <= i < n :: js[i] == if i == 0 then First() else Link(i)
  {
    seq(n, i requires 0 <= i < n => if i == 0 then First() else Link(i))
  }

  /** The same with a running link at the end. */
  function Resumed(n: nat): (js: seq<Job>)
    requires n > 0
    ensures |js| == n + 1
  {
    Links(n) + [ResumedRow(Fix, 0, Some(0), n - 1, Links(n)[n - 1])]
  }

  function At(js: seq<Job>, s: FindingStatus, p: Phase): World {
    World(Tables(js, map[0 := FindingAt(s)], {}), {0}, {}, p)
  }

  predicate OneChain(js: seq<Job>) {
    && |js| > 0
    && (forall i: nat | i < |js| :: js[i].resumedFrom == if i == 0 then None else Some(i - 1))
    && (forall i: nat | i < |js| :: js[i].kind.Fix? && js[i].finding == Some(0))
    && (forall i: nat | i < |js| - 1 :: !js[i].state.Running?)
  }

  lemma {:induction false} ChainShape(js: seq<Job>, j: nat)
    requires OneChain(js) && j < |js|
    ensures Descending(js) && Depth(js, j) == j && Origin(js, j) == 0
    ensures HasSuccessor(js, j) <==> j < |js| - 1
  {
    if j > 0 { ChainShape(js, j - 1); }
    if j < |js| - 1 { assert js[j + 1].resumedFrom == Some(j); }
  }

  /** The sweep keeps or takes the one tree by the last link's depth alone. */
  lemma TreeOfChain(js: seq<Job>)
    requires OneChain(js) && Live(js, |js| - 1)
    ensures LiveCount(js, 0) == 0 <==> |js| - 1 > MAX_DEPTH
  {
    ChainShape(js, |js| - 1);
    LiveCountZero(js, 0);
    forall i: nat | i < |js| ensures Live(js, i) <==> i == |js| - 1 { ChainShape(js, i); }
    if |js| - 1 > MAX_DEPTH {
      forall i: nat | i < |js| && Origin(js, i) == 0 && Depth(js, i) <= MAX_DEPTH ensures !Live(js, i) {
        ChainShape(js, i);
      }
    }
  }

  lemma NothingStranded(js: seq<Job>, s: FindingStatus)
    requires OneChain(js) && (s.Queued? || s.Fixing? || s.Blocked?)
    ensures RetireStranded(At(js, s, Down).t) == At(js, s, Down).t
  {
    var t := At(js, s, Down).t;
    assert StrandedIds(t) == {};
    assert RetireStranded(t).jobs == js;
  }

  lemma SweepSteps(js: seq<Job>, s: FindingStatus, startup: bool)
    requires OneChain(js) && Live(js, |js| - 1) && |js| - 1 <= MAX_DEPTH
    requires s.Queued? || s.Fixing? || s.Blocked?
    ensures var w, w1 := At(js, s, if startup then Down else Reconciled), At(js, s, Sweeping(startup));
      && D.Enabled(w, D.SweepStart) && D.Next(w, D.SweepStart) == w1
      && D.Enabled(w1, D.SweepEnd) && D.Next(w1, D.SweepEnd) == At(js, s, if startup then Between else Ready)
  {
    NothingStranded(js, s);
    TreeOfChain(js);
  }

  /** Startup sweep and the sweep before a cycle, on one live chain within the
      cap. */
  lemma SweepKeepsTree(js: seq<Job>, s: FindingStatus, startup: bool)
    requires OneChain(js) && Live(js, |js| - 1) && |js| - 1 <= MAX_DEPTH
    requires s.Queued? || s.Fixing? || s.Blocked?
    requires Reachable(At(js, s, if startup then Down else Reconciled))
    ensures Reachable(At(js, s, if startup then Between else Ready))
  {
    SweepSteps(js, s, startup);
    StepReaches(At(js, s, if startup then Down else Reconciled), Daemon(D.SweepStart));
    StepReaches(At(js, s, Sweeping(startup)), Daemon(D.SweepEnd));
  }

  lemma LastIsOffered(n: nat)
    requires 0 < n <= MAX_DEPTH + 1
    ensures Offered(At(Links(n), Queued, Ready).t, n - 1) && ResumeOrigin(Links(n), n - 1) == 0
  {
    var js := Links(n);
    ChainShape(js, n - 1);
    OriginExact(js, n - 1);
  }

  lemma PickLast(n: nat)
    requires 0 < n <= MAX_DEPTH + 1 && Reachable(At(Links(n), Queued, Ready))
    ensures Reachable(At(Links(n), Queued, Picked(Fix, 0, Some(0), Some(n - 1), false)))
  {
    LastIsOffered(n);
    assert OperatorRequeued(Links(n)[n - 1]);
    StepReaches(At(Links(n), Queued, Ready), Select(S.PickResume(n - 1, 0)));
  }

  lemma ClaimAndCreate(n: nat)
    requires 0 < n && Reachable(At(Links(n), Queued, Picked(Fix, 0, Some(0), Some(n - 1), false)))
    ensures Reachable(At(Resumed(n), Fixing, Working(n, false)))
  {
    var js := Links(n);
    var w := At(js, Queued, Picked(Fix, 0, Some(0), Some(n - 1), false));
    StepReaches(w, Start(E.ClaimFix));
    var w1 := At(js, Fixing, Picked(Fix, 0, Some(0), Some(n - 1), true));
    assert w.t.findings[0 := FindingAt(Fixing)] == w1.t.findings;
    assert E.StartNext(w, E.ClaimFix) == w1;
    StepReaches(w1, Start(E.Create));
    assert E.StartNext(w1, E.Create) == At(Resumed(n), Fixing, Working(n, false));
  }

  lemma PickAndClaim(n: nat)
    requires 0 < n <= MAX_DEPTH + 1 && Reachable(At(Links(n), Queued, Reconciled))
    ensures Reachable(At(Resumed(n), Fixing, Working(n, false)))
  {
    ChainShape(Links(n), n - 1);
    SweepKeepsTree(Links(n), Queued, false);
    PickLast(n);
    ClaimAndCreate(n);
  }

  lemma SuspendLast(n: nat)
    requires 0 < n && Reachable(At(Resumed(n), Fixing, Between))
    ensures Reachable(At(Links(n + 1), Fixing, Between))
  {
    var w := At(Resumed(n), Fixing, Between);
    StepReaches(w, Daemon(D.SuspendOrphan(n, 1)));
    assert D.Next(w, D.SuspendOrphan(n, 1)).t.jobs == Links(n + 1);
    assert D.Next(w, D.SuspendOrphan(n, 1)) == At(Links(n + 1), Fixing, Between);
  }

  lemma RequeueLast(n: nat)
    requires Reachable(At(Links(n), Fixing, Between))
    ensures Reachable(At(Links(n), Queued, Reconciled))
  {
    var w := At(Links(n), Fixing, Between);
    var w1 := At(Links(n), Queued, Between);
    StepReaches(w, Daemon(D.RequeueStuck(0)));
    assert w.t.findings[0 := FindingAt(Queued)] == w1.t.findings;
    assert D.Next(w, D.RequeueStuck(0)) == w1;
    StepReaches(w1, Daemon(D.ReconcileEnd));
  }

  lemma ResumedShape(n: nat)
    requires n > 0
    ensures OneChain(Resumed(n)) && Live(Resumed(n), n) && |Resumed(n)| == n + 1
  {}

  lemma CrashSweeps(js: seq<Job>, n: nat)
    requires OneChain(js) && Live(js, |js| - 1) && |js| - 1 <= MAX_DEPTH
    requires Reachable(At(js, Fixing, Working(n, false)))
    ensures Reachable(At(js, Fixing, Between))
  {
    StepReaches(At(js, Fixing, Working(n, false)), Outside(O.Crash));
    SweepKeepsTree(js, Fixing, true);
  }

  /** A crash suspends the running link and puts the finding back on the
      queue, with no operator. */
  lemma CrashRequeues(n: nat)
    requires 0 < n <= MAX_DEPTH && Reachable(At(Resumed(n), Fixing, Working(n, false)))
    ensures Reachable(At(Links(n + 1), Queued, Reconciled))
  {
    ResumedShape(n);
    CrashSweeps(Resumed(n), n);
    SuspendAndRequeue(n);
  }

  lemma SuspendAndRequeue(n: nat)
    requires 0 < n && Reachable(At(Resumed(n), Fixing, Between))
    ensures Reachable(At(Links(n + 1), Queued, Reconciled))
  {
    SuspendLast(n);
    RequeueLast(n + 1);
  }

  function Unworked(js: seq<Job>, s: FindingStatus, judge: Judge): Tables {
    Tables(js, map[0 := Finding(0, None, s, FRESH, FRESH, None, None, judge)], {})
  }

  /** The first attempt, ended. */
  function FirstEnded(): Tables {
    Unworked([Completed(FreshRow(Fix, 0, Some(0)).(pinned := Some(7)), RAN)], Fixing, Operator)
  }

  lemma FirstQueued()
    ensures Reachable(World(Unworked([], Queued, Operator), {}, {}, Down))
  {
    assert After(START, []) == Some(START);
    StepReaches(START, Outside(O.FileFinding(0, 0, None)));
    var w := World(Unworked([], New, Nobody), {}, {}, Down);
    assert START.t.findings[0 := w.t.findings[0]] == w.t.findings;
    assert O.Next(START, O.FileFinding(0, 0, None)) == w;
    StepReaches(w, Outside(O.Verdict(0, Queued, false)));
    assert w.t.findings[0 := w.t.findings[0].(status := Queued, judge := Operator)]
      == Unworked([], Queued, Operator).findings;
    assert O.Next(w, O.Verdict(0, Queued, false)).t == Unworked([], Queued, Operator);
  }

  lemma FirstReady()
    ensures Reachable(World(Unworked([], Queued, Operator), {}, {}, Ready))
  {
    var t := Unworked([], Queued, Operator);
    FirstQueued();
    assert RetireStranded(t) == t;
    StepReaches(World(t, {}, {}, Down), Daemon(D.SweepStart));
    StepReaches(World(t, {}, {}, Sweeping(true)), Daemon(D.SweepEnd));
    StepReaches(World(t, {}, {}, Between), Daemon(D.ReconcileEnd));
    StepReaches(World(t, {}, {}, Reconciled), Daemon(D.SweepStart));
    StepReaches(World(t, {}, {}, Sweeping(false)), Daemon(D.SweepEnd));
  }

  lemma FirstClaimed()
    ensures Reachable(World(Unworked([], Fixing, Operator), {}, {}, Picked(Fix, 0, Some(0), None, true)))
  {
    FirstReady();
    var w := World(Unworked([], Queued, Operator), {}, {}, Ready);
    StepReaches(w, Select(S.PickFresh(Fix, 0, Some(0))));
    var w1 := w.(phase := Picked(Fix, 0, Some(0), None, false));
    StepReaches(w1, Start(E.ClaimFix));
    var w2 := World(Unworked([], Fixing, Operator), {}, {}, Picked(Fix, 0, Some(0), None, true));
    assert w1.t.findings[0 := w2.t.findings[0]] == w2.t.findings;
    assert E.StartNext(w1, E.ClaimFix) == w2;
  }

  lemma FirstOpening()
    ensures Reachable(World(Unworked([FreshRow(Fix, 0, Some(0))], Fixing, Operator), {}, {}, Opening(0)))
  {
    FirstClaimed();
    var w := World(Unworked([], Fixing, Operator), {}, {}, Picked(Fix, 0, Some(0), None, true));
    StepReaches(w, Start(E.Create));
    assert CreateJob(w.t, Fix, 0, Some(0), None).jobs == [FreshRow(Fix, 0, Some(0))];
  }

  lemma FirstRecorded()
    ensures Reachable(World(FirstEnded(), {0}, {}, Recorded(0, false)))
  {
    FirstOpening();
    var row := FreshRow(Fix, 0, Some(0));
    var w := World(Unworked([row], Fixing, Operator), {}, {}, Opening(0));
    StepReaches(w, Start(E.MakeTree(7)));
    var w1 := World(Unworked([row.(pinned := Some(7))], Fixing, Operator), {0}, {}, Working(0, false));
    assert [row][0 := row.(pinned := Some(7))] == w1.t.jobs;
    assert E.StartNext(w, E.MakeTree(7)) == w1;
    StepReaches(w1, Start(E.Record(RAN)));
    assert w1.t.jobs[0 := Completed(row.(pinned := Some(7)), RAN)] == [Completed(row.(pinned := Some(7)), RAN)];
  }

  lemma FirstBlockedTables()
    ensures var t := FirstEnded();
      BlockFixJob(t, 0, 0, REPORT) == At(Links(1), Blocked, Down).t
  {
    var t := FirstEnded();
    assert HeldRow(t.jobs, 0, REPORT) == First();
    assert t.jobs[0 := First()] == Links(1);
    assert t.findings[0 := FindingAt(Blocked)] == map[0 := FindingAt(Blocked)];
  }

  lemma FirstHoldStep()
    ensures var w := World(FirstEnded(), {0}, {}, Recorded(0, false));
      && E.OutcomeEnabled(w, E.FixBlocked(REPORT, true))
      && E.OutcomeNext(w, E.FixBlocked(REPORT, true)) == At(Links(1), Blocked, Closing(0))
  {
    FirstBlockedTables();
  }

  lemma FirstHeldClosing()
    ensures Reachable(At(Links(1), Blocked, Closing(0)))
  {
    FirstRecorded();
    FirstHoldStep();
    StepReaches(World(FirstEnded(), {0}, {}, Recorded(0, false)), Outcome(E.FixBlocked(REPORT, true)));
  }

  lemma HeldCloses(js: seq<Job>)
    requires Reachable(At(js, Blocked, Closing(0)))
    ensures Reachable(At(js, Blocked, Between))
  {
    StepReaches(At(js, Blocked, Closing(0)), Outcome(E.Close));
  }

  /** The first attempt of a fix ends held on a report, and the operator puts
      the finding back on the queue once. */
  lemma FirstHeld()
    ensures Reachable(At(Links(1), Queued, Reconciled))
  {
    FirstHeldClosing();
    HeldCloses(Links(1));
    FirstRequeued();
  }

  lemma FirstRequeued()
    requires Reachable(At(Links(1), Blocked, Between))
    ensures Reachable(At(Links(1), Queued, Reconciled))
  {
    var w := At(Links(1), Blocked, Between);
    StepReaches(w, Outside(O.Verdict(0, Queued, false)));
    assert w.t.findings[0 := FindingAt(Queued)] == map[0 := FindingAt(Queued)];
    assert O.Next(w, O.Verdict(0, Queued, false)) == At(Links(1), Queued, Between);
    StepReaches(At(Links(1), Queued, Between), Daemon(D.ReconcileEnd));
  }

  /** One requeue by the operator, then crash after crash: the ceiling does
      not bound a held chain. */
  lemma {:induction false} HeldChainsGrow(n: nat)
    requires 0 < n <= MAX_DEPTH + 1
    ensures Reachable(At(Resumed(n), Fixing, Working(n, false)))
  {
    if n == 1 {
      FirstHeld();
    } else {
      HeldChainsGrow(n - 1);
      CrashRequeues(n - 1);
    }
    PickAndClaim(n);
  }

  lemma CrashStartsSweep(js: seq<Job>, n: nat)
    requires OneChain(js) && Reachable(At(js, Fixing, Working(n, false)))
    ensures Reachable(At(js, Fixing, Sweeping(true)))
  {
    StepReaches(At(js, Fixing, Working(n, false)), Outside(O.Crash));
    NothingStranded(js, Fixing);
    StepReaches(At(js, Fixing, Down), Daemon(D.SweepStart));
  }

  /** So "a sweep never removes a live chain's tree" does fail past the cap:
      here the origin's tree goes while its 66th link is `running`. */
  lemma SweepTakesALiveTree() returns (w: World, j: nat)
    ensures Reachable(w) && D.Enabled(w, D.Release(0)) && 0 !in D.Next(w, D.Release(0)).trees
    ensures j < |w.t.jobs| && w.t.jobs[j].state.Running? && w.t.jobs[j].pinned.Some?
    ensures Descending(w.t.jobs) && Origin(w.t.jobs, j) == 0 && Depth(w.t.jobs, j) == MAX_DEPTH + 1
  {
    j := MAX_DEPTH + 1;
    HeldChainsGrow(j);
    ResumedShape(j);
    CrashStartsSweep(Resumed(j), j);
    w := At(Resumed(j), Fixing, Sweeping(true));
    ChainShape(Resumed(j), j);
    TreeOfChain(Resumed(j));
  }
}
