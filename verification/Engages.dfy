/** What an engage leaves for the sync after it, and a run in which engages
    that fail hold up everything else (hunter-rs/src/scheduler.rs). */
module Engages {
  import opened Domain
  import opened Streaks
  import opened Chains
  import opened Tables
  import opened World
  import opened Runs
  import opened Selection
  import opened Starvation
  import opened Attempts
  import A = Attention
  import O = OperatorSteps
  import D = DaemonSteps
  import S = SelectSteps
  import E = ExecSteps
  import R = Rotation
  import L = LongChains

  // ------------------------------------------------------------------
  // The answer to a flag
  // ------------------------------------------------------------------

  /** What a step writes to the row of the PR: a published engage marks it, a
      withdrawal that the forge refused as one that published nothing. */
  function Answer(x: Step, at: int): seq<A.Event> {
    if x.Outcome? && x.b.EngagePublished? && x.b.published.Some?
    then [A.Engage(x.b.published.value.pushed, x.b.published.value.replied, at)]
    else if x.Outcome? && x.b.WithdrawRefused? then [A.Engage(false, false, at)]
    else []
  }

  function Answers(xs: seq<Step>, at: int): (es: seq<A.Event>)
    ensures forall e | e in es :: e.Engage? && e.at == at
  {
    if xs == [] then [] else Answer(xs[0], at) + Answers(xs[1..], at)
  }

  /** The attempt is past its answer. */
  predicate PastAnswer(w: World) {
    || Idle(w.phase) || w.phase.Closing? || w.phase.Concluded? || w.phase.Withdrawn?
    || ((w.phase.Working? || w.phase.Recorded?) && w.phase.job < |w.t.jobs| && w.t.jobs[w.phase.job].kind.Harvest?)
  }

  lemma PastStaysPast(w: World, x: Step)
    requires PastAnswer(w) && Enabled(w, x) && OfAttempt(x)
    ensures Answer(x, 0) == [] && PastAnswer(Next(w, x))
  {}

  lemma AnswerPasses(w: World, x: Step)
    requires Enabled(w, x) && Answer(x, 0) != []
    ensures PastAnswer(Next(w, x))
  {}

  lemma {:induction false} NoSecondAnswer(w: World, xs: seq<Step>, at: int)
    requires PastAnswer(w) && After(w, xs).Some? && forall x | x in xs :: OfAttempt(x)
    ensures Answers(xs, at) == []
    decreases |xs|
  {
    if xs != [] {
      PastStaysPast(w, xs[0]);
      NoSecondAnswer(Next(w, xs[0]), xs[1..], at);
    }
  }

  /** An attempt answers once, or not at all. */
  lemma {:induction false} OneAnswer(w: World, xs: seq<Step>, at: int)
    requires After(w, xs).Some? && forall x | x in xs :: OfAttempt(x)
    ensures |Answers(xs, at)| <= 1
    decreases |xs|
  {
    if xs != [] {
      if Answer(xs[0], 0) != [] {
        AnswerPasses(w, xs[0]);
        NoSecondAnswer(Next(w, xs[0]), xs[1..], at);
      } else {
        OneAnswer(Next(w, xs[0]), xs[1..], at);
      }
    }
  }

  // ------------------------------------------------------------------
  // The next sync
  // ------------------------------------------------------------------

  /** The row `r` of a PR, after a sync that saw `v` and the engage that
      answered it, is flagged by a sync that sees `news`. */
  predicate FlagsAgain(r: A.PrState, v: A.PrView, answers: seq<A.Event>, news: A.PrView) {
    if answers == [] || !answers[0].Engage? then
      || news.activity > A.Baseline(r, news)
      || (A.Troubled(news)
          && !(r.addressedFingerprint == A.Fingerprint(news) && r.addressedHead == Some(news.head)))
    else
      || news.activity > (if answers[0].replied then answers[0].at + 3_000 else v.activity)
      || (A.Troubled(news)
          && (answers[0].pushed || !A.SameProblems(news, v) || news.head != v.head))
  }

  lemma SyncFlags(r0: A.PrState, v: A.PrView, t0: int, answers: seq<A.Event>, news: A.PrView, t1: int)
    requires |answers| <= 1 && forall e | e in answers :: e.Engage?
    ensures var r := A.Synced(r0, v, t0);
      A.Synced(A.AllHappen(r, answers), news, t1).attention.Some? <==> FlagsAgain(r, v, answers, news)
  {
    var r := A.Synced(r0, v, t0);
    if answers == [] {
      A.FlagsExactly(r, news, t1);
    } else {
      var e := answers[0];
      assert e in answers && answers == [e];
      A.OneHappens(r, e);
      A.AnsweredFlags(r0, v, t0, e.pushed, e.replied, e.at, news, t1);
    }
  }

  /** The sync of `f` after an attempt: an open PR is flagged by what the
      attempt left in its row, one that is no longer open not at all. */
  function SyncAfter(r: A.PrState, xs: seq<Step>, at: int, f: nat, number: nat, end: PrEnd, news: A.PrView, t1: int)
      : S.SelectStep
  {
    S.SyncRow(f, number, end, end.Open? && A.Synced(A.AllHappen(r, Answers(xs, at)), news, t1).attention.Some?)
  }

  lemma SyncFares(w: World, w': World, f: nat, sync: S.SelectStep, env: Env)
    requires OthersStay(w.t, w'.t, f) && S.InTier(w.t, Engage, f)
    requires S.Enabled(w', sync) && sync.SyncRow? && sync.f == f && w'.t.findings[f].status.PrOpen?
    ensures OthersStay(w.t, S.Next(w', sync).t, f)
    ensures S.InTier(S.Next(w', sync).t, Engage, f) <==> sync.attention
    ensures sync.attention ==> FirstItem(S.Next(w', sync).t, env) == FirstItem(w.t, env)
  {
    if sync.attention { StaysInFront(w.t, S.Next(w', sync).t, Engage, f, env); }
  }

  /** After an engage attempt and the next sync of its PR, whatever the attempt
      did and whatever that sync finds, the PR is the first item of the next
      selection exactly if its withdrawal was not recorded, it is still open,
      and the sync flags it by what the attempt answered. */
  lemma NextSyncDecides(
      w: World, xs: seq<Step>, f: nat, env: Env, r0: A.PrState, v: A.PrView, t0: int, at: int,
      number: nat, end: PrEnd, news: A.PrView, t1: int)
    requires Reachable(w) && IsAttempt(w, xs, Engage, f) && FirstItem(w.t, env) == Some((Engage, f))
    requires var t := After(w, xs).value.t; f in t.findings && t.findings[f].status.PrOpen?
    requires Settled(w, xs) ==> !end.Open?
    ensures var ready, sync := After(w, xs).value, SyncAfter(A.Synced(r0, v, t0), xs, at, f, number, end, news, t1);
      && S.Enabled(ready, sync)
      && (FirstItem(S.Next(ready, sync).t, env) == Some((Engage, f)) <==>
            !Settled(w, xs) && end.Open? && FlagsAgain(A.Synced(r0, v, t0), v, Answers(xs, at), news))
  {
    AttemptFares(w, xs, Engage, f);
    OneAnswer(w, xs, at);
    SyncFlags(r0, v, t0, Answers(xs, at), news, t1);
    var sync := SyncAfter(A.Synced(r0, v, t0), xs, at, f, number, end, news, t1);
    SyncFares(w, After(w, xs).value, f, sync, env);
  }

  /** What the same situation says to a row that was flagged by it. */
  lemma SameViewFlags(r0: A.PrState, v: A.PrView, t0: int, answers: seq<A.Event>, news: A.PrView)
    requires |answers| <= 1 && forall e | e in answers :: e.Engage? && (e.replied ==> e.at + 3_000 >= v.activity)
    requires A.Synced(r0, v, t0).attention.Some? && A.SameView(v, news)
    ensures FlagsAgain(A.Synced(r0, v, t0), v, answers, news) <==>
      answers == [] || (answers[0].pushed && A.Troubled(v))
  {
    A.FingerprintIffTroubled(v);
    A.FingerprintIffTroubled(news);
    A.UnansweredFlagsAgain(r0, v, t0, news, t0);
    A.FlagsExactly(A.Synced(r0, v, t0), news, t0);
  }

  /** If the situation is the same at that sync, the flagged PR is selected
      again exactly if nothing was answered, or a push left the problem
      standing. A reply is not dated before the activity it answers. */
  lemma SameSituationAgain(
      w: World, xs: seq<Step>, f: nat, env: Env, r0: A.PrState, v: A.PrView, t0: int, at: int,
      number: nat, news: A.PrView, t1: int)
    requires Reachable(w) && IsAttempt(w, xs, Engage, f) && FirstItem(w.t, env) == Some((Engage, f))
    requires !Settled(w, xs)
    requires A.Synced(r0, v, t0).attention.Some? && A.SameView(v, news)
    requires forall e | e in Answers(xs, at) :: e.replied ==> at + 3_000 >= v.activity
    ensures var ready, sync := After(w, xs).value, SyncAfter(A.Synced(r0, v, t0), xs, at, f, number, Open, news, t1);
      && S.Enabled(ready, sync)
      && (FirstItem(S.Next(ready, sync).t, env) == Some((Engage, f)) <==>
            Answers(xs, at) == [] || (Answers(xs, at)[0].pushed && A.Troubled(v)))
  {
    AttemptFares(w, xs, Engage, f);
    NextSyncDecides(w, xs, f, env, r0, v, t0, at, number, Open, news, t1);
    OneAnswer(w, xs, at);
    SameViewFlags(r0, v, t0, Answers(xs, at), news);
  }

  // ------------------------------------------------------------------
  // A run in which it goes on for ever
  // ------------------------------------------------------------------

  /** A finding whose open PR is flagged. */
  function Flagged(): Finding {
    Finding(0, None, PrOpen, Clear(FRESH), FRESH, Some(PrRow(Some(5), Open, true, false, FRESH)), None, Operator)
  }

  function Unflagged(): Finding {
    Flagged().(pr := None)
  }

  /** An engage whose worker ran and whose push was refused. */
  function Refused(): Job {
    Completed(FreshRow(Engage, 0, Some(0)).(pinned := Some(7)), L.RAN).(state := Failed)
  }

  /** The fix that opened the PR, and `n` such engages. */
  function Tried(n: nat): (js: seq<Job>)
    ensures |js| == n + 1
    ensures forall i | 0 <= i <= n :: js[i] == if i == 0 then L.FirstEnded().jobs[0] else Refused()
  {
    L.FirstEnded().jobs + seq(n, i => Refused())
  }

  function FlaggedAndQueued(js: seq<Job>, trees: set<nat>, p: Phase): World {
    World(Tables(js, map[0 := Flagged(), 1 := Inbox(Queued, Operator)], {}), trees, {}, p)
  }

  function Stalled(n: nat): World {
    FlaggedAndQueued(Tried(n), {}, Ready)
  }

  /** The executor's part of a cycle: a fresh engage whose worker finishes, and
      whose push is refused. */
  function RefusedPush(n: nat): seq<Step> {
    [Start(E.Create), Start(E.MakeTree(7)), Start(E.Record(L.RAN)), Outcome(E.EngagePublished(None)),
     Daemon(D.Release(n + 1)), Outcome(E.Close)]
  }

  const SYNC := Select(S.SyncRow(0, 5, Open, true))
  const PICK := Select(S.PickFresh(Engage, 0, Some(0)))

  /** A whole cycle: sync, selection, attempt, recovery, sweep. */
  function RefusedCycle(n: nat): seq<Step> {
    [SYNC, PICK] + (RefusedPush(n) + SWEEP)
  }

  function PickedWorld(n: nat): World {
    Stalled(n).(phase := Picked(Engage, 0, Some(0), None, false))
  }

  lemma NoneLive(js: seq<Job>, o: nat)
    requires forall i | 0 <= i < |js| :: js[i].resumedFrom.None? && !js[i].state.Running? && !js[i].state.Suspended?
    requires o < |js|
    ensures LiveCount(js, o) == 0
  {
    LiveCountZero(js, o);
  }

  lemma SyncAndPick(n: nat)
    ensures Enabled(Stalled(n), SYNC) && Next(Stalled(n), SYNC) == Stalled(n)
    ensures Enabled(Stalled(n), PICK) && Next(Stalled(n), PICK) == PickedWorld(n)
  {
    var t := Stalled(n).t;
    assert UpsertPr(t.findings[0].pr, 5, Open, true) == Flagged().pr.value;
    assert t.findings[0 := Flagged()] == t.findings;
  }

  /** With nothing suspended a fresh job supersedes nothing. */
  lemma FreshAmongEnded(t: Tables, kind: JobKind, repo: nat, finding: Option<nat>)
    requires forall i | 0 <= i < |t.jobs| :: !t.jobs[i].state.Suspended?
    ensures CreateJob(t, kind, repo, finding, None) == t.(jobs := t.jobs + [FreshRow(kind, repo, finding)])
  {
    assert SupersededIds(t.jobs, kind, repo, finding) == {};
    assert RetireAll(t.jobs, {}, Superseding) == t.jobs;
  }

  /** The job's row. */
  lemma OpenJob(js: seq<Job>, n: nat)
    requires js == Tried(n)
    ensures var w := FlaggedAndQueued(js, {}, Picked(Engage, 0, Some(0), None, false));
      && Enabled(w, Start(E.Create))
      && Next(w, Start(E.Create)) == FlaggedAndQueued(js + [FreshRow(Engage, 0, Some(0))], {}, Opening(n + 1))
  {
    FreshAmongEnded(FlaggedAndQueued(js, {}, Ready).t, Engage, 0, Some(0));
  }

  /** And its tree. */
  lemma OpenTree(n: nat)
    ensures var row := FreshRow(Engage, 0, Some(0));
      var w := FlaggedAndQueued(Tried(n) + [row], {}, Opening(n + 1));
      && Enabled(w, Start(E.MakeTree(7)))
      && Next(w, Start(E.MakeTree(7)))
         == FlaggedAndQueued(Tried(n) + [row.(pinned := Some(7))], {n + 1}, Working(n + 1, false))
  {
    var row := FreshRow(Engage, 0, Some(0));
    assert (Tried(n) + [row])[n + 1 := row.(pinned := Some(7))] == Tried(n) + [row.(pinned := Some(7))];
  }

  /** The worker finishes and its push is refused. */
  lemma WorkAndFail(n: nat)
    ensures var row := FreshRow(Engage, 0, Some(0)).(pinned := Some(7));
      var w := FlaggedAndQueued(Tried(n) + [row], {n + 1}, Working(n + 1, false));
      var w1 := FlaggedAndQueued(Tried(n) + [Completed(row, L.RAN)], {n + 1}, Recorded(n + 1, false));
      var w2 := FlaggedAndQueued(Tried(n + 1), {n + 1}, Closing(n + 1));
      && Enabled(w, Start(E.Record(L.RAN))) && Next(w, Start(E.Record(L.RAN))) == w1
      && Enabled(w1, Outcome(E.EngagePublished(None))) && Next(w1, Outcome(E.EngagePublished(None))) == w2
  {
    var js := Tried(n);
    var row := FreshRow(Engage, 0, Some(0)).(pinned := Some(7));
    assert (js + [row])[n + 1 := Completed(row, L.RAN)] == js + [Completed(row, L.RAN)];
    assert (js + [Completed(row, L.RAN)])[n + 1 := Refused()] == Tried(n + 1);
  }

  lemma CloseAttempt(n: nat)
    ensures var w := FlaggedAndQueued(Tried(n + 1), {n + 1}, Closing(n + 1));
      var w1 := FlaggedAndQueued(Tried(n + 1), {}, Closing(n + 1));
      && Enabled(w, Daemon(D.Release(n + 1))) && Next(w, Daemon(D.Release(n + 1))) == w1
      && Enabled(w1, Outcome(E.Close)) && Next(w1, Outcome(E.Close)) == w1.(phase := Between)
  {
    NoneLive(Tried(n + 1), n + 1);
  }

  lemma RefusedPushRun(n: nat)
    ensures After(PickedWorld(n), RefusedPush(n)) == Some(Stalled(n + 1).(phase := Between))
  {
    var row := FreshRow(Engage, 0, Some(0)).(pinned := Some(7));
    var w2 := FlaggedAndQueued(Tried(n) + [row], {n + 1}, Working(n + 1, false));
    var w1 := FlaggedAndQueued(Tried(n) + [FreshRow(Engage, 0, Some(0))], {}, Opening(n + 1));
    var w3 := FlaggedAndQueued(Tried(n) + [Completed(row, L.RAN)], {n + 1}, Recorded(n + 1, false));
    var w4 := FlaggedAndQueued(Tried(n + 1), {n + 1}, Closing(n + 1));
    var w6 := Stalled(n + 1).(phase := Between);
    OpenJob(Tried(n), n);
    OpenTree(n);
    WorkAndFail(n);
    CloseAttempt(n);
    var end := [Daemon(D.Release(n + 1)), Outcome(E.Close)];
    var work := [Start(E.Record(L.RAN)), Outcome(E.EngagePublished(None))];
    TwoSteps(PickedWorld(n), Start(E.Create), w1, Start(E.MakeTree(7)), w2, work + end);
    TwoSteps(w2, Start(E.Record(L.RAN)), w3, Outcome(E.EngagePublished(None)), w4, end);
    TwoSteps(w4, Daemon(D.Release(n + 1)), w4.(trees := {}), Outcome(E.Close), w6, []);
    assert end + [] == end && After(w6, []) == Some(w6);
    assert [Start(E.Create), Start(E.MakeTree(7))] + (work + end) == RefusedPush(n);
  }

  /** The first fix has shipped. */
  function ShippedWorld(trees: set<nat>, p: Phase): World {
    World(Tables(L.FirstEnded().jobs, map[0 := Unflagged()], {}), trees, {}, p)
  }

  lemma FirstIsDone()
    ensures |L.FirstEnded().jobs| == 1 && L.FirstEnded().jobs[0].state.Done?
    ensures L.FirstEnded().jobs[0].resumedFrom.None?
  {}

  lemma Ships()
    ensures Reachable(ShippedWorld({0}, Concluded(0)))
  {
    L.FirstRecorded();
    var w := World(L.FirstEnded(), {0}, {}, Recorded(0, false));
    StepReaches(w, Outcome(E.FixShipped));
    assert w.t.findings[0 := Unflagged()] == map[0 := Unflagged()];
    assert E.OutcomeNext(w, E.FixShipped) == ShippedWorld({0}, Concluded(0));
  }

  /** With no live attempt about, a concluded one gives its tree up. */
  lemma ConcludedSteps(t: Tables)
    requires |t.jobs| == 1 && t.jobs[0].resumedFrom.None? && t.jobs[0].state.Done?
    ensures var w, w1 := World(t, {0}, {}, Concluded(0)), World(t, {0}, {}, Closing(0));
      var w2 := World(t, {}, {}, Closing(0));
      && Enabled(w, Outcome(E.Close)) && Next(w, Outcome(E.Close)) == w1
      && Enabled(w1, Daemon(D.Release(0))) && Next(w1, Daemon(D.Release(0))) == w2
      && Enabled(w2, Outcome(E.Close)) && Next(w2, Outcome(E.Close)) == World(t, {}, {}, Between)
  {
    NoneLive(t.jobs, 0);
  }

  lemma Concludes(t: Tables)
    requires |t.jobs| == 1 && t.jobs[0].resumedFrom.None? && t.jobs[0].state.Done?
    requires Reachable(World(t, {0}, {}, Concluded(0)))
    ensures Reachable(World(t, {}, {}, Between))
  {
    ConcludedSteps(t);
    StepReaches(World(t, {0}, {}, Concluded(0)), Outcome(E.Close));
    StepReaches(World(t, {0}, {}, Closing(0)), Daemon(D.Release(0)));
    StepReaches(World(t, {}, {}, Closing(0)), Outcome(E.Close));
  }

  lemma Shipped()
    ensures Reachable(ShippedWorld({}, Between))
  {
    Ships();
    FirstIsDone();
    Concludes(ShippedWorld({}, Between).t);
  }

  function OpenAndQueued(p: Phase): World {
    World(Tables(L.FirstEnded().jobs, map[0 := Unflagged(), 1 := Inbox(Queued, Operator)], {}), {}, {}, p)
  }

  lemma SecondQueued()
    ensures Reachable(OpenAndQueued(Between))
  {
    Shipped();
    var w := ShippedWorld({}, Between);
    var w1 := w.(t := w.t.(findings := map[0 := Unflagged(), 1 := Inbox(New, Nobody)]));
    StepReaches(w, Outside(O.FileFinding(1, 0, None)));
    assert w.t.findings[1 := Inbox(New, Nobody)] == w1.t.findings;
    StepReaches(w1, Outside(O.Verdict(1, Queued, false)));
    assert w1.t.findings[1 := Inbox(Queued, Operator)] == OpenAndQueued(Between).t.findings;
  }

  lemma BothWait()
    ensures Reachable(OpenAndQueued(Ready))
  {
    SecondQueued();
    FirstIsDone();
    var t := OpenAndQueued(Ready).t;
    assert Rested(t) && StrandedIds(t) == {};
    SweepChangesNothing(OpenAndQueued(Ready));
    ReachableOn(OpenAndQueued(Between), SWEEP);
  }

  /** The first sync of the new PR flags it. */
  lemma StalledStarts()
    ensures Reachable(Stalled(0))
  {
    BothWait();
    var t := OpenAndQueued(Ready).t;
    assert UpsertPr(t.findings[0].pr, 5, Open, true) == Flagged().pr.value;
    assert t.findings[0 := Flagged()] == Stalled(0).t.findings;
    assert Tried(0) == t.jobs;
    assert S.Next(OpenAndQueued(Ready), SYNC.s) == Stalled(0);
    StepReaches(OpenAndQueued(Ready), SYNC);
  }

  lemma StalledIsSwept(n: nat)
    ensures Swept(Stalled(n))
  {
    assert StrandedIds(Stalled(n).t) == {};
  }

  lemma RefusedCycleEnds(n: nat)
    ensures After(PickedWorld(n), RefusedPush(n) + SWEEP) == Some(Stalled(n + 1))
  {
    RefusedPushRun(n);
    RunsCompose(PickedWorld(n), RefusedPush(n), SWEEP);
    StalledIsSwept(n + 1);
    SweepChangesNothing(Stalled(n + 1));
  }

  lemma RefusedCycleRuns(n: nat)
    ensures After(Stalled(n), RefusedCycle(n)) == Some(Stalled(n + 1))
  {
    SyncAndPick(n);
    TwoSteps(Stalled(n), SYNC, Stalled(n), PICK, PickedWorld(n), RefusedPush(n) + SWEEP);
    RefusedCycleEnds(n);
  }

  function RefusedCycles(n: nat): seq<Step> {
    if n == 0 then [] else RefusedCycles(n - 1) + RefusedCycle(n - 1)
  }

  lemma NoCycle(w: World)
    ensures After(w, RefusedCycles(0)) == Some(w)
  {}

  lemma {:induction false} StallGoesOn(w: World, n: nat)
    requires w == Stalled(0)
    ensures After(w, RefusedCycles(n)) == Some(Stalled(n))
  {
    if n == 0 {
      NoCycle(w);
    } else {
      StallGoesOn(w, n - 1);
      RefusedCycleRuns(n - 1);
      RunThenRun(w, RefusedCycles(n - 1), Stalled(n - 1), RefusedCycle(n - 1), Stalled(n));
    }
  }

  lemma EngageIsFirst(n: nat, env: Env)
    requires 1 !in env.overridden && Forced(env.force, 0)
    ensures FirstItem(Stalled(n).t, env) == Some((Engage, 0))
  {
    var t := Stalled(n).t;
    assert S.InTier(t, Engage, 0);
    assert forall k, f | S.InTier(t, k, f) :: (k == Engage && f == 0) || (k == Fix && f == 1);
    if FirstIn(t, env, true, 0).None? { assert TierPick(t, env, TIERS[0], false) == Some(0); }
  }

  lemma {:induction false} NothingResumable(t: Tables, n: nat)
    requires n <= |t.jobs| && forall i | 0 <= i < n :: !t.jobs[i].state.Suspended?
    ensures ResumableBelow(t, n) == []
  {
    if n > 0 { NothingResumable(t, n - 1); }
  }

  lemma StalledSelects(n: nat, env: Env, repos: seq<R.Repo>)
    requires 1 !in env.overridden && Forced(env.force, 0)
    ensures Selected(State(Stalled(n).t, repos), env, Mode.Run).1 == Some(Fresh(Engage, 0))
  {
    EngageIsFirst(n, env);
    NothingResumable(Stalled(n).t, n + 1);
  }

  lemma RefusedSteps(n: nat)
    ensures forall x | x in RefusedPush(n) :: OfAttempt(x)
    ensures forall x | x in SWEEP :: OfAttempt(x)
  {}

  /** From the pick on such a cycle is an attempt. */
  lemma RefusedPushIsAttempt(n: nat, push: seq<Step>, sweep: seq<Step>)
    requires push == RefusedPush(n) && sweep == SWEEP
    ensures IsAttempt(PickedWorld(n), push + sweep, Engage, 0)
  {
    RefusedSteps(n);
    RefusedCycleEnds(n);
  }

  /** A PR branch that refuses every push holds up a queued fix for any number
      of cycles: each runs a fresh worker to its end, counts no failure, and
      leaves the same finding to be selected first. */
  lemma RefusedPushStarvesFix(n: nat, env: Env, repos: seq<R.Repo>)
    requires 1 !in env.overridden && Forced(env.force, 0)
    ensures Reachable(Stalled(0)) && After(Stalled(0), RefusedCycles(n)) == Some(Stalled(n))
    ensures After(Stalled(n), RefusedCycle(n)) == Some(Stalled(n + 1))
    ensures Selected(State(Stalled(n).t, repos), env, Mode.Run).1 == Some(Fresh(Engage, 0))
    ensures S.InTier(Stalled(n).t, Fix, 1) && Stalled(n).t.findings == Stalled(0).t.findings
  {
    StalledStarts();
    StallGoesOn(Stalled(0), n);
    RefusedCycleRuns(n);
    StalledSelects(n, env, repos);
  }
}
