/** When a suspended attempt is continued, on the chain itself: what
    `resume_plan` finds, and what the finding tier's and the resume tier's
    picks make of it (hunter-rs/src/scheduler.rs). */
module Resuming {
  import opened Domain
  import opened Chains
  import opened Tables
  import opened World
  import opened Runs
  import opened Selection
  import opened SelectionProofs
  import S = SelectSteps
  import G = Guarantees
  import R = Rotation

  // ------------------------------------------------------------------
  // The chain's cost
  // ------------------------------------------------------------------

  /** The largest spend of one link, and at least 0. */
  ghost function LargestLink(js: seq<Job>, j: nat): int
    requires j < |js|
  {
    var before := if SameKindPred(js, j).Some? then LargestLink(js, SameKindPred(js, j).value) else 0;
    if Spent(js[j]) > before then Spent(js[j]) else before
  }

  lemma {:induction false} LargestOfSegment(js: seq<Job>, j: nat)
    requires j < |js|
    ensures LargestLink(js, j) >= 0 && forall i | i in Segment(js, j) :: Spent(js[i]) <= LargestLink(js, j)
    ensures LargestLink(js, j) == 0 || exists i | i in Segment(js, j) :: Spent(js[i]) == LargestLink(js, j)
    decreases j
  {
    if SameKindPred(js, j).Some? {
      var p := SameKindPred(js, j).value;
      LargestOfSegment(js, p);
      if LargestLink(js, j) == LargestLink(js, p) && LargestLink(js, p) != 0 {
        var i :| i in Segment(js, p) && Spent(js[i]) == LargestLink(js, p);
        assert i in Segment(js, j);
      }
    }
    if Spent(js[j]) == LargestLink(js, j) { assert j in Segment(js, j); }
  }

  lemma MaxIsLargest(js: seq<Job>, j: nat)
    requires j < |js|
    ensures MaxOver(js, Segment(js, j), Spent) == LargestLink(js, j)
  {
    LargestOfSegment(js, j);
    MaxOverBounds(js, Segment(js, j), Spent);
  }

  /** For the unheld end of a chain the query adds up the chain itself. */
  lemma StatsOfEnd(t: Tables, j: nat)
    requires TablesOk(t) && j < |t.jobs| && LooseEnd(t.jobs, j) && t.jobs[j].blocker.None?
    ensures Stats(t.jobs, j)
      == ResumeChainStats(SegmentSum(t.jobs, j, Spent), Pos(t.jobs, j) + 1, LargestLink(t.jobs, j))
  {
    assert RowOk(t, j);
    assert Pos(t.jobs, j) < MAX_RESUME_ATTEMPTS;
    forall m | 0 <= m < |t.jobs| ensures SameKindPred(t.jobs, m) != Some(j) {
      assert t.jobs[m].resumedFrom != Some(j);
    }
    StatsMeterSegment(t.jobs, j, j);
    S.AttemptsAreLinks(t, j);
    StatsWholeSegment(t.jobs, j, j);
    MaxIsLargest(t.jobs, j);
  }

  // ------------------------------------------------------------------
  // One suspension
  // ------------------------------------------------------------------

  /** Its chain has a pinned commit, and its tree is there: that of the first
      job, or of the furthest link a longer chain's walk reaches. */
  ghost predicate HasTree(js: seq<Job>, trees: set<nat>, j: nat)
    requires Descending(js) && j < |js|
  {
    js[j].pinned.Some? && Furthest(js, j) in trees
  }

  /** Held for an operator, who queued it again; or neither tried too often
      nor, from the second try on, too costly beside its largest try. */
  ghost predicate MayGoOn(js: seq<Job>, j: nat, z: int)
    requires j < |js|
  {
    || js[j].blocker.Some?
    || (&& Pos(js, j) + 1 < MAX_RESUME_ATTEMPTS
        && !(z > 0 && Pos(js, j) + 1 >= 2
             && SegmentSum(js, j, Spent) - LargestLink(js, j) > GIVE_UP_MULTIPLE * z))
  }

  ghost predicate GoesOn(t: Tables, env: Env, j: nat)
    requires Descending(t.jobs) && j < |t.jobs|
  {
    HasTree(t.jobs, env.trees, j) && MayGoOn(t.jobs, j, env.typical(t.jobs[j].repo, t.jobs[j].kind))
  }

  lemma TreeExact(w: World, j: nat)
    requires Reachable(w) && Offered(w.t, j)
    ensures Descending(w.t.jobs) && ResumeOrigin(w.t.jobs, j) == Furthest(w.t.jobs, j)
    ensures Depth(w.t.jobs, j) <= MAX_DEPTH ==> Furthest(w.t.jobs, j) == Origin(w.t.jobs, j)
    ensures w.t.jobs[j].blocker.None? ==> Depth(w.t.jobs, j) <= MAX_DEPTH
  {
    ReachableOk(w);
    OriginReached(w.t.jobs, j);
    OriginExact(w.t.jobs, j);
    if w.t.jobs[j].blocker.None? { G.ChainsBounded(w, j); }
  }

  lemma CeilingExact(t: Tables, j: nat, z: int)
    requires TablesOk(t) && Offered(t, j)
    ensures PastCeiling(t.jobs, j, z) && !OperatorRequeued(t.jobs[j]) <==> !MayGoOn(t.jobs, j, z)
  {
    assert RowOk(t, j);
    if t.jobs[j].blocker.None? { StatsOfEnd(t, j); }
  }

  lemma CeilingReached(w: World, j: nat, z: int)
    requires Reachable(w) && Offered(w.t, j)
    ensures PastCeiling(w.t.jobs, j, z) && !OperatorRequeued(w.t.jobs[j]) <==> !MayGoOn(w.t.jobs, j, z)
  {
    ReachableOk(w);
    CeilingExact(w.t, j, z);
  }

  lemma WeighCases(t: Tables, env: Env, j: nat)
    requires j < |t.jobs|
    ensures var z := env.typical(t.jobs[j].repo, t.jobs[j].kind);
      && (Weigh(t, env, j).Gone? <==> !(t.jobs[j].pinned.Some? && ResumeOrigin(t.jobs, j) in env.trees))
      && (Weigh(t, env, j).Past? <==>
            !Weigh(t, env, j).Gone? && PastCeiling(t.jobs, j, z) && !OperatorRequeued(t.jobs[j]))
  {}

  /** `resume_plan`, for every suspension that is offered in a reachable
      state. */
  lemma WeighExact(w: World, env: Env, j: nat)
    requires Reachable(w) && Offered(w.t, j)
    ensures Descending(w.t.jobs)
    ensures Weigh(w.t, env, j).Go? <==> GoesOn(w.t, env, j)
    ensures Weigh(w.t, env, j).Gone? <==> !HasTree(w.t.jobs, env.trees, j)
    ensures Depth(w.t.jobs, j) <= MAX_DEPTH ==> Furthest(w.t.jobs, j) == Origin(w.t.jobs, j)
    ensures w.t.jobs[j].blocker.None? ==> Depth(w.t.jobs, j) <= MAX_DEPTH
  {
    TreeExact(w, j);
    CeilingReached(w, j, env.typical(w.t.jobs[j].repo, w.t.jobs[j].kind));
    WeighCases(w.t, env, j);
  }

  /** What becomes of a suspension that is turned down. */
  ghost function TurnedDown(t: Tables, env: Env, j: nat): Job
    requires Descending(t.jobs) && j < |t.jobs|
  {
    if HasTree(t.jobs, env.trees, j) then t.jobs[j].(state := Failed, reason := Some(GiveUp))
    else t.jobs[j].(state := Killed, reason := Some(WorkdirGone))
  }

  lemma RetireTurnsDown(w: World, repos: seq<R.Repo>, env: Env, j: nat)
    requires Reachable(w) && Descending(w.t.jobs) && Offered(w.t, j) && !GoesOn(w.t, env, j)
    ensures Retire(State(w.t, repos), env, j).t == SetJob(w.t, j, TurnedDown(w.t, env, j))
  {
    WeighExact(w, env, j);
  }

  /** A scan whose chain is given up waits its interval like one that ran:
      it is not due, so the rotation does not start it afresh at once. Nothing
      else moves a rotation timestamp here. */
  lemma GivenUpScanWaits(w: World, repos: seq<R.Repo>, env: Env, j: nat)
    requires Reachable(w) && Descending(w.t.jobs) && Offered(w.t, j) && !GoesOn(w.t, env, j)
    ensures var r, k, repos' := w.t.jobs[j].repo, w.t.jobs[j].kind, Retire(State(w.t, repos), env, j).repos;
      && |repos'| == |repos|
      && (forall i | 0 <= i < |repos| && i != r :: repos'[i] == repos[i])
      && (IsFindingKind(k) || !HasTree(w.t.jobs, env.trees, j) ==> repos' == repos)
      && (repos' != repos ==> !IsFindingKind(k) && r < |repos|)
    ensures var r, k, repos' := w.t.jobs[j].repo, w.t.jobs[j].kind, Retire(State(w.t, repos), env, j).repos;
      !IsFindingKind(k) && HasTree(w.t.jobs, env.trees, j) && r < |repos| ==>
        env.now > 0 && R.IntervalOf(env.intervals, k) > 0 ==> !R.IsDue(env.intervals, repos'[r], k, env.now)
  {
    WeighExact(w, env, j);
  }

  // ------------------------------------------------------------------
  // The finding tiers
  // ------------------------------------------------------------------

  lemma {:induction false} NoMatchIsFresh(s: State, env: Env, kind: JobKind, f: nat, list: seq<nat>)
    requires IsFindingKind(kind) && S.InTier(s.t, kind, f) && Rows(s.t, list)
    requires forall a | 0 <= a < |list| :: !Matches(s.t, kind, f, list[a])
    ensures FindingPick(s, env, kind, f, list, Mode.Run) == (s, Some(Fresh(kind, f)))
    decreases |list|
  {
    if list != [] {
      forall a | 0 <= a < |list[1..]| ensures list[1..][a] < |s.t.jobs| && !Matches(s.t, kind, f, list[1..][a]) {
        assert list[1..][a] == list[a + 1];
      }
      NoMatchIsFresh(s, env, kind, f, list[1..]);
    }
  }

  /** What the pick makes of the one suspension of its work. */
  function PickOf(s: State, env: Env, kind: JobKind, f: nat, j: nat): (State, Option<Candidate>)
    requires j < |s.t.jobs| && S.InTier(s.t, kind, f)
  {
    var s1 := Retire(s, env, j);
    RetireKeepsTiers(s, env, j);
    match Weigh(s.t, env, j)
    case Go => (s, Some(Resume(j)))
    case Gone => (s1, Some(Fresh(kind, f)))
    case Past =>
      (s1.(t := S.CountGivenUp(s1.t, kind, f, j, WHY)), if CountEnds(s1.t, kind, f) then None else Some(Fresh(kind, f)))
  }

  lemma {:induction false} OneMatch(s: State, env: Env, kind: JobKind, f: nat, list: seq<nat>, x: nat)
    requires IsFindingKind(kind) && S.InTier(s.t, kind, f) && Rows(s.t, list) && x < |list|
    requires forall a | 0 <= a < |list| :: Matches(s.t, kind, f, list[a]) <==> a == x
    ensures FindingPick(s, env, kind, f, list, Mode.Run) == PickOf(s, env, kind, f, list[x])
    decreases |list|
  {
    var rest := list[1..];
    forall a | 0 <= a < |rest| ensures rest[a] == list[a + 1] && rest[a] < |s.t.jobs| {}
    RetireKeepsTiers(s, env, list[0]);
    if x > 0 {
      OneMatch(s, env, kind, f, rest, x - 1);
    } else if Weigh(s.t, env, list[0]).Gone? {
      NoMatchIsFresh(Retire(s, env, list[0]), env, kind, f, rest);
    } else if Weigh(s.t, env, list[0]).Past? {
      var s1 := Retire(s, env, list[0]);
      CountEndsLeavesTier(s1.t, kind, f, list[0], WHY);
      if !CountEnds(s1.t, kind, f) {
        NoMatchIsFresh(s1.(t := S.CountGivenUp(s1.t, kind, f, list[0], WHY)), env, kind, f, rest);
      }
    }
  }

  /** At most one suspension of a piece of work is offered. */
  lemma OneOffered(w: World, kind: JobKind, f: nat, i: nat, j: nat)
    requires Reachable(w) && IsFindingKind(kind) && Offered(w.t, i) && Offered(w.t, j)
    requires Matches(w.t, kind, f, i) && Matches(w.t, kind, f, j)
    ensures i == j
  {
    ReachableOk(w);
    G.OneLiveAttempt(w, i, j);
  }

  /** A tier's pick at finding `f`, where no attempt at it waits. */
  lemma FreshWithoutWaiting(w: World, repos: seq<R.Repo>, env: Env, kind: JobKind, f: nat)
    requires IsFindingKind(kind) && S.InTier(w.t, kind, f)
    requires forall j: nat | Offered(w.t, j) :: !Matches(w.t, kind, f, j)
    ensures FindingPick(State(w.t, repos), env, kind, f, Resumable(w.t), Mode.Run)
      == (State(w.t, repos), Some(Fresh(kind, f)))
  {
    ResumableOffered(w.t);
    NoMatchIsFresh(State(w.t, repos), env, kind, f, Resumable(w.t));
  }

  lemma PickIsPickOf(w: World, repos: seq<R.Repo>, env: Env, kind: JobKind, f: nat, j: nat)
    requires Reachable(w) && IsFindingKind(kind) && S.InTier(w.t, kind, f)
    requires Offered(w.t, j) && Matches(w.t, kind, f, j)
    ensures FindingPick(State(w.t, repos), env, kind, f, Resumable(w.t), Mode.Run)
      == PickOf(State(w.t, repos), env, kind, f, j)
  {
    var list := Resumable(w.t);
    ResumableOffered(w.t);
    assert j in ResumableBelow(w.t, |w.t.jobs|);
    var x :| 0 <= x < |list| && list[x] == j;
    forall a | 0 <= a < |list| ensures Matches(w.t, kind, f, list[a]) <==> a == x {
      assert Offered(w.t, list[a]);
      if Matches(w.t, kind, f, list[a]) { OneOffered(w, kind, f, list[a], j); }
    }
    OneMatch(State(w.t, repos), env, kind, f, list, x);
  }

  /** And where one does: it is continued exactly if it may go on, in its own
      tree. Without its tree it is killed, and the work starts afresh; past
      the ceiling the chain is given up, which counts as one failure - the
      work starts afresh unless that failure ended it. */
  lemma WaitingIsContinued(w: World, repos: seq<R.Repo>, env: Env, kind: JobKind, f: nat, j: nat)
    requires Reachable(w) && IsFindingKind(kind) && S.InTier(w.t, kind, f)
    requires Offered(w.t, j) && Matches(w.t, kind, f, j)
    ensures Descending(w.t.jobs)
    ensures var s, t1 := State(w.t, repos), SetJob(w.t, j, TurnedDown(w.t, env, j));
      FindingPick(s, env, kind, f, Resumable(w.t), Mode.Run) ==
        if GoesOn(w.t, env, j) then (s, Some(Resume(j)))
        else if !HasTree(w.t.jobs, env.trees, j) then (State(t1, repos), Some(Fresh(kind, f)))
        else
          var t2 := S.CountGivenUp(t1, kind, f, j, WHY);
          (State(t2, repos), if S.InTier(t2, kind, f) then Some(Fresh(kind, f)) else None)
  {
    var s := State(w.t, repos);
    PickIsPickOf(w, repos, env, kind, f, j);
    WeighExact(w, env, j);
    if !GoesOn(w.t, env, j) {
      RetireTurnsDown(w, repos, env, j);
      RetireKeepsTiers(s, env, j);
      CountEndsLeavesTier(Retire(s, env, j).t, kind, f, j, WHY);
    }
  }

  // ------------------------------------------------------------------
  // The resume tier
  // ------------------------------------------------------------------

  /** The tables the walk has come to, and those it began with, agree on the
      rest of the list. */
  ghost predicate Agree(t: Tables, t0: Tables, env: Env, list: seq<nat>) {
    && Forest(t.jobs) && AllOffered(t, list) && |t.jobs| == |t0.jobs|
    && forall x | 0 <= x < |list| ::
        t.jobs[list[x]] == t0.jobs[list[x]] && Weigh(t, env, list[x]) == Weigh(t0, env, list[x])
  }

  lemma AgreeOnRest(t: Tables, t0: Tables, env: Env, list: seq<nat>)
    requires Agree(t, t0, env, list) && list != []
    ensures Agree(t, t0, env, list[1..])
  {
    forall x | 0 <= x < |list[1..]| ensures list[1..][x] == list[x + 1] && Offered(t, list[1..][x]) {
      assert Offered(t, list[x + 1]);
    }
  }

  lemma RetireAgrees(s: State, t0: Tables, env: Env, list: seq<nat>)
    requires Agree(s.t, t0, env, list) && list != [] && !Weigh(s.t, env, list[0]).Go?
    ensures Agree(Retire(s, env, list[0]).t, t0, env, list[1..])
  {
    var t' := Retire(s, env, list[0]).t;
    assert Offered(s.t, list[0]);
    OthersStayOffered(s.t, t', list);
    SameLinksForest(s.t.jobs, t'.jobs);
    forall x | 0 <= x < |list[1..]|
      ensures t'.jobs[list[1..][x]] == t0.jobs[list[1..][x]]
      ensures Weigh(t', env, list[1..][x]) == Weigh(t0, env, list[1..][x])
    {
      assert list[1..][x] == list[x + 1] && list[x + 1] < list[0];
      assert Offered(s.t, list[x + 1]);
      WeighUnaffected(s, env, list[0], list[x + 1]);
    }
  }

  predicate Considered(t: Tables, env: Env, list: seq<nat>, i: nat)
    requires Rows(t, list)
  {
    i in list && i < |t.jobs| && Forced(env.force, t.jobs[i].repo)
  }

  /** What the walk writes on a row it turns down. */
  function RetiredRow(t: Tables, env: Env, i: nat): Job
    requires i < |t.jobs|
  {
    if Weigh(t, env, i).Gone? then Retired(t.jobs[i], Killed, Some(WorkdirGone))
    else Retired(t.jobs[i], Failed, Some(GiveUp))
  }

  ghost predicate WalkDone(s: State, t0: Tables, env: Env, list: seq<nat>, s': State, r: Option<nat>)
    requires Rows(t0, list) && |s.t.jobs| == |t0.jobs|
  {
    && |s'.t.jobs| == |s.t.jobs| && s'.t.findings == s.t.findings && s'.t.deleted == s.t.deleted
    && (r.Some? ==> Considered(t0, env, list, r.value) && Weigh(t0, env, r.value).Go?)
    && (forall i: nat | Considered(t0, env, list, i) && Weigh(t0, env, i).Go? :: r.Some? && i <= r.value)
    && (forall i: nat | i < |s.t.jobs| :: s'.t.jobs[i]
          == if Considered(t0, env, list, i) && !Weigh(t0, env, i).Go? && (r.None? || i > r.value)
             then RetiredRow(t0, env, i) else s.t.jobs[i])
  }

  lemma WalkSkips(s: State, t0: Tables, env: Env, list: seq<nat>, s': State, r: Option<nat>)
    requires list != [] && Agree(s.t, t0, env, list) && !Forced(env.force, t0.jobs[list[0]].repo)
    requires Rows(t0, list[1..]) && WalkDone(s, t0, env, list[1..], s', r)
    ensures WalkDone(s, t0, env, list, s', r)
  {
    assert list == [list[0]] + list[1..];
    forall i: nat ensures Considered(t0, env, list, i) <==> Considered(t0, env, list[1..], i) {}
  }

  lemma WalkTurnsDown(s: State, t0: Tables, env: Env, list: seq<nat>, s': State, r: Option<nat>)
    requires list != [] && Agree(s.t, t0, env, list) && Forced(env.force, t0.jobs[list[0]].repo)
    requires !Weigh(t0, env, list[0]).Go?
    requires Rows(t0, list[1..]) && WalkDone(Retire(s, env, list[0]), t0, env, list[1..], s', r)
    ensures WalkDone(s, t0, env, list, s', r)
  {
    var j := list[0];
    assert list == [j] + list[1..];
    assert j !in list[1..] by { forall x | 0 <= x < |list[1..]| ensures list[1..][x] < j {} }
    forall i: nat ensures Considered(t0, env, list, i) <==> Considered(t0, env, list[1..], i) || i == j {}
    assert r.Some? ==> j > r.value by {
      if r.Some? { assert r.value in list[1..]; }
    }
  }

  lemma WalkTakes(s: State, t0: Tables, env: Env, list: seq<nat>)
    requires list != [] && Agree(s.t, t0, env, list) && Forced(env.force, t0.jobs[list[0]].repo)
    requires Weigh(t0, env, list[0]).Go?
    ensures WalkDone(s, t0, env, list, s, Some(list[0]))
  {
    assert forall i | i in list :: i <= list[0];
  }

  lemma {:induction false} WalkExact(s: State, t0: Tables, env: Env, list: seq<nat>)
    requires Agree(s.t, t0, env, list)
    ensures var (s', r) := PickResume(s, env, list, Mode.Run); WalkDone(s, t0, env, list, s', r)
    decreases |list|
  {
    if list != [] {
      var j, rest := list[0], list[1..];
      if !Forced(env.force, s.t.jobs[j].repo) {
        AgreeOnRest(s.t, t0, env, list);
        WalkExact(s, t0, env, rest);
        var (s', r) := PickResume(s, env, rest, Mode.Run);
        WalkSkips(s, t0, env, list, s', r);
      } else if Weigh(s.t, env, j).Go? {
        WalkTakes(s, t0, env, list);
      } else {
        RetireAgrees(s, t0, env, list);
        WalkExact(Retire(s, env, j), t0, env, rest);
        var (s', r) := PickResume(Retire(s, env, j), env, rest, Mode.Run);
        WalkTurnsDown(s, t0, env, list, s', r);
      }
    }
  }

  /** A suspension the resume tier may take. */
  predicate Waits(t: Tables, env: Env, j: nat) {
    Offered(t, j) && Forced(env.force, t.jobs[j].repo)
  }

  /** The resume tier takes the newest suspension that may go on; on its way it
      turns down every newer one, and touches no other row. */
  lemma NewestGoesOn(w: World, repos: seq<R.Repo>, env: Env)
    requires Reachable(w)
    ensures Descending(w.t.jobs)
    ensures var (s', r) := PickResume(State(w.t, repos), env, Resumable(w.t), Mode.Run);
      && (r.Some? ==> Waits(w.t, env, r.value) && GoesOn(w.t, env, r.value))
      && (forall j: nat | Waits(w.t, env, j) && GoesOn(w.t, env, j) :: r.Some? && j <= r.value)
      && |s'.t.jobs| == |w.t.jobs| && s'.t.findings == w.t.findings && s'.t.deleted == w.t.deleted
      && (forall j: nat | j < |w.t.jobs| :: s'.t.jobs[j]
            == if Waits(w.t, env, j) && !GoesOn(w.t, env, j) && (r.None? || j > r.value)
               then TurnedDown(w.t, env, j) else w.t.jobs[j])
  {
    ReachableOk(w);
    var s, list := State(w.t, repos), Resumable(w.t);
    ResumableOffered(w.t);
    WalkExact(s, w.t, env, list);
    forall j: nat ensures Considered(w.t, env, list, j) <==> Waits(w.t, env, j) {
      assert j < |w.t.jobs| && Offered(w.t, j) ==> j in ResumableBelow(w.t, |w.t.jobs|);
    }
    forall j: nat | Waits(w.t, env, j)
      ensures Weigh(w.t, env, j).Go? <==> GoesOn(w.t, env, j)
      ensures !GoesOn(w.t, env, j) ==> RetiredRow(w.t, env, j) == TurnedDown(w.t, env, j)
    {
      WeighExact(w, env, j);
    }
  }
}
