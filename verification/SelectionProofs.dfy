/** What selection promises: it takes only steps of the state machine, a
    preview agrees with it, and it reaches the rotation only when nothing is
    left to resume. */
module SelectionProofs {
  import opened Domain
  import opened Chains
  import opened Tables
  import opened World
  import opened TableChanges
  import opened Runs
  import opened Selection
  import S = SelectSteps
  import R = Rotation

  // ------------------------------------------------------------------
  // Every write is a step
  // ------------------------------------------------------------------

  /** The place a selection leaves the scheduler in. */
  function PhaseFor(t: Tables, c: Option<Candidate>): Phase
    requires c.Some? && c.value.Fresh? ==> c.value.finding in t.findings
    requires c.Some? && c.value.Resume? ==> c.value.job < |t.jobs|
  {
    if c.None? then Ready
    else match c.value
      case Fresh(kind, f) => Picked(kind, t.findings[f].repo, Some(f), None, false)
      case Resume(j) => Picked(t.jobs[j].kind, t.jobs[j].repo, t.jobs[j].finding, Some(j), false)
      case Scan(repo, kind) => Picked(kind, repo, None, None, false)
  }

  ghost predicate AllOffered(t: Tables, list: seq<nat>) {
    && Rows(t, list)
    && (forall a | 0 <= a < |list| :: Offered(t, list[a]))
    && (forall a, b | 0 <= a < b < |list| :: list[a] > list[b])
  }

  /** Retiring one suspension, or counting its failure short of the third,
      leaves the others offered. */
  lemma OthersStayOffered(t: Tables, t': Tables, list: seq<nat>)
    requires list != [] && AllOffered(t, list) && |t'.jobs| == |t.jobs| && SameLinks(t.jobs, t'.jobs)
    requires t'.deleted == t.deleted
    requires forall i | 0 <= i < |t.jobs| && i != list[0] :: t'.jobs[i] == t.jobs[i]
    requires t'.findings.Keys == t.findings.Keys
    requires forall f | f in t.findings :: t'.findings[f].status == t.findings[f].status
    ensures AllOffered(t', list[1..])
  {
    SameLinksSameSuccessors(t.jobs, t'.jobs);
    forall a | 0 <= a < |list[1..]| ensures Offered(t', list[1..][a]) {
      assert list[1..][a] == list[a + 1] && list[a + 1] < list[0];
      assert Offered(t, list[a + 1]);
    }
  }

  /** Where the next selection step comes from: the world with the tables of
      `s`. */
  predicate Stands(w: World, s: State, env: Env) {
    w.phase.Ready? && w.t == s.t && w.trees == env.trees
  }

  function RetireStep(s: State, env: Env, j: nat): S.SelectStep
    requires j < |s.t.jobs|
  {
    if Weigh(s.t, env, j).Gone? then S.Discard(j) else S.GiveUpOn(j, env.typical(s.t.jobs[j].repo, s.t.jobs[j].kind))
  }

  lemma RetireIsStep(w: World, s: State, env: Env, list: seq<nat>)
    requires Stands(w, s, env) && list != [] && AllOffered(s.t, list) && !Weigh(s.t, env, list[0]).Go?
    ensures S.Enabled(w, RetireStep(s, env, list[0]))
    ensures S.Next(w, RetireStep(s, env, list[0])) == w.(t := Retire(s, env, list[0]).t)
    ensures AllOffered(Retire(s, env, list[0]).t, list[1..])
  {
    assert Offered(s.t, list[0]);
    OthersStayOffered(s.t, Retire(s, env, list[0]).t, list);
  }

  lemma {:induction false} PickResumeIsRun(w: World, s: State, env: Env, list: seq<nat>) returns (xs: seq<Step>)
    requires Stands(w, s, env) && AllOffered(s.t, list)
    ensures var (s', j) := PickResume(s, env, list, Mode.Run);
      && After(w, xs) == Some(w.(t := s'.t))
      && (j.Some? ==>
            && j.value in list && j.value < |s'.t.jobs| && Offered(s'.t, j.value)
            && Weigh(s'.t, env, j.value).Go?)
    decreases |list|
  {
    if list == [] {
      xs := [];
      assert w.(t := s.t) == w;
    } else {
      var j := list[0];
      var rest := list[1..];
      if !Forced(env.force, s.t.jobs[j].repo) {
        assert AllOffered(s.t, rest);
        xs := PickResumeIsRun(w, s, env, rest);
      } else if Weigh(s.t, env, j).Go? {
        xs := [];
        assert w.(t := s.t) == w;
      } else {
        RetireIsStep(w, s, env, list);
        var x := Step.Select(RetireStep(s, env, j));
        var s1 := Retire(s, env, j);
        var w1 := w.(t := s1.t);
        var ys := PickResumeIsRun(w1, s1, env, rest);
        xs := [x] + ys;
        StepThen(w, x, ys);
      }
    }
  }

  /** The finding tier's walk from one suspension that is past its ceiling. */
  lemma CountIsStep(w: World, s: State, env: Env, kind: JobKind, f: nat, list: seq<nat>)
    requires Stands(w, s, env) && list != [] && AllOffered(s.t, list) && IsFindingKind(kind) && S.InTier(s.t, kind, f)
    requires Matches(s.t, kind, f, list[0]) && Weigh(s.t, env, list[0]).Past?
    ensures var j := list[0];
      var x := S.GiveUpCounted(j, env.typical(s.t.jobs[j].repo, s.t.jobs[j].kind), WHY);
      var t1 := Retire(s, env, j).t;
      && S.InTier(t1, kind, f)
      && S.Enabled(w, x) && S.Next(w, x) == w.(t := S.CountGivenUp(t1, kind, f, j, WHY))
      && (!CountEnds(t1, kind, f) ==> AllOffered(S.CountGivenUp(t1, kind, f, j, WHY), list[1..]))
  {
    var j := list[0];
    assert Offered(s.t, j);
    RetireKeepsTiers(s, env, j);
    var t1 := Retire(s, env, j).t;
    assert t1 == S.GivenUp(s.t, j);
    if !CountEnds(t1, kind, f) {
      CountEndsLeavesTier(t1, kind, f, j, WHY);
      var t2 := S.CountGivenUp(t1, kind, f, j, WHY);
      assert t2.deleted == t1.deleted && forall g | g in t1.findings :: t2.findings[g].status == t1.findings[g].status;
      OthersStayOffered(s.t, t2, list);
    }
  }

  predicate PickOk(t: Tables, env: Env, kind: JobKind, f: nat, c: Option<Candidate>) {
    c.Some? ==>
      if c.value.Resume?
      then c.value.job < |t.jobs| && Offered(t, c.value.job) && Weigh(t, env, c.value.job).Go?
        && Matches(t, kind, f, c.value.job)
      else c.value == Fresh(kind, f) && S.InTier(t, kind, f)
  }

  lemma {:induction false} FindingPickIsRun(w: World, s: State, env: Env, kind: JobKind, f: nat, list: seq<nat>)
      returns (xs: seq<Step>)
    requires Stands(w, s, env) && AllOffered(s.t, list) && IsFindingKind(kind) && S.InTier(s.t, kind, f)
    ensures var (s', c) := FindingPick(s, env, kind, f, list, Mode.Run);
      After(w, xs) == Some(w.(t := s'.t)) && PickOk(s'.t, env, kind, f, c)
    decreases |list|
  {
    if list == [] {
      xs := [];
      assert w.(t := s.t) == w;
    } else {
      var j, rest := list[0], list[1..];
      if !Matches(s.t, kind, f, j) {
        assert AllOffered(s.t, rest);
        xs := FindingPickIsRun(w, s, env, kind, f, rest);
      } else if Weigh(s.t, env, j).Go? {
        xs := [];
        assert w.(t := s.t) == w;
      } else if Weigh(s.t, env, j).Gone? {
        RetireIsStep(w, s, env, list);
        RetireKeepsTiers(s, env, j);
        var s1 := Retire(s, env, j);
        var x := Step.Select(RetireStep(s, env, j));
        var ys := FindingPickIsRun(w.(t := s1.t), s1, env, kind, f, rest);
        xs := [x] + ys;
        StepThen(w, x, ys);
      } else {
        xs := CountedPickIsRun(w, s, env, kind, f, list);
      }
    }
  }

  lemma {:induction false} CountedPickIsRun(w: World, s: State, env: Env, kind: JobKind, f: nat, list: seq<nat>)
      returns (xs: seq<Step>)
    requires Stands(w, s, env) && list != [] && AllOffered(s.t, list) && IsFindingKind(kind) && S.InTier(s.t, kind, f)
    requires Matches(s.t, kind, f, list[0]) && Weigh(s.t, env, list[0]).Past?
    ensures var (s', c) := FindingPick(s, env, kind, f, list, Mode.Run);
      After(w, xs) == Some(w.(t := s'.t)) && PickOk(s'.t, env, kind, f, c)
    decreases |list|, 0
  {
    var j, rest := list[0], list[1..];
    CountIsStep(w, s, env, kind, f, list);
    var s1 := Retire(s, env, j);
    var x := Step.Select(S.GiveUpCounted(j, env.typical(s.t.jobs[j].repo, s.t.jobs[j].kind), WHY));
    CountEndsLeavesTier(s1.t, kind, f, j, WHY);
    var s2 := s1.(t := S.CountGivenUp(s1.t, kind, f, j, WHY));
    var w2 := w.(t := s2.t);
    if CountEnds(s1.t, kind, f) {
      xs := [x] + [];
      StepThen(w, x, []);
      assert After(w2, []) == Some(w2);
    } else {
      var ys := FindingPickIsRun(w2, s2, env, kind, f, rest);
      xs := [x] + ys;
      StepThen(w, x, ys);
    }
  }

  lemma ResumableOffered(t: Tables)
    ensures AllOffered(t, Resumable(t))
  {}

  lemma PickIsStep(w: World, s: State, env: Env, c: Candidate) returns (x: Step)
    requires Stands(w, s, env)
    requires c.Fresh? ==> IsFindingKind(c.kind) && S.InTier(s.t, c.kind, c.finding)
    requires c.Resume? ==> c.job < |s.t.jobs| && Offered(s.t, c.job) && Weigh(s.t, env, c.job).Go?
    requires c.Scan? ==> !IsFindingKind(c.kind)
    ensures Enabled(w, x) && Next(w, x) == w.(phase := PhaseFor(s.t, Some(c)))
  {
    match c
    case Fresh(kind, f) => x := Step.Select(S.PickFresh(kind, s.t.findings[f].repo, Some(f)));
    case Resume(j) => x := Step.Select(S.PickResume(j, env.typical(s.t.jobs[j].repo, s.t.jobs[j].kind)));
    case Scan(repo, kind) => x := Step.Select(S.PickFresh(kind, repo, None));
  }

  lemma ScanIsRepoKind(env: Env, repos: seq<R.Repo>)
    requires R.PickScan(env.intervals, repos, env.force, env.now).Some?
    ensures !IsFindingKind(R.PickScan(env.intervals, repos, env.force, env.now).value.1)
  {
    var (i, k) := R.PickScan(env.intervals, repos, env.force, env.now).value;
    var x := R.PickedIsKind(env.intervals, repos[i], env.now);
  }

  ghost predicate CandidateOk(t: Tables, env: Env, c: Option<Candidate>) {
    && (c.Some? && c.value.Fresh? ==> IsFindingKind(c.value.kind) && S.InTier(t, c.value.kind, c.value.finding))
    && (c.Some? && c.value.Resume? ==>
         c.value.job < |t.jobs| && Offered(t, c.value.job) && Weigh(t, env, c.value.job).Go?)
    && (c.Some? && c.value.Scan? ==> !IsFindingKind(c.value.kind))
  }

  lemma {:induction false} WalkIsRun(w: World, s: State, env: Env) returns (xs: seq<Step>)
    requires Stands(w, s, env)
    ensures var (s', c) := Selected(s, env, Mode.Run);
      After(w, xs) == Some(w.(t := s'.t)) && CandidateOk(s'.t, env, c)
    decreases TierTotal(s.t)
  {
    ResumableOffered(s.t);
    var item := FirstItem(s.t, env);
    if item.Some? {
      var (s1, c) := FindingPick(s, env, item.value.0, item.value.1, Resumable(s.t), Mode.Run);
      xs := FindingPickIsRun(w, s, env, item.value.0, item.value.1, Resumable(s.t));
      if c.None? {
        var w1 := w.(t := s1.t);
        var ys := WalkIsRun(w1, s1, env);
        RunsCompose(w, xs, ys);
        xs := xs + ys;
      }
    } else {
      xs := PickResumeIsRun(w, s, env, Resumable(s.t));
      var (s1, j) := PickResume(s, env, Resumable(s.t), Mode.Run);
      if j.None? && R.PickScan(env.intervals, s1.repos, env.force, env.now).Some? { ScanIsRepoKind(env, s1.repos); }
    }
  }

  /** Everything a selection writes, and the pick it ends with, is a sequence
      of enabled steps of the state machine, so every invariant of the system
      holds through it. */
  lemma SelectIsRun(w: World, s: State, env: Env) returns (xs: seq<Step>)
    requires Stands(w, s, env)
    ensures var (s', c) := Selected(s, env, Mode.Run);
      && CandidateOk(s'.t, env, c)
      && After(w, xs) == Some(w.(t := s'.t, phase := PhaseFor(s'.t, c)))
  {
    xs := WalkIsRun(w, s, env);
    var (s', c) := Selected(s, env, Mode.Run);
    var w1 := w.(t := s'.t);
    if c.Some? {
      var x := PickIsStep(w1, s', env, c.value);
      RunThenStep(w, xs, x);
      xs := xs + [x];
    }
  }

  // ------------------------------------------------------------------
  // Nothing left to resume
  // ------------------------------------------------------------------

  predicate Waiting(t: Tables, force: Option<nat>, j: nat) {
    Offered(t, j) && Forced(force, t.jobs[j].repo)
  }

  lemma RetiredNotOffered(s: State, env: Env, j: nat, i: nat)
    requires j < |s.t.jobs| && Offered(s.t, j) && !Weigh(s.t, env, j).Go?
    ensures Offered(Retire(s, env, j).t, i) ==> i != j && Offered(s.t, i) && Retire(s, env, j).t.jobs[i] == s.t.jobs[i]
  {
    SameLinksSameSuccessors(s.t.jobs, Retire(s, env, j).t.jobs);
  }

  lemma {:induction false} WalkLeavesNone(s: State, env: Env, list: seq<nat>, i: nat)
    requires AllOffered(s.t, list)
    requires PickResume(s, env, list, Mode.Run).1.None?
    ensures Waiting(PickResume(s, env, list, Mode.Run).0.t, env.force, i) ==> Waiting(s.t, env.force, i) && i !in list
    decreases |list|
  {
    if list != [] {
      var j := list[0];
      var s1 := if Forced(env.force, s.t.jobs[j].repo) then Retire(s, env, j) else s;
      if Forced(env.force, s.t.jobs[j].repo) {
        assert Offered(s.t, j);
        OthersStayOffered(s.t, s1.t, list);
        RetiredNotOffered(s, env, j, i);
      } else {
        assert AllOffered(s.t, list[1..]);
      }
      WalkLeavesNone(s1, env, list[1..], i);
      assert list == [j] + list[1..];
    }
  }

  /** Retiring suspensions empties no tier and fills none. */
  lemma TiersStayEmpty(s: State, env: Env, k: JobKind)
    requires TierPick(s.t, env, k, false).None?
    ensures TierPick(PickResume(s, env, Resumable(s.t), Mode.Run).0.t, env, k, false).None?
  {
    WalkKeepsFindings(s, env, Resumable(s.t));
    var t' := PickResume(s, env, Resumable(s.t), Mode.Run).0.t;
    assert forall f :: S.InTier(t', k, f) <==> S.InTier(s.t, k, f);
  }

  /** The rotation is reached only when no finding waits in any tier and no
      suspension is left to resume: a scan never starts beside a chain that
      could be continued. */
  lemma {:induction false} RotationComesLast(s: State, env: Env, i: nat)
    requires var c := Selected(s, env, Mode.Run).1; c.None? || c.value.Scan?
    ensures !Waiting(Selected(s, env, Mode.Run).0.t, env.force, i)
    ensures forall n | 0 <= n < |TIERS| :: TierPick(Selected(s, env, Mode.Run).0.t, env, TIERS[n], false).None?
    decreases TierTotal(s.t)
  {
    var item := FirstItem(s.t, env);
    ResumableOffered(s.t);
    if item.Some? {
      var (s1, c) := FindingPick(s, env, item.value.0, item.value.1, Resumable(s.t), Mode.Run);
      FindingPickNeverScans(s, env, item.value.0, item.value.1, Resumable(s.t));
      RotationComesLast(s1, env, i);
    } else {
      WalkLeavesNone(s, env, Resumable(s.t), i);
      forall n | 0 <= n < |TIERS| ensures TierPick(Selected(s, env, Mode.Run).0.t, env, TIERS[n], false).None? {
        TiersStayEmpty(s, env, TIERS[n]);
      }
    }
  }

  lemma {:induction false} FindingPickNeverScans(s: State, env: Env, kind: JobKind, f: nat, list: seq<nat>)
    requires IsFindingKind(kind) && S.InTier(s.t, kind, f) && AllOffered(s.t, list)
    ensures var c := FindingPick(s, env, kind, f, list, Mode.Run).1; c.Some? ==> !c.value.Scan?
  {
    var w := World(s.t, env.trees, {}, Ready);
    var xs := FindingPickIsRun(w, s, env, kind, f, list);
  }

  lemma {:induction false} WalkKeepsFindings(s: State, env: Env, list: seq<nat>)
    requires Rows(s.t, list)
    ensures PickResume(s, env, list, Mode.Run).0.t.findings == s.t.findings
    decreases |list|
  {
    if list != [] {
      var s1 := if Forced(env.force, s.t.jobs[list[0]].repo) then Retire(s, env, list[0]) else s;
      if !(Forced(env.force, s.t.jobs[list[0]].repo) && Weigh(s.t, env, list[0]).Go?) {
        WalkKeepsFindings(s1, env, list[1..]);
      }
    }
  }

  // ------------------------------------------------------------------
  // The preview
  // ------------------------------------------------------------------

  lemma {:induction false} SumOverSame(a: seq<Job>, b: seq<Job>, ids: set<nat>, v: Job -> int)
    requires |a| == |b| && forall i: nat | i < |a| && i in ids :: a[i] == b[i]
    ensures SumOver(a, ids, v) == SumOver(b, ids, v) && MaxOver(a, ids, v) == MaxOver(b, ids, v)
  {
    if |a| > 0 { SumOverSame(a[..|a| - 1], b[..|b| - 1], ids, v); }
  }

  lemma {:induction false} SameLinksSameSegment(a: seq<Job>, b: seq<Job>, j: nat)
    requires SameLinks(a, b) && Descending(a) && Descending(b) && |a| == |b| && j < |a|
    ensures SegmentRoot(a, j) == SegmentRoot(b, j) && Pos(a, j) == Pos(b, j)
    decreases j
  {
    if a[j].resumedFrom.Some? { SameLinksSameSegment(a, b, a[j].resumedFrom.value); }
  }

  lemma {:induction false} SameLinksSameAncestor(a: seq<Job>, b: seq<Job>, j: nat, k: nat)
    requires SameLinks(a, b) && Descending(a) && Descending(b) && |a| == |b| && j < |a|
    requires k <= Depth(a, j) && k <= Depth(b, j)
    ensures Ancestor(a, j, k) == Ancestor(b, j, k)
    decreases k
  {
    if k > 0 { SameLinksSameAncestor(a, b, a[j].resumedFrom.value, k - 1); }
  }

  /** Two ends are in different segments. */
  lemma EndsApart(js: seq<Job>, i: nat, j: nat)
    requires Forest(js) && i < |js| && j < |js| && i != j && !HasSuccessor(js, i) && !HasSuccessor(js, j)
    ensures !SameSegment(js, i, j)
  {
    if SameSegment(js, i, j) {
      EndIsLast(js, i, j);
      EndIsLast(js, j, i);
      PosUnique(js, i, j);
    }
  }

  lemma EndIsLast(js: seq<Job>, i: nat, j: nat)
    requires Forest(js) && i < |js| && j < |js| && SameSegment(js, i, j) && !HasSuccessor(js, i)
    ensures Pos(js, j) <= Pos(js, i)
  {
    if Pos(js, i) < Pos(js, j) {
      var m := NextToward(js, i, j);
      assert false;
    }
  }

  lemma SameOrigin(a: seq<Job>, b: seq<Job>, i: nat)
    requires Descending(a) && Descending(b) && SameLinks(a, b) && |a| == |b| && i < |a|
    ensures ResumeOrigin(a, i) == ResumeOrigin(b, i)
  {
    SameLinksSameShape(a, b, i);
    SameLinksSameAncestor(a, b, i, if Depth(a, i) <= MAX_DEPTH then Depth(a, i) else MAX_DEPTH);
    OriginReached(a, i);
    OriginReached(b, i);
  }

  lemma SameStatsIds(a: seq<Job>, b: seq<Job>, i: nat)
    requires Forest(a) && Forest(b) && SameLinks(a, b) && |a| == |b| && i < |a|
    ensures StatsIds(a, i) == StatsIds(b, i)
  {
    StatsExact(a, i);
    StatsExact(b, i);
    SameLinksSameSegment(a, b, i);
    forall k: nat | k < |a| ensures k in StatsIds(a, i) <==> k in StatsIds(b, i) {
      SameLinksSameSegment(a, b, k);
    }
  }

  /** One end's row does not enter another end's stats. */
  lemma SameStats(a: seq<Job>, b: seq<Job>, i: nat, j: nat)
    requires Forest(a) && Forest(b) && SameLinks(a, b) && |a| == |b| && i < |a| && j < |a| && i != j
    requires !HasSuccessor(a, i) && !HasSuccessor(a, j)
    requires forall k | 0 <= k < |a| && k != j :: a[k] == b[k]
    ensures Stats(a, i) == Stats(b, i)
  {
    SameStatsIds(a, b, i);
    EndsApart(a, i, j);
    StatsExact(a, i);
    SumOverSame(a, b, StatsIds(a, i), Spent);
    SumOverSame(a, b, StatsIds(a, i), CountOne);
  }

  /** What `resume_plan` finds about one suspension does not change when
      another is retired. */
  lemma WeighUnaffected(s: State, env: Env, j: nat, i: nat)
    requires Forest(s.t.jobs) && i < |s.t.jobs| && j < |s.t.jobs| && i != j
    requires LooseEnd(s.t.jobs, i) && LooseEnd(s.t.jobs, j)
    ensures Forest(Retire(s, env, j).t.jobs)
    ensures Weigh(Retire(s, env, j).t, env, i) == Weigh(s.t, env, i)
  {
    var a, b := s.t.jobs, Retire(s, env, j).t.jobs;
    SameLinksForest(a, b);
    SameOrigin(a, b, i);
    SameStats(a, b, i, j);
  }

  lemma SameLinksForest(a: seq<Job>, b: seq<Job>)
    requires Forest(a) && SameLinks(a, b) && |a| == |b|
    ensures Forest(b)
  {}

  /** No chain this walk reaches is past its ceiling. */
  predicate FindingClear(t: Tables, env: Env, kind: JobKind, f: nat, list: seq<nat>)
    requires Rows(t, list)
  {
    list == [] ||
    if !Matches(t, kind, f, list[0]) || Weigh(t, env, list[0]).Gone? then FindingClear(t, env, kind, f, list[1..])
    else Weigh(t, env, list[0]).Go?
  }

  predicate ResumeClear(t: Tables, env: Env, list: seq<nat>)
    requires Rows(t, list)
  {
    list == [] ||
    if !Forced(env.force, t.jobs[list[0]].repo) || Weigh(t, env, list[0]).Gone? then ResumeClear(t, env, list[1..])
    else Weigh(t, env, list[0]).Go?
  }

  /** No chain the preview reaches is past its ceiling. */
  predicate Clear(t: Tables, env: Env) {
    var item := FirstItem(t, env);
    if item.Some? then FindingClear(t, env, item.value.0, item.value.1, Resumable(t))
    else ResumeClear(t, env, Resumable(t))
  }

  /** The tables a run has moved to and the ones a preview still sees agree on
      the rest of the list. */
  ghost predicate SameView(a: State, b: State, env: Env, list: seq<nat>) {
    && Forest(a.t.jobs) && AllOffered(a.t, list) && AllOffered(b.t, list)
    && |a.t.jobs| == |b.t.jobs| && a.repos == b.repos && a.t.findings == b.t.findings
    && forall x | 0 <= x < |list| ::
        && a.t.jobs[list[x]] == b.t.jobs[list[x]]
        && Weigh(a.t, env, list[x]) == Weigh(b.t, env, list[x])
  }

  lemma DiscardKeepsView(a: State, b: State, env: Env, list: seq<nat>)
    requires SameView(a, b, env, list) && list != [] && Weigh(a.t, env, list[0]).Gone?
    ensures SameView(Retire(a, env, list[0]), b, env, list[1..])
  {
    var a' := Retire(a, env, list[0]);
    OthersStayOffered(a.t, a'.t, list);
    RestOfView(a, b, env, list);
    assert Offered(a.t, list[0]);
    forall x | 0 <= x < |list[1..]|
      ensures a'.t.jobs[list[1..][x]] == b.t.jobs[list[1..][x]]
      ensures Weigh(a'.t, env, list[1..][x]) == Weigh(b.t, env, list[1..][x])
    {
      assert list[1..][x] == list[x + 1] && list[x + 1] < list[0];
      assert Offered(a.t, list[x + 1]);
      WeighUnaffected(a, env, list[0], list[x + 1]);
    }
    if list[1..] == [] {
      SameLinksForest(a.t.jobs, a'.t.jobs);
    } else {
      assert list[1..][0] == list[1] && list[1] < list[0];
      assert Offered(a.t, list[1]);
      WeighUnaffected(a, env, list[0], list[1]);
    }
  }

  lemma RestOfView(a: State, b: State, env: Env, list: seq<nat>)
    requires SameView(a, b, env, list) && list != []
    ensures SameView(a, b, env, list[1..])
  {
    forall x | 0 <= x < |list[1..]| ensures Offered(a.t, list[1..][x]) && Offered(b.t, list[1..][x]) {
      assert list[1..][x] == list[x + 1];
      assert Offered(a.t, list[x + 1]) && Offered(b.t, list[x + 1]);
    }
  }

  lemma {:induction false} FindingPickAgrees(a: State, b: State, env: Env, kind: JobKind, f: nat, list: seq<nat>)
    requires SameView(a, b, env, list) && IsFindingKind(kind) && S.InTier(a.t, kind, f) && S.InTier(b.t, kind, f)
    requires FindingClear(b.t, env, kind, f, list)
    ensures FindingPick(a, env, kind, f, list, Mode.Run).1 == FindingPick(b, env, kind, f, list, Preview).1
    ensures FindingPick(a, env, kind, f, list, Mode.Run).1.Some?
    ensures FindingPick(a, env, kind, f, list, Mode.Run).0.repos == a.repos
    ensures FindingPick(a, env, kind, f, list, Mode.Run).0.t.findings == a.t.findings
    decreases |list|
  {
    if list != [] {
      if !Matches(b.t, kind, f, list[0]) {
        RestOfView(a, b, env, list);
        FindingPickAgrees(a, b, env, kind, f, list[1..]);
      } else if Weigh(b.t, env, list[0]).Gone? {
        DiscardKeepsView(a, b, env, list);
        FindingPickAgrees(Retire(a, env, list[0]), b, env, kind, f, list[1..]);
      }
    }
  }

  lemma {:induction false} PickResumeAgrees(a: State, b: State, env: Env, list: seq<nat>)
    requires SameView(a, b, env, list) && ResumeClear(b.t, env, list)
    ensures PickResume(a, env, list, Mode.Run).1 == PickResume(b, env, list, Preview).1
    ensures PickResume(a, env, list, Mode.Run).0.repos == a.repos
    ensures PickResume(a, env, list, Mode.Run).0.t.findings == a.t.findings
    decreases |list|
  {
    if list != [] {
      if !Forced(env.force, b.t.jobs[list[0]].repo) {
        RestOfView(a, b, env, list);
        PickResumeAgrees(a, b, env, list[1..]);
      } else if Weigh(b.t, env, list[0]).Gone? {
        DiscardKeepsView(a, b, env, list);
        PickResumeAgrees(Retire(a, env, list[0]), b, env, list[1..]);
      }
    }
  }

  /** The preview writes nothing, and names what the scheduler will pick
      whenever no chain it reaches is past its ceiling; the scheduler's own
      selection then moves no finding and no rotation timestamp either. */
  lemma PreviewAgrees(w: World, s: State, env: Env)
    requires Reachable(w) && s.t == w.t
    ensures Selected(s, env, Preview).0 == s
    ensures Clear(s.t, env) ==>
      && Selected(s, env, Mode.Run).1 == Selected(s, env, Preview).1
      && Selected(s, env, Mode.Run).0.t.findings == s.t.findings
      && Selected(s, env, Mode.Run).0.repos == s.repos
  {
    ReachableOk(w);
    ResumableOffered(s.t);
    assert SameView(s, s, env, Resumable(s.t));
    if Clear(s.t, env) {
      var item := FirstItem(s.t, env);
      if item.Some? {
        FindingPickAgrees(s, s, env, item.value.0, item.value.1, Resumable(s.t));
      } else {
        PickResumeAgrees(s, s, env, Resumable(s.t));
      }
    }
  }
}
