/** What a cycle works on next (hunter-rs/src/scheduler.rs): `select` with the
    writes it makes on the way, as a function of the tables and of everything
    it reads besides them. */
module Selection {
  import opened Domain
  import opened Chains
  import opened Streaks
  import opened Tables
  import S = SelectSteps
  import R = Rotation

  datatype Mode = Run | Preview

  /** What selection reads and does not write. `typical` is the per-kind cost
      estimate, the two keys are the times the PR tiers are ordered by, with
      `None` before any time. */
  datatype Env = Env(
    trees: set<nat>,
    typical: (nat, JobKind) -> int,
    overridden: set<nat>,
    attentionKey: nat -> Option<int>,
    syncedAt: nat -> Option<int>,
    force: Option<nat>,
    intervals: R.Intervals,
    now: int)

  /** What selection writes: the tables and the rotation timestamps. */
  datatype State = State(t: Tables, repos: seq<R.Repo>)

  datatype Candidate =
    | Fresh(kind: JobKind, finding: nat)
    | Resume(job: nat)
    | Scan(repo: nat, kind: JobKind)

  // ------------------------------------------------------------------
  // Tiers
  // ------------------------------------------------------------------

  predicate IsMax(ids: set<nat>, m: nat) {
    m in ids && forall x: nat | x in ids :: x <= m
  }

  lemma {:induction false} HasMax(ids: set<nat>)
    requires ids != {}
    ensures exists m: nat :: IsMax(ids, m)
  {
    var a :| a in ids;
    var rest := ids - {a};
    assert forall x | x in ids :: x == a || x in rest;
    if rest == {} {
      assert IsMax(ids, a);
    } else {
      HasMax(rest);
      var m: nat :| IsMax(rest, m);
      assert IsMax(ids, if a > m then a else m);
    }
  }

  function Bound(ids: set<nat>): (n: nat)
    ensures forall x | x in ids :: x < n
  {
    if ids == {} then 0
    else
      HasMax(ids);
      var m: nat :| IsMax(ids, m);
      m + 1
  }

  predicate Forced(force: Option<nat>, repo: nat) {
    force.Some? ==> repo == force.value
  }

  /** A tier's findings below `n`, newest id first, as `list_findings` has
      them. */
  function ItemsBelow(t: Tables, kind: JobKind, force: Option<nat>, n: nat): (items: seq<nat>)
    ensures forall f: nat :: f in items <==> f < n && S.InTier(t, kind, f) && Forced(force, t.findings[f].repo)
  {
    if n == 0 then []
    else if S.InTier(t, kind, n - 1) && Forced(force, t.findings[n - 1].repo)
      then [n - 1] + ItemsBelow(t, kind, force, n - 1)
    else ItemsBelow(t, kind, force, n - 1)
  }

  function Items(t: Tables, kind: JobKind, force: Option<nat>): (items: seq<nat>)
    ensures forall f: nat :: f in items <==> S.InTier(t, kind, f) && Forced(force, t.findings[f].repo)
  {
    ItemsBelow(t, kind, force, Bound(t.findings.Keys))
  }

  predicate Earlier(a: Option<int>, b: Option<int>) {
    b.Some? && (a.None? || a.value < b.value)
  }

  /** The head of a stable sort by `key`. */
  function Oldest(items: seq<nat>, key: nat -> Option<int>): (f: nat)
    requires items != []
    ensures f in items && forall g | g in items :: !Earlier(key(g), key(f))
  {
    if |items| == 1 then items[0]
    else
      var rest := items[..|items| - 1];
      var best := Oldest(rest, key);
      assert items == rest + [items[|items| - 1]];
      if Earlier(key(items[|items| - 1]), key(best)) then items[|items| - 1] else best
  }

  function Overridden(items: seq<nat>, overridden: set<nat>): (out: seq<nat>)
    ensures forall f :: f in out <==> f in items && f in overridden
  {
    if items == [] then []
    else if items[0] in overridden then [items[0]] + Overridden(items[1..], overridden)
    else Overridden(items[1..], overridden)
  }

  /** The finding one tier would take: `ahead` picks among the overridden
      ones, where the unordered tiers take the newest id, else their
      oldest. */
  function TierPick(t: Tables, env: Env, kind: JobKind, ahead: bool): (f: Option<nat>)
    ensures f.Some? ==> S.InTier(t, kind, f.value) && Forced(env.force, t.findings[f.value].repo)
    ensures f.Some? && ahead ==> f.value in env.overridden
    ensures f.None? ==> forall g: nat | S.InTier(t, kind, g) && Forced(env.force, t.findings[g].repo) ::
      ahead && g !in env.overridden
  {
    var all := Items(t, kind, env.force);
    var items := if ahead then Overridden(all, env.overridden) else all;
    if items == [] then None
    else if kind.Engage? then Some(Oldest(items, env.attentionKey))
    else if kind.Harvest? then Some(Oldest(items, env.syncedAt))
    else Some(if ahead then items[0] else items[|items| - 1])
  }

  const TIERS: seq<JobKind> := [Engage, Harvest, Recheck, Fix]

  function FirstIn(t: Tables, env: Env, ahead: bool, n: nat): (p: Option<(JobKind, nat)>)
    requires n <= |TIERS|
    ensures p.Some? ==> IsFindingKind(p.value.0) && S.InTier(t, p.value.0, p.value.1)
    ensures p.Some? && ahead ==> p.value.1 in env.overridden
    ensures p.None? ==> forall i | n <= i < |TIERS| :: TierPick(t, env, TIERS[i], ahead).None?
    decreases |TIERS| - n
  {
    if n == |TIERS| then None
    else
      var f := TierPick(t, env, TIERS[n], ahead);
      if f.Some? then Some((TIERS[n], f.value)) else FirstIn(t, env, ahead, n + 1)
  }

  /** The finding work selection turns to first. */
  function FirstItem(t: Tables, env: Env): (p: Option<(JobKind, nat)>)
    ensures p.Some? ==> IsFindingKind(p.value.0) && S.InTier(t, p.value.0, p.value.1)
  {
    var ahead := FirstIn(t, env, true, 0);
    if ahead.Some? then ahead else FirstIn(t, env, false, 0)
  }

  // ------------------------------------------------------------------
  // Resuming
  // ------------------------------------------------------------------

  /** The rows of `list_resumable_jobs` below `n`, newest first. */
  function ResumableBelow(t: Tables, n: nat): (list: seq<nat>)
    requires n <= |t.jobs|
    ensures forall a | 0 <= a < |list| :: list[a] < n && Offered(t, list[a])
    ensures forall a, b | 0 <= a < b < |list| :: list[a] > list[b]
    ensures forall j: nat | j < n && Offered(t, j) :: j in list
  {
    if n == 0 then []
    else if Offered(t, n - 1) then [n - 1] + ResumableBelow(t, n - 1)
    else ResumableBelow(t, n - 1)
  }

  datatype Judgement = Gone | Past | Go

  /** What `resume_plan` finds about one suspension. */
  function Weigh(t: Tables, env: Env, j: nat): Judgement
    requires j < |t.jobs|
  {
    if t.jobs[j].pinned.None? || ResumeOrigin(t.jobs, j) !in env.trees then Gone
    else
      var z := env.typical(t.jobs[j].repo, t.jobs[j].kind);
      if PastCeiling(t.jobs, j, z) && !OperatorRequeued(t.jobs[j]) then Past else Go
  }

  /** What it writes about it. */
  function Retire(s: State, env: Env, j: nat): (s': State)
    requires j < |s.t.jobs|
    ensures |s'.t.jobs| == |s.t.jobs| && s'.t.findings == s.t.findings && |s'.repos| == |s.repos|
  {
    match Weigh(s.t, env, j)
    case Go => s
    case Gone => s.(t := SetJob(s.t, j, Retired(s.t.jobs[j], Killed, Some(WorkdirGone))))
    case Past =>
      var r, k := s.t.jobs[j].repo, s.t.jobs[j].kind;
      State(S.GivenUp(s.t, j), if !IsFindingKind(k) && r < |s.repos| then R.Bumped(s.repos, r, k, env.now) else s.repos)
  }

  const WHY := "the chain gave up"

  /** `count_given_up_chain`'s answer: whether this count ended the work. */
  predicate CountEnds(t: Tables, kind: JobKind, f: nat)
    requires S.InTier(t, kind, f)
  {
    match kind
    case Fix => Fail(t.findings[f].fix, S.CHAIN_GAVE_UP).count >= MAX_SAME_FAILURE
    case Recheck => Fail(t.findings[f].recheck, S.CHAIN_GAVE_UP).count >= MAX_SAME_FAILURE
    case Harvest => Fail(t.findings[f].pr.value.harvest, S.CHAIN_GAVE_UP).count >= MAX_SAME_FAILURE
    case _ => true
  }

  /** The answer is what the tables then say. */
  lemma CountEndsLeavesTier(t: Tables, kind: JobKind, f: nat, j: nat, why: string)
    requires j < |t.jobs| && S.InTier(t, kind, f)
    ensures CountEnds(t, kind, f) <==> !S.InTier(S.CountGivenUp(t, kind, f, j, why), kind, f)
    ensures !CountEnds(t, kind, f) ==> S.CountGivenUp(t, kind, f, j, why).jobs == t.jobs
    ensures |S.CountGivenUp(t, kind, f, j, why).jobs| == |t.jobs|
  {}

  // ------------------------------------------------------------------
  // Termination
  // ------------------------------------------------------------------

  function TierSet(t: Tables, kind: JobKind): set<nat> {
    set f | f in t.findings && S.InTier(t, kind, f)
  }

  function TierTotal(t: Tables): nat {
    |TierSet(t, Engage)| + |TierSet(t, Harvest)| + |TierSet(t, Recheck)| + |TierSet(t, Fix)|
  }

  lemma SubsetSize(a: set<nat>, b: set<nat>)
    requires a <= b
    ensures |a| <= |b| && (a != b ==> |a| < |b|)
  {
    assert b == a + (b - a);
    if a != b { assert b - a != {}; }
  }

  lemma CountKeepsOtherTiers(t: Tables, kind: JobKind, f: nat, j: nat, why: string, k: JobKind)
    requires j < |t.jobs| && S.InTier(t, kind, f)
    ensures TierSet(S.CountGivenUp(t, kind, f, j, why), k) <= TierSet(t, k)
  {
    var t' := S.CountGivenUp(t, kind, f, j, why);
    forall g | g in TierSet(t', k) ensures g in TierSet(t, k) {
      if g != f { assert t'.findings[g] == t.findings[g]; }
    }
  }

  /** A count that ends the work shrinks a tier and grows none. */
  lemma CountShrinksTiers(t: Tables, kind: JobKind, f: nat, j: nat, why: string)
    requires j < |t.jobs| && S.InTier(t, kind, f)
    ensures TierTotal(S.CountGivenUp(t, kind, f, j, why)) <= TierTotal(t)
    ensures CountEnds(t, kind, f) ==> TierTotal(S.CountGivenUp(t, kind, f, j, why)) < TierTotal(t)
  {
    var t' := S.CountGivenUp(t, kind, f, j, why);
    forall k ensures TierSet(t', k) <= TierSet(t, k) { CountKeepsOtherTiers(t, kind, f, j, why, k); }
    SubsetSize(TierSet(t', Engage), TierSet(t, Engage));
    SubsetSize(TierSet(t', Harvest), TierSet(t, Harvest));
    SubsetSize(TierSet(t', Recheck), TierSet(t, Recheck));
    SubsetSize(TierSet(t', Fix), TierSet(t, Fix));
    CountEndsLeavesTier(t, kind, f, j, why);
    if CountEnds(t, kind, f) {
      assert f in TierSet(t, kind) && f !in TierSet(t', kind);
    }
  }

  lemma RetireKeepsTiers(s: State, env: Env, j: nat)
    requires j < |s.t.jobs|
    ensures TierTotal(Retire(s, env, j).t) == TierTotal(s.t)
    ensures forall k, f :: S.InTier(Retire(s, env, j).t, k, f) <==> S.InTier(s.t, k, f)
  {
    forall k ensures TierSet(Retire(s, env, j).t, k) == TierSet(s.t, k) {}
  }

  // ------------------------------------------------------------------
  // select
  // ------------------------------------------------------------------

  predicate Rows(t: Tables, list: seq<nat>) {
    forall a | 0 <= a < |list| :: list[a] < |t.jobs|
  }

  predicate Matches(t: Tables, kind: JobKind, f: nat, j: nat)
    requires j < |t.jobs|
  {
    t.jobs[j].finding == Some(f) && t.jobs[j].kind == kind
  }

  /** `finding_pick` over what is left of the list it read. */
  function FindingPick(s: State, env: Env, kind: JobKind, f: nat, list: seq<nat>, mode: Mode)
      : (out: (State, Option<Candidate>))
    requires IsFindingKind(kind) && S.InTier(s.t, kind, f) && Rows(s.t, list)
    ensures |out.0.t.jobs| == |s.t.jobs|
    ensures out.1.None? ==> mode.Run? && TierTotal(out.0.t) < TierTotal(s.t)
    ensures mode.Preview? ==> out.0 == s
    decreases |list|
  {
    if list == [] then (s, Some(Fresh(kind, f)))
    else
      var j, rest := list[0], list[1..];
      if !Matches(s.t, kind, f, j) then FindingPick(s, env, kind, f, rest, mode)
      else
        match Weigh(s.t, env, j)
        case Go => (s, Some(Resume(j)))
        case Gone =>
          RetireKeepsTiers(s, env, j);
          FindingPick(if mode.Run? then Retire(s, env, j) else s, env, kind, f, rest, mode)
        case Past =>
          if mode.Preview? then FindingPick(s, env, kind, f, rest, mode)
          else
            RetireKeepsTiers(s, env, j);
            var s1 := Retire(s, env, j);
            CountShrinksTiers(s1.t, kind, f, j, WHY);
            CountEndsLeavesTier(s1.t, kind, f, j, WHY);
            var s2 := s1.(t := S.CountGivenUp(s1.t, kind, f, j, WHY));
            if CountEnds(s1.t, kind, f) then (s2, None) else FindingPick(s2, env, kind, f, rest, mode)
  }

  /** `pick_resume` over what is left of the list it read. */
  function PickResume(s: State, env: Env, list: seq<nat>, mode: Mode): (out: (State, Option<nat>))
    requires Rows(s.t, list)
    ensures |out.0.t.jobs| == |s.t.jobs|
    ensures mode.Preview? ==> out.0 == s
    decreases |list|
  {
    if list == [] then (s, None)
    else
      var j := list[0];
      if !Forced(env.force, s.t.jobs[j].repo) then PickResume(s, env, list[1..], mode)
      else if Weigh(s.t, env, j).Go? then (s, Some(j))
      else PickResume(if mode.Run? then Retire(s, env, j) else s, env, list[1..], mode)
  }

  function Resumable(t: Tables): (list: seq<nat>)
    ensures Rows(t, list)
  {
    ResumableBelow(t, |t.jobs|)
  }

  /** `select`: each recursive call follows a give-up that took a finding out
      of its tier. */
  function Selected(s: State, env: Env, mode: Mode): (out: (State, Option<Candidate>))
    ensures mode.Preview? ==> out.0 == s
    decreases TierTotal(s.t)
  {
    var item := FirstItem(s.t, env);
    if item.Some? then
      var (s1, c) := FindingPick(s, env, item.value.0, item.value.1, Resumable(s.t), mode);
      if c.Some? then (s1, c) else Selected(s1, env, mode)
    else
      var (s1, j) := PickResume(s, env, Resumable(s.t), mode);
      if j.Some? then (s1, Some(Resume(j.value)))
      else
        var scan := R.PickScan(env.intervals, s1.repos, env.force, env.now);
        (s1, if scan.Some? then Some(Scan(scan.value.0, scan.value.1)) else None)
  }
}
