/** The whole state: the tables, the trees on disk, and where the single
    scheduler is; with the invariant every step keeps. */
module World {
  import opened Domain
  import opened Chains
  import opened Streaks
  import opened Tables

  /** What the scheduler process is doing. `Between` is between two cycles,
      `Sweeping(true)` the sweep at startup and `Sweeping(false)` the one
      before a cycle. From `Picked` on, an executor is at work; `claimed`
      says that a fix has made its finding `fixing`, `handoff` that the job
      is a harvest continuing a withdrawing engage. */
  datatype Phase =
    | Down
    | Between
    | Sweeping(startup: bool)
    | Reconciled
    | Ready
    | Picked(kind: JobKind, repo: nat, finding: Option<nat>, resume: Option<nat>, claimed: bool)
    | Opening(job: nat)
    | Unmade(job: nat)
    | Working(job: nat, handoff: bool)
    | Recorded(job: nat, handoff: bool)
    | Withdrawn(job: nat)
    | Concluded(job: nat)
    | Closing(job: nat)

  /** `trees` holds the origin ids whose tree is on disk; `lost` those that
      something outside the daemon removed. */
  datatype World = World(t: Tables, trees: set<nat>, lost: set<nat>, phase: Phase)

  /** The job the scheduler is at. */
  function JobOf(p: Phase): Option<nat> {
    match p
    case Opening(c) => Some(c)
    case Unmade(c) => Some(c)
    case Working(c, _) => Some(c)
    case Recorded(c, _) => Some(c)
    case Withdrawn(c) => Some(c)
    case Concluded(c) => Some(c)
    case Closing(c) => Some(c)
    case _ => None
  }

  /** No executor is at work. */
  predicate Idle(p: Phase) {
    p.Down? || p.Between? || p.Sweeping? || p.Reconciled? || p.Ready?
  }

  const START := World(Tables([], map[], {}), {}, {}, Down)

  // ------------------------------------------------------------------
  // Rows and links
  // ------------------------------------------------------------------

  /** What holds of a row and the row it continues. */
  ghost predicate LinkOk(js: seq<Job>, p: nat, j: nat)
    requires p < |js| && j < |js|
  {
    && js[p].repo == js[j].repo && js[p].finding == js[j].finding && js[p].pinned == js[j].pinned
    && (js[p].kind == js[j].kind || (js[p].kind.Engage? && js[j].kind.Harvest?))
    && !js[p].state.Running?
    && (js[p].kind != js[j].kind ==> !js[p].state.Suspended?)
    && (js[p].kind == js[j].kind ==>
          && (js[p].state.Suspended? || js[p].state.Killed?)
          && (js[p].blocker.Some? ==> js[j].blocker.Some?)
          && (js[p].blocker.None? ==> Counted(js[p])))
  }

  ghost predicate RowOk(t: Tables, j: nat)
    requires j < |t.jobs|
  {
    var r := t.jobs[j];
    && (r.finding.Some? <==> IsFindingKind(r.kind))
    && (r.finding.Some? ==> r.finding.value in t.findings && t.findings[r.finding.value].repo == r.repo)
    && r.repo !in t.deleted
    && (r.blocker.Some? ==> r.kind.Fix?)
    && (r.state.Suspended? && r.blocker.None? ==> Counted(r))
    && (r.resumedFrom.Some? ==> r.resumedFrom.value < j && LinkOk(t.jobs, r.resumedFrom.value, j))
  }

  ghost predicate RowsOk(t: Tables) {
    forall j | 0 <= j < |t.jobs| :: RowOk(t, j)
  }

  /** The links before the first hold: at most `MAX_RESUME_ATTEMPTS`. */
  ghost predicate WithinCeiling(js: seq<Job>) {
    forall j | 0 <= j < |js| && js[j].blocker.None? :: Pos(js, j) < MAX_RESUME_ATTEMPTS
  }

  /** No other live attempt at `j`'s work. */
  ghost predicate Alone(js: seq<Job>, j: nat)
    requires j < |js|
  {
    forall i | 0 <= i < |js| && i != j && Live(js, i) :: !SameWork(js[i], js[j].kind, js[j].repo, js[j].finding)
  }

  ghost predicate SingleLive(js: seq<Job>) {
    forall j | 0 <= j < |js| && Live(js, j) :: Alone(js, j)
  }

  ghost predicate SingleRunning(js: seq<Job>) {
    forall i, j | 0 <= i < j < |js| && js[i].state.Running? :: !js[j].state.Running?
  }

  ghost predicate JobsOk(t: Tables) {
    && RowsOk(t)
    && Unbranched(t.jobs)
    && WithinCeiling(t.jobs)
    && SingleLive(t.jobs)
    && SingleRunning(t.jobs)
  }

  // ------------------------------------------------------------------
  // Findings
  // ------------------------------------------------------------------

  ghost predicate StreakOk(s: Streak) {
    Faithful(s) && s.count < MAX_SAME_FAILURE
  }

  ghost predicate FindingOk(t: Tables, f: Finding) {
    && f.repo !in t.deleted
    && StreakOk(f.fix) && StreakOk(f.recheck)
    && (f.pr.Some? ==> StreakOk(f.pr.value.harvest))
    && (f.anchor.Some? ==> f.status.Rejected? && f.judge.Worker?)
  }

  ghost predicate FindingsOk(t: Tables) {
    forall f | f in t.findings :: FindingOk(t, t.findings[f])
  }

  /** A held fix checkpoint of finding `f`. */
  ghost predicate Checkpoint(t: Tables, f: nat, j: nat) {
    && j < |t.jobs| && t.jobs[j].kind.Fix? && t.jobs[j].finding == Some(f)
    && LooseEnd(t.jobs, j) && t.jobs[j].blocker.Some?
  }

  ghost predicate HasCheckpoint(t: Tables, f: nat) {
    exists j: nat :: Checkpoint(t, f, j)
  }

  ghost predicate HoldsOk(t: Tables) {
    forall f | f in t.findings && t.findings[f].status.Blocked? :: HasCheckpoint(t, f)
  }

  // ------------------------------------------------------------------
  // The scheduler's place
  // ------------------------------------------------------------------

  ghost predicate NoLiveHarvest(t: Tables, f: nat) {
    forall j | 0 <= j < |t.jobs| && Live(t.jobs, j) :: !(t.jobs[j].kind.Harvest? && t.jobs[j].finding == Some(f))
  }

  /** The finding's status while an attempt of kind `k` is at it. */
  ghost predicate StatusFits(t: Tables, k: JobKind, finding: Option<nat>) {
    finding.Some? && finding.value in t.findings ==>
      && (k.Recheck? ==> t.findings[finding.value].status.Rechecking?)
      && (k.Engage? ==> t.findings[finding.value].status.PrOpen? && NoLiveHarvest(t, finding.value))
  }

  /** The finding a fix attempt has claimed. */
  function FixOwner(w: World): Option<nat> {
    match w.phase
    case Picked(_, _, f, _, claimed) => if claimed then f else None
    case Opening(c) => OwnerOf(w.t, c)
    case Unmade(c) => OwnerOf(w.t, c)
    case Working(c, _) => OwnerOf(w.t, c)
    case Recorded(c, _) => OwnerOf(w.t, c)
    case _ => None
  }

  function OwnerOf(t: Tables, c: nat): Option<nat> {
    if c < |t.jobs| && t.jobs[c].kind.Fix? then t.jobs[c].finding else None
  }

  /** Phases in which a died process may have left rows behind. */
  predicate Unreconciled(p: Phase) {
    p.Down? || p.Between? || (p.Sweeping? && p.startup)
  }

  ghost predicate RunningOk(w: World) {
    forall j | 0 <= j < |w.t.jobs| && w.t.jobs[j].state.Running? ::
      Unreconciled(w.phase) || ((w.phase.Opening? || w.phase.Working?) && w.phase.job == j)
  }

  /** A finding is `fixing` exactly while a fix owns it, but for what a died
      process left. */
  ghost predicate FixingOk(w: World) {
    && (forall f | f in w.t.findings && w.t.findings[f].status.Fixing? ::
          Unreconciled(w.phase) || FixOwner(w) == Some(f))
    && (FixOwner(w).Some? ==> FixOwner(w).value in w.t.findings && w.t.findings[FixOwner(w).value].status.Fixing?)
  }

  ghost predicate ResumeOk(t: Tables, p: nat, kind: JobKind, repo: nat, finding: Option<nat>) {
    && p < |t.jobs| && LooseEnd(t.jobs, p)
    && t.jobs[p].kind == kind && t.jobs[p].repo == repo && t.jobs[p].finding == finding
    && (t.jobs[p].blocker.None? ==> Pos(t.jobs, p) + 1 < MAX_RESUME_ATTEMPTS)
  }

  ghost predicate NotHeldOn(t: Tables, finding: Option<nat>) {
    finding.Some? && finding.value in t.findings ==> !t.findings[finding.value].status.Blocked?
  }

  ghost predicate CurrentOk(t: Tables, c: nat) {
    && c < |t.jobs| && !HasSuccessor(t.jobs, c)
    && StatusFits(t, t.jobs[c].kind, t.jobs[c].finding)
  }

  ghost predicate PlaceOk(w: World) {
    match w.phase
    case Down | Between | Reconciled => true
    case Sweeping(startup) =>
      !startup ==> forall f | f in w.t.findings && w.t.findings[f].status.PrOpen? :: NoLiveHarvest(w.t, f)
    case Ready =>
      forall f | f in w.t.findings && w.t.findings[f].status.PrOpen? :: NoLiveHarvest(w.t, f)
    case Picked(kind, repo, finding, resume, claimed) =>
      && (finding.Some? <==> IsFindingKind(kind))
      && (finding.Some? ==> finding.value in w.t.findings && w.t.findings[finding.value].repo == repo)
      && (claimed ==> kind.Fix?)
      && StatusFits(w.t, kind, finding)
      && (resume.Some? ==> ResumeOk(w.t, resume.value, kind, repo, finding))
    case Opening(c) =>
      CurrentOk(w.t, c) && w.t.jobs[c].state.Running? && w.t.jobs[c].resumedFrom.None? && w.t.jobs[c].pinned.None?
    case Unmade(c) =>
      && CurrentOk(w.t, c) && w.t.jobs[c].state.Failed? && w.t.jobs[c].pinned.None? && Alone(w.t.jobs, c)
      && (w.t.jobs[c].kind.Fix? || w.t.jobs[c].kind.Recheck?)
    case Working(c, handoff) => CurrentOk(w.t, c) && w.t.jobs[c].state.Running?
      && (handoff ==> w.t.jobs[c].kind.Harvest?)
    case Recorded(c, handoff) => CurrentOk(w.t, c) && !w.t.jobs[c].state.Running? && Alone(w.t.jobs, c)
    case Withdrawn(c) =>
      && c < |w.t.jobs| && !HasSuccessor(w.t.jobs, c)
      && w.t.jobs[c].kind.Engage? && !w.t.jobs[c].state.Running?
      && w.t.jobs[c].finding.Some? && NoLiveHarvest(w.t, w.t.jobs[c].finding.value)
    case Concluded(c) =>
      c < |w.t.jobs| && !HasSuccessor(w.t.jobs, c) && !w.t.jobs[c].state.Running? && NotHeldOn(w.t, OwnerOf(w.t, c))
    case Closing(c) => c < |w.t.jobs|
  }

  // ------------------------------------------------------------------
  // Trees
  // ------------------------------------------------------------------

  /** The tree of `j`'s chain is where the chain left it. */
  ghost predicate TreeKept(js: seq<Job>, kept: set<nat>, j: nat)
    requires Descending(js) && j < |js|
  {
    js[j].pinned.Some? && Depth(js, j) <= MAX_DEPTH ==> Origin(js, j) in kept
  }

  /** The ended attempt whose tree is still wanted: a fix that may be turned
      into a checkpoint, an engage that may continue into a harvest. */
  function Wanted(w: World): Option<nat> {
    match w.phase
    case Recorded(c, _) =>
      if c < |w.t.jobs| && (w.t.jobs[c].kind.Fix? || w.t.jobs[c].kind.Engage?) then Some(c) else None
    case Withdrawn(c) => Some(c)
    case _ => None
  }

  ghost predicate TreesKept(js: seq<Job>, kept: set<nat>, wanted: Option<nat>)
    requires Descending(js)
  {
    && (forall o | o in kept :: o < |js| && js[o].resumedFrom.None?)
    && (forall j: nat | j < |js| && Live(js, j) :: TreeKept(js, kept, j))
    && (wanted.Some? && wanted.value < |js| ==> TreeKept(js, kept, wanted.value))
  }

  ghost predicate TreesOk(w: World)
    requires Descending(w.t.jobs)
  {
    TreesKept(w.t.jobs, w.trees + w.lost, Wanted(w))
  }

  // ------------------------------------------------------------------
  // The invariant
  // ------------------------------------------------------------------

  ghost predicate TablesOk(t: Tables) {
    JobsOk(t) && Forest(t.jobs) && FindingsOk(t) && HoldsOk(t)
  }

  ghost predicate Inv(w: World) {
    && TablesOk(w.t)
    && RunningOk(w)
    && FixingOk(w)
    && PlaceOk(w)
    && TreesOk(w)
  }

  lemma StartOk()
    ensures Inv(START)
  {}

  // ------------------------------------------------------------------
  // What changes to the job table keep
  // ------------------------------------------------------------------

  /** The same rows but for what links and identity do not read. */
  ghost predicate SameLinks(a: seq<Job>, b: seq<Job>) {
    && |a| <= |b|
    && forall j | 0 <= j < |a| :: a[j].kind == b[j].kind && a[j].resumedFrom == b[j].resumedFrom
  }

  lemma {:induction false} SameLinksSameShape(a: seq<Job>, b: seq<Job>, j: nat)
    requires SameLinks(a, b) && Descending(a) && Descending(b) && j < |a|
    ensures Pos(a, j) == Pos(b, j) && Depth(a, j) == Depth(b, j) && Origin(a, j) == Origin(b, j)
    decreases j
  {
    if a[j].resumedFrom.Some? {
      SameLinksSameShape(a, b, a[j].resumedFrom.value);
    }
  }
}
