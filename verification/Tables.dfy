/** The tables the scheduler, the operator and the sweep share, and each
    transaction on them as a function from tables to tables
    (hunter-rs/src/store.rs). `Store.dfy` has the methods that perform them. */
module Tables {
  import opened Domain
  import opened Chains
  import opened Streaks
  import opened Suppression

  // ------------------------------------------------------------------
  // Rows
  // ------------------------------------------------------------------

  datatype PrEnd = Open | MergedPr | ClosedPr

  /** A row of `pr_state`. */
  datatype PrRow = PrRow(number: Option<nat>, end: PrEnd, attention: bool, harvested: bool, harvest: Streak)

  datatype Judge = Nobody | Operator | Worker | Forge | Unproposed | Replaced

  /** A row of `findings`, with its `pr_state` row and its verdict anchor.
      `judge` records who gave the last verdict; the source has no such
      column. */
  datatype Finding = Finding(
    repo: nat,
    file: Option<string>,
    status: FindingStatus,
    fix: Streak,
    recheck: Streak,
    pr: Option<PrRow>,
    anchor: Option<Anchor>,
    judge: Judge)

  datatype Tables = Tables(jobs: seq<Job>, findings: map<nat, Finding>, deleted: set<nat>)

  // ------------------------------------------------------------------
  // Jobs
  // ------------------------------------------------------------------

  /** The same piece of work: the finding for finding kinds, the repo for
      the others. */
  predicate SameWork(a: Job, kind: JobKind, repo: nat, finding: Option<nat>) {
    a.kind == kind && if IsFindingKind(kind) then a.finding == finding else a.repo == repo
  }

  predicate LooseEnd(js: seq<Job>, j: nat)
    requires j < |js|
  {
    js[j].state.Suspended? && !HasSuccessor(js, j)
  }

  /** `retire_job`: the old reason survives unless a new one is given. */
  function Retired(j: Job, state: JobState, reason: Option<KilledReason>): Job {
    j.(state := state, reason := if reason.Some? then reason else j.reason)
  }

  function RetireAll(js: seq<Job>, ids: set<nat>, reason: KilledReason): (r: seq<Job>)
    ensures |r| == |js|
    ensures forall i | 0 <= i < |js| :: r[i] == if i in ids then Retired(js[i], Killed, Some(reason)) else js[i]
  {
    seq(|js|, i requires 0 <= i < |js| => if i in ids then Retired(js[i], Killed, Some(reason)) else js[i])
  }

  /** The suspensions that fresh work at this key supersedes. */
  function SupersededIds(js: seq<Job>, kind: JobKind, repo: nat, finding: Option<nat>): set<nat> {
    set j: nat | j < |js| && LooseEnd(js, j) && SameWork(js[j], kind, repo, finding)
  }

  function FreshRow(kind: JobKind, repo: nat, finding: Option<nat>): Job {
    Job(kind, repo, finding, Running, None, None, None, false, None, None)
  }

  function ResumedRow(kind: JobKind, repo: nat, finding: Option<nat>, p: nat, pred: Job): Job {
    Job(kind, repo, finding, Running, Some(p), None, None, false, pred.pinned, pred.blocker)
  }

  /** `create_job` for a live repo. */
  function CreateJob(t: Tables, kind: JobKind, repo: nat, finding: Option<nat>, resume: Option<nat>): Tables
    requires resume.Some? ==> resume.value < |t.jobs|
  {
    if resume.Some?
    then t.(jobs := t.jobs + [ResumedRow(kind, repo, finding, resume.value, t.jobs[resume.value])])
    else t.(jobs := RetireAll(t.jobs, SupersededIds(t.jobs, kind, repo, finding), Superseding)
                    + [FreshRow(kind, repo, finding)])
  }

  function SetJob(t: Tables, j: nat, row: Job): Tables
    requires j < |t.jobs|
  {
    t.(jobs := t.jobs[j := row])
  }

  /** What `Backend::run` reported. */
  datatype RunResult = RunResult(exitedCleanly: bool, killed: Option<KilledReason>, tokens: int, session: bool)

  /** `job_state`. */
  function JobStateOf(rr: RunResult): JobState {
    if rr.killed == Some(Cap) && rr.session then Suspended
    else if rr.killed == Some(Wallclock) && rr.session && rr.tokens > 0 then Suspended
    else if rr.killed == Some(ResumeUnavailable) then Failed
    else if rr.killed.Some? then Killed
    else if rr.exitedCleanly then Done
    else if rr.session && rr.tokens > 0 then Suspended
    else Failed
  }

  /** The runs worth continuing: there is a transcript, and the budget cap
      ended the run - or, tokens having been spent, the wall clock or the
      worker's own death did. */
  predicate WorthContinuing(rr: RunResult) {
    && rr.session
    && (|| rr.killed == Some(Cap)
        || (rr.tokens > 0 && (rr.killed == Some(Wallclock) || (rr.killed.None? && !rr.exitedCleanly))))
  }

  /** `complete_job`. */
  function Completed(j: Job, rr: RunResult): Job {
    j.(state := JobStateOf(rr), tokens := Some(rr.tokens), reason := rr.killed, session := rr.session)
  }

  /** `suspend_orphan`. */
  function OrphanSuspended(j: Job, tokens: int): Job {
    j.(state := Suspended, reason := Some(Orphaned), session := true, tokens := Some(tokens))
  }

  /** `orphan_job`. */
  function OrphanKilled(j: Job): Job {
    j.(state := Killed, reason := Some(Orphaned))
  }

  // ------------------------------------------------------------------
  // Findings
  // ------------------------------------------------------------------

  function SetFinding(t: Tables, f: nat, row: Finding): Tables {
    t.(findings := t.findings[f := row])
  }

  function SetStatus(t: Tables, f: nat, s: FindingStatus): Tables
    requires f in t.findings
  {
    SetFinding(t, f, t.findings[f].(status := s))
  }

  /** `claim_in_progress`: the move happens only from `from`. */
  function Claim(t: Tables, f: nat, from: FindingStatus, to: FindingStatus): Tables
    requires f in t.findings
  {
    if t.findings[f].status == from then SetStatus(t, f, to) else t
  }

  /** `set_anchored_verdict`. */
  function Judged(f: Finding, s: FindingStatus, anchor: Option<Anchor>, judge: Judge): Finding {
    f.(status := s, anchor := anchor, judge := judge)
  }

  /** `record_declined_fix`: an unclassified decline goes back to triage. */
  function DeclineStatus(why: Option<ClosureClass>): FindingStatus {
    if why.Some? then ClosureStatus(why.value) else New
  }

  function Declined(f: Finding, why: Option<ClosureClass>, sha: nat, dependsOn: seq<string>): Finding {
    var s := DeclineStatus(why);
    Judged(f, s, VerdictAnchor(s, sha, f.file, dependsOn), Worker).(fix := Clear(f.fix))
  }

  /** `block_fix_job`: the checkpoint and its finding, together. An attempt
      without a transcript takes over its predecessor's. */
  function HeldRow(js: seq<Job>, j: nat, report: string): Job
    requires j < |js|
  {
    var p := js[j].resumedFrom;
    js[j].(state := Suspended, blocker := Some(report),
           session := js[j].session || (p.Some? && p.value < |js| && js[p.value].session))
  }

  function BlockFixJob(t: Tables, f: nat, j: nat, report: string): Tables
    requires f in t.findings && j < |t.jobs|
  {
    t.(jobs := t.jobs[j := HeldRow(t.jobs, j, report)],
       findings := t.findings[f := t.findings[f].(status := Blocked, fix := Clear(t.findings[f].fix))])
  }

  /** `record_fix_failure`: the third identical failure holds the finding
      with `j` as its checkpoint; short of that only the streak moves. */
  function RecordFixFailure(t: Tables, f: nat, j: nat, key: string, report: string): Tables
    requires f in t.findings && j < |t.jobs|
  {
    var counted := SetFinding(t, f, t.findings[f].(fix := Fail(t.findings[f].fix, key)));
    if counted.findings[f].fix.count < MAX_SAME_FAILURE then counted else BlockFixJob(counted, f, j, report)
  }

  /** `handle_recheck_failure`. */
  function RecordRecheckFailure(t: Tables, f: nat, key: string): Tables
    requires f in t.findings
  {
    var s := Fail(t.findings[f].recheck, key);
    if s.count < MAX_SAME_FAILURE then SetFinding(t, f, t.findings[f].(recheck := s))
    else SetFinding(t, f, t.findings[f].(recheck := Clear(s), status := New))
  }

  /** `record_harvest_failure`: the third identical failure gives the PR up
      as harvested. */
  function RecordHarvestFailure(t: Tables, f: nat, key: string): Tables
    requires f in t.findings && t.findings[f].pr.Some?
  {
    var row := t.findings[f].pr.value;
    var s := Fail(row.harvest, key);
    var row' := if s.count < MAX_SAME_FAILURE then row.(harvest := s) else row.(harvest := Clear(s), harvested := true);
    SetFinding(t, f, t.findings[f].(pr := Some(row')))
  }

  /** Every upsert of `pr_state`: another PR number clears the harvest
      bookkeeping; an unknown one is not another PR. */
  function UpsertPr(row: Option<PrRow>, number: nat, end: PrEnd, attention: bool): PrRow {
    if row.None? then PrRow(Some(number), end, attention, false, FRESH)
    else if row.value.number.Some? && row.value.number.value != number
    then PrRow(Some(number), end, attention, false, Clear(row.value.harvest))
    else PrRow(Some(number), end, attention, row.value.harvested, row.value.harvest)
  }

  /** `record_closed_harvest`: the stamp always lands, the classification
      only where the finding still awaits it. */
  function RecordClosedHarvest(t: Tables, f: nat, s: FindingStatus, sha: nat, dependsOn: seq<string>): Tables
    requires f in t.findings && t.findings[f].pr.Some?
  {
    var row := t.findings[f].pr.value;
    var stamped := t.findings[f].(pr := Some(row.(harvested := true, harvest := Clear(row.harvest))));
    SetFinding(t, f,
      if stamped.status.Closed?
      then Judged(stamped, s, VerdictAnchor(s, sha, stamped.file, dependsOn), Worker)
      else stamped)
  }

  /** `refresh_dep_update` on a finding that a scan had retired. */
  function Refreshed(f: Finding): Finding {
    f.(status := New, judge := Nobody)
  }

  /** `supersede_unproposed_dep_updates`, one finding. */
  function Retracted(f: Finding): Finding {
    f.(status := Superseded, judge := Unproposed)
  }

  /** `hand_over_queued_dep_updates`, one pair: the queued finding gives its
      place to the one that a scan proposes for the same move. */
  function HandOver(t: Tables, queued: nat, proposed: nat): Tables
    requires queued in t.findings && proposed in t.findings
  {
    SetFinding(SetFinding(t, queued, t.findings[queued].(status := Superseded, judge := Replaced)),
               proposed, t.findings[proposed].(status := Queued))
  }

  /** `reopen_suppressed`. */
  function Reopened(f: Finding): Finding {
    if IsSuppressed(f.status) then f.(status := New, anchor := None, judge := Nobody) else f
  }

  // ------------------------------------------------------------------
  // The resumable pool and what the sweep retires
  // ------------------------------------------------------------------

  function StatusOf(t: Tables, j: Job): Option<FindingStatus> {
    if j.finding.Some? && j.finding.value in t.findings then Some(t.findings[j.finding.value].status) else None
  }

  /** One row of `list_resumable_jobs`. */
  predicate Offered(t: Tables, j: nat) {
    && j < |t.jobs|
    && LooseEnd(t.jobs, j)
    && t.jobs[j].repo !in t.deleted
    && t.jobs[j].session
    && (IsFindingKind(t.jobs[j].kind) ==>
          StatusOf(t, t.jobs[j]).Some? && Actionable(t.jobs[j].kind, StatusOf(t, t.jobs[j]).value))
  }

  /** The rows `retire_stranded_suspensions` selects. */
  predicate Stranded(t: Tables, j: nat) {
    && j < |t.jobs|
    && LooseEnd(t.jobs, j)
    && StatusOf(t, t.jobs[j]).Some?
    && !KeptBySweep(t.jobs[j].kind, StatusOf(t, t.jobs[j]).value)
  }

  function StrandedIds(t: Tables): set<nat> {
    set j: nat | j < |t.jobs| && Stranded(t, j)
  }

  function RetireStranded(t: Tables): Tables {
    t.(jobs := RetireAll(t.jobs, StrandedIds(t), FindingMoved))
  }

  /** `MAX_RESUME_ATTEMPTS` and `GIVE_UP_MULTIPLE`. */
  const MAX_RESUME_ATTEMPTS: nat := 4
  const GIVE_UP_MULTIPLE: int := 3

  /** The give-up ceiling of `resume_plan`, for a per-kind typical cost `z`. */
  predicate PastCeiling(js: seq<Job>, j: nat, z: int) {
    var chain := Stats(js, j);
    || chain.attempts >= MAX_RESUME_ATTEMPTS
    || (z > 0 && chain.attempts >= 2 && chain.total - chain.maxSingle > GIVE_UP_MULTIPLE * z)
  }

  /** A held fix that an operator queued again is past no ceiling. */
  predicate OperatorRequeued(j: Job) {
    j.kind.Fix? && j.blocker.Some?
  }
}
