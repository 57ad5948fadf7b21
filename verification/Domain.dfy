/** The tables the job and finding state machine is built on
    (hunter-rs/src/domain.rs) and the rows of the job table. */
module Domain {

  datatype Option<+T> = None | Some(value: T)

  datatype JobKind =
    | Hunt | TestGap | DepUpdate | Refactor | Modernization | Standards
    | Fix | Engage | Harvest | Recheck

  predicate IsFindingKind(k: JobKind) {
    k.Fix? || k.Engage? || k.Harvest? || k.Recheck?
  }

  datatype JobState = Running | Done | Failed | Killed | Suspended | Denied

  datatype KilledReason =
    | Cap | Wallclock | Unmetered | ResumeUnavailable
    | Orphaned | GiveUp | WorkdirGone | Superseding | FindingMoved

  /** A row of `jobs`. A row's id is its index in the table. `session` says
      whether `session_file` is set, `pinned` holds the commit of the chain's
      tree once there is one, `blocker` the report a fix chain is held on. */
  datatype Job = Job(
    kind: JobKind,
    repo: nat,
    finding: Option<nat>,
    state: JobState,
    resumedFrom: Option<nat>,
    reason: Option<KilledReason>,
    tokens: Option<int>,
    session: bool,
    pinned: Option<nat>,
    blocker: Option<string>)

  datatype FindingStatus =
    | New | Rechecking | Queued | Fixing | Blocked | PrOpen | Merged
    | Closed | Superseded | Rejected | Wontfix | Note

  predicate IsVerdict(s: FindingStatus) {
    s.Queued? || s.Rejected? || s.Wontfix? || s.Note?
  }

  predicate AwaitsVerdict(s: FindingStatus) {
    s.New? || s.Blocked? || s.Note? || s.Closed?
  }

  predicate ReasonRequired(s: FindingStatus) {
    s.Rejected? || s.Wontfix?
  }

  predicate IsSuppressed(s: FindingStatus) {
    s.Rejected? || s.Wontfix?
  }

  datatype ClosureClass = SupersededBy | Duplicate | Obsolete | Wrong | Unwanted | Abandoned

  function ClosureStatus(c: ClosureClass): FindingStatus {
    match c
    case SupersededBy | Duplicate | Obsolete => Superseded
    case Wrong => Rejected
    case Unwanted => Wontfix
    case Abandoned => New
  }

  /** The status at which a suspended job of finding kind `k` is work the
      scheduler may continue (`list_resumable_jobs`). */
  predicate Actionable(k: JobKind, s: FindingStatus) {
    match k
    case Fix => s.Queued?
    case Recheck => s.Rechecking?
    case Engage => s.PrOpen?
    case Harvest => s.Merged? || s.Closed?
    case _ => false
  }

  /** The statuses `retire_stranded_suspensions` leaves alone: the same
      table, and a fix that is held or claimed. */
  predicate KeptBySweep(k: JobKind, s: FindingStatus) {
    match k
    case Fix => s.Queued? || s.Blocked? || s.Fixing?
    case Recheck => s.Rechecking?
    case Engage => s.PrOpen?
    case Harvest => s.Merged? || s.Closed?
    case _ => false
  }
}
