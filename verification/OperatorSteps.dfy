/** The steps the scheduler does not take: the operator's
    (hunter-rs/src/server.rs), a scan's on suppressed findings
    (hunter-rs/src/suppression.rs), and what happens to the daemon from
    outside. Any of them may come between two scheduler steps. */
module OperatorSteps {
  import opened Domain
  import opened Streaks
  import opened Tables
  import opened Suppression
  import opened World
  import opened TableChanges

  /** `Verdict`, `AskRecheck` and `Unqueue` are the requests that were
      applied: one whose finding moved after it was read is refused and
      changes nothing. */
  datatype OutsideStep =
    | Verdict(f: nat, to: FindingStatus, reasoned: bool)
    | AskRecheck(f: nat)
    | Unqueue(f: nat)
    | FileFinding(f: nat, repo: nat, file: Option<string>)
    | Reopen(f: nat, diff: Diff)
    | Reconfirm(f: nat, sha: nat)
    | RefreshDep(f: nat)
    | RetractDep(f: nat)
    | HandOverDep(queued: nat, proposed: nat)
    | DeleteRepo(repo: nat)
    | LoseTree(origin: nat)
    | Crash

  /** A dependency scan is at work, with a job or, where Renovate answers, with
      none. */
  predicate DependencyScan(w: World) {
    || (w.phase.Picked? && w.phase.kind.DepUpdate?)
    || (w.phase.Recorded? && w.phase.job < |w.t.jobs| && w.t.jobs[w.phase.job].kind.DepUpdate?)
  }

  predicate Enabled(w: World, a: OutsideStep) {
    match a
    case Verdict(f, to, reasoned) =>
      && f in w.t.findings && AwaitsVerdict(w.t.findings[f].status) && IsVerdict(to) && w.t.findings[f].status != to
      && (ReasonRequired(to) ==> reasoned)
    case AskRecheck(f) => f in w.t.findings && w.t.findings[f].status.New?
    case Unqueue(f) => f in w.t.findings && w.t.findings[f].status.Queued?
    case FileFinding(f, repo, _) => f !in w.t.findings && repo !in w.t.deleted
    case Reopen(f, diff) =>
      && f in w.t.findings && IsSuppressed(w.t.findings[f].status)
      && w.t.findings[f].anchor.Some? && Lapsed(w.t.findings[f].anchor.value, diff)
    case Reconfirm(f, _) =>
      f in w.t.findings && IsSuppressed(w.t.findings[f].status) && w.t.findings[f].anchor.Some?
    case RefreshDep(f) =>
      && DependencyScan(w) && f in w.t.findings
      && w.t.findings[f].status.Superseded? && w.t.findings[f].judge.Unproposed?
    case RetractDep(f) => DependencyScan(w) && f in w.t.findings && w.t.findings[f].status.New?
    case HandOverDep(q, p) =>
      && DependencyScan(w) && q != p && q in w.t.findings && p in w.t.findings
      && w.t.findings[q].repo == w.t.findings[p].repo && w.t.findings[q].status.Queued?
      && (w.t.findings[p].status.New? || w.t.findings[p].status.Queued?)
    case DeleteRepo(r) =>
      && (forall j | 0 <= j < |w.t.jobs| :: w.t.jobs[j].repo != r)
      && (forall f | f in w.t.findings :: w.t.findings[f].repo != r)
    case LoseTree(o) => o in w.trees
    case Crash => true
  }

  function Next(w: World, a: OutsideStep): World
    requires Enabled(w, a)
  {
    match a
    case Verdict(f, to, reasoned) =>
      // With a reason the verdict goes through `set_verdict_if`, which
      // removes any anchor; without one through `claim_in_progress`.
      var row := w.t.findings[f];
      var row' := if reasoned then Judged(row, to, None, Operator) else row.(status := to, judge := Operator);
      w.(t := SetFinding(w.t, f, row'))
    case AskRecheck(f) => w.(t := Claim(w.t, f, New, Rechecking))
    case Unqueue(f) => w.(t := Claim(w.t, f, Queued, New))
    case FileFinding(f, repo, file) =>
      w.(t := SetFinding(w.t, f, Finding(repo, file, New, FRESH, FRESH, None, None, Nobody)))
    case Reopen(f, _) => w.(t := SetFinding(w.t, f, Reopened(w.t.findings[f])))
    case Reconfirm(f, sha) =>
      var anchor := w.t.findings[f].anchor.value.(sha := sha);
      w.(t := SetFinding(w.t, f, w.t.findings[f].(anchor := Some(anchor))))
    case RefreshDep(f) => w.(t := SetFinding(w.t, f, Refreshed(w.t.findings[f])))
    case RetractDep(f) => w.(t := SetFinding(w.t, f, Retracted(w.t.findings[f])))
    case HandOverDep(q, p) => w.(t := HandOver(w.t, q, p))
    case DeleteRepo(r) => w.(t := w.t.(deleted := w.t.deleted + {r}))
    case LoseTree(o) => w.(trees := w.trees - {o}, lost := w.lost + {o})
    case Crash => w.(phase := Down)
  }

  /** A row whose status neither enters nor leaves one a job owns. */
  ghost predicate Free(w: World, f: nat, row: Finding) {
    && FindingOk(w.t, row)
    && (f in w.t.findings ==> row.repo == w.t.findings[f].repo)
    && (row.status.Blocked? ==> f in w.t.findings && w.t.findings[f].status.Blocked?)
    && !row.status.Fixing? && !row.status.PrOpen?
    && (f in w.t.findings ==>
          var s := w.t.findings[f].status; s == row.status || (!s.Fixing? && !s.PrOpen? && !s.Rechecking?))
  }

  lemma FreeFitsStatus(w: World, f: nat, row: Finding, k: JobKind, finding: Option<nat>)
    requires Free(w, f, row) && StatusFits(w.t, k, finding)
    requires finding.Some? ==> finding.value in w.t.findings
    ensures StatusFits(SetFinding(w.t, f, row), k, finding)
  {}

  lemma FreeMovePlace(w: World, f: nat, row: Finding)
    requires Inv(w) && Free(w, f, row)
    ensures PlaceOk(w.(t := SetFinding(w.t, f, row)))
  {
    if JobOf(w.phase).Some? {
      var c := JobOf(w.phase).value;
      assert RowOk(w.t, c);
      if CurrentOk(w.t, c) { FreeFitsStatus(w, f, row, w.t.jobs[c].kind, w.t.jobs[c].finding); }
    }
    if w.phase.Picked? { FreeFitsStatus(w, f, row, w.phase.kind, w.phase.finding); }
  }

  lemma FreeMove(w: World, f: nat, row: Finding)
    requires Inv(w) && Free(w, f, row)
    ensures Inv(w.(t := SetFinding(w.t, f, row)))
  {
    FindingChange(w.t, f, row);
    FreeMovePlace(w, f, row);
  }

  lemma HandOverKeeps(w: World, q: nat, p: nat)
    requires Inv(w) && Enabled(w, HandOverDep(q, p))
    ensures Inv(Next(w, HandOverDep(q, p)))
  {
    assert FindingOk(w.t, w.t.findings[q]) && FindingOk(w.t, w.t.findings[p]);
    var gone := w.t.findings[q].(status := Superseded, judge := Replaced);
    FreeMove(w, q, gone);
    var w1 := w.(t := SetFinding(w.t, q, gone));
    FreeMove(w1, p, w1.t.findings[p].(status := Queued));
  }

  /** The steps that write one finding's row. */
  predicate OneRow(a: OutsideStep) {
    a.Verdict? || a.AskRecheck? || a.Unqueue? || a.FileFinding? || a.Reopen? || a.Reconfirm?
    || a.RefreshDep? || a.RetractDep?
  }

  lemma OneRowIsFree(w: World, a: OutsideStep)
    requires Inv(w) && Enabled(w, a) && OneRow(a)
    ensures a.f in Next(w, a).t.findings && Free(w, a.f, Next(w, a).t.findings[a.f])
    ensures Next(w, a) == w.(t := SetFinding(w.t, a.f, Next(w, a).t.findings[a.f]))
  {
    if a.f in w.t.findings { assert FindingOk(w.t, w.t.findings[a.f]); }
  }

  lemma KeepsInv(w: World, a: OutsideStep)
    requires Inv(w) && Enabled(w, a)
    ensures Inv(Next(w, a))
  {
    if OneRow(a) {
      OneRowIsFree(w, a);
      FreeMove(w, a.f, Next(w, a).t.findings[a.f]);
    } else if a.HandOverDep? {
      HandOverKeeps(w, a.queued, a.proposed);
    } else if a.DeleteRepo? {
      DeleteKeeps(w, a.repo);
    } else if a.LoseTree? {
      assert Next(w, a).trees + Next(w, a).lost == w.trees + w.lost;
    }
  }

  lemma DeleteKeeps(w: World, r: nat)
    requires Inv(w) && Enabled(w, DeleteRepo(r))
    ensures Inv(Next(w, DeleteRepo(r)))
  {
    var t' := Next(w, DeleteRepo(r)).t;
    forall j | 0 <= j < |t'.jobs| ensures RowOk(t', j) { assert RowOk(w.t, j); }
    forall f | f in t'.findings ensures FindingOk(t', t'.findings[f]) { assert FindingOk(w.t, w.t.findings[f]); }
    forall g | g in t'.findings && t'.findings[g].status.Blocked? ensures HasCheckpoint(t', g) {
      assert HasCheckpoint(w.t, g);
      var j: nat :| Checkpoint(w.t, g, j);
      assert Checkpoint(t', g, j);
    }
  }
}
