/** The store as the program has it: rows updated in place, one method for
    each transaction the state machine is built on (hunter-rs/src/store.rs),
    and the loops of the daemon and the scheduler over it. */
module StoreRows {
  import opened Domain
  import opened Chains
  import opened Streaks
  import opened T = Tables
  import opened Suppression
  import C = TableChanges
  import S = SelectSteps
  import opened Recovery
  import W = World
  import R = Rotation
  import Sel = Selection

  // ------------------------------------------------------------------
  // The store
  // ------------------------------------------------------------------

  /** The rows a `create_job` leaves: a resume inherits the pinned commit and
      the report, and a fresh job retires the suspensions of its work that
      nothing continues. */
  ghost predicate RowsCreated(
      js: seq<Job>, js': seq<Job>, kind: JobKind, repo: nat, finding: Option<nat>, resume: Option<nat>)
  {
    && |js'| == |js| + 1 && (resume.Some? ==> resume.value < |js|)
    && js'[|js|] == Job(kind, repo, finding, Running, resume, None, None, false,
                        if resume.Some? then js[resume.value].pinned else None,
                        if resume.Some? then js[resume.value].blocker else None)
    && forall j: nat | j < |js| ::
         var superseded := resume.None? && LooseEnd(js, j) && js[j].kind == kind
           && if IsFindingKind(kind) then js[j].finding == finding else js[j].repo == repo;
         js'[j] == if superseded then js[j].(state := Killed, reason := Some(Superseding)) else js[j]
  }

  lemma CreatedRows(t: T.Tables, kind: JobKind, repo: nat, finding: Option<nat>, resume: Option<nat>)
    requires resume.Some? ==> resume.value < |t.jobs|
    ensures RowsCreated(t.jobs, T.CreateJob(t, kind, repo, finding, resume).jobs, kind, repo, finding, resume)
  {
    if resume.None? {
      var ids := SupersededIds(t.jobs, kind, repo, finding);
      forall j: nat | j < |t.jobs|
        ensures j in ids <==> LooseEnd(t.jobs, j) && SameWork(t.jobs[j], kind, repo, finding)
      {}
    }
  }

  lemma RetireBefore(js: seq<Job>, row: Job, ids: set<nat>, reason: KilledReason)
    requires forall i | i in ids :: i < |js|
    ensures RetireAll(js + [row], ids, reason) == RetireAll(js, ids, reason) + [row]
  {}

  datatype CreatedJob = CreatedJob(id: nat, superseded: seq<nat>)

  class Store {
    var jobs: seq<Job>
    var findings: map<nat, Finding>
    var deleted: set<nat>
    var repos: seq<R.Repo>

    constructor ()
      ensures View() == Tables([], map[], {}) && repos == []
    {
      jobs, findings, deleted, repos := [], map[], {}, [];
    }

    function View(): Tables
      reads this
    {
      Tables(jobs, findings, deleted)
    }

    function Selecting(): Sel.State
      reads this
    {
      Sel.State(View(), repos)
    }

    // ---- jobs --------------------------------------------------------

    /** A row is inserted only for a repo that is not deleted; a fresh job
        then retires, in one transaction, every suspension of its work that
        nothing continues. */
    method CreateJob(kind: JobKind, repo: nat, finding: Option<nat>, resume: Option<nat>)
        returns (created: Option<CreatedJob>)
      requires resume.Some? ==> resume.value < |jobs|
      modifies this`jobs
      ensures created.None? <==> repo in deleted
      ensures created.None? ==> View() == old(View())
      ensures created.Some? ==>
        && View() == T.CreateJob(old(View()), kind, repo, finding, resume)
        && created.value.id == old(|jobs|)
        && created.value.superseded
           == if resume.Some? then [] else InOrder(SupersededIds(old(jobs), kind, repo, finding), old(|jobs|))
      ensures created.Some? ==> RowsCreated(old(jobs), jobs, kind, repo, finding, resume)
    {
      if repo in deleted { return None; }
      CreatedRows(View(), kind, repo, finding, resume);
      var id := |jobs|;
      if resume.Some? {
        jobs := jobs + [ResumedRow(kind, repo, finding, resume.value, jobs[resume.value])];
        return Some(CreatedJob(id, []));
      }
      var ids := SupersededIds(jobs, kind, repo, finding);
      RetireBefore(jobs, FreshRow(kind, repo, finding), ids, Superseding);
      jobs := jobs + [FreshRow(kind, repo, finding)];
      var retired := RetireEach(ids, id, Superseding);
      created := Some(CreatedJob(id, retired));
    }

    /** Rows are retired one after the other, in the order of their ids. */
    method RetireEach(ids: set<nat>, n: nat, reason: KilledReason) returns (retired: seq<nat>)
      requires n <= |jobs| && forall i | i in ids :: i < n
      modifies this`jobs
      ensures jobs == RetireAll(old(jobs), ids, reason) && retired == InOrder(ids, n)
    {
      var list := InOrder(ids, n);
      ghost var was := jobs;
      retired := [];
      for i := 0 to |list|
        invariant retired == list[..i] && |jobs| == |was|
        invariant forall j | 0 <= j < |was| ::
          jobs[j] == if j in list[..i] then Retired(was[j], Killed, Some(reason)) else was[j]
      {
        jobs := jobs[list[i] := Retired(jobs[list[i]], Killed, Some(reason))];
        retired := retired + [list[i]];
      }
      assert list[..|list|] == list;
      assert jobs == RetireAll(was, ids, reason);
    }

    /** `complete_job` with `job_state`: what is left of a run that is over. */
    method CompleteJob(j: nat, rr: RunResult)
      requires j < |jobs|
      modifies this`jobs
      ensures View() == SetJob(old(View()), j, Completed(old(jobs[j]), rr))
      ensures jobs[j].state.Suspended? <==> WorthContinuing(rr)
      ensures jobs[j].state.Failed? <==>
        || rr.killed == Some(ResumeUnavailable)
        || (rr.killed.None? && !rr.exitedCleanly && (!rr.session || rr.tokens <= 0))
      ensures jobs[j].state.Done? <==> rr.killed.None? && rr.exitedCleanly
      ensures !jobs[j].state.Suspended? && !jobs[j].state.Failed? && !jobs[j].state.Done? ==> jobs[j].state.Killed?
      ensures jobs[j].state.Suspended? ==> Counted(jobs[j])
      ensures Spent(jobs[j]) == rr.tokens && jobs[j].session == rr.session && jobs[j].reason == rr.killed
      ensures var was := old(jobs[j]);
        jobs[j] == was.(state := jobs[j].state, tokens := jobs[j].tokens, reason := rr.killed, session := rr.session)
    {
      jobs := jobs[j := Completed(jobs[j], rr)];
    }

    method RetireJob(j: nat, state: JobState, reason: Option<KilledReason>)
      requires j < |jobs|
      modifies this`jobs
      ensures View() == SetJob(old(View()), j, Retired(old(jobs[j]), state, reason))
      ensures !state.Suspended? ==> !LooseEnd(jobs, j)
      ensures forall i: nat | i < |jobs| && i != j :: Live(jobs, i) <==> Live(old(jobs), i)
    {
      ghost var was := jobs;
      jobs := jobs[j := jobs[j].(state := state, reason := if reason.Some? then reason else jobs[j].reason)];
      C.SameLinksSameSuccessors(was, jobs);
    }

    /** Suspensions whose finding has moved on are retired, in one
        transaction; the answer names them. */
    method RetireStrandedSuspensions() returns (retired: seq<nat>)
      modifies this`jobs
      ensures View() == RetireStranded(old(View()))
      ensures retired == InOrder(StrandedIds(old(View())), old(|jobs|))
    {
      retired := RetireEach(StrandedIds(View()), |jobs|, FindingMoved);
    }

    // ---- recovery ----------------------------------------------------

    method ReconcileOrphanedJobs() returns (stuck: set<nat>, orphaned: seq<nat>)
      modifies this`jobs, this`findings
      ensures jobs == OrphansKilled(old(jobs)) && findings == StuckRequeued(old(findings))
      ensures stuck == FixingIds(old(findings)) && orphaned == InOrder(RunningIds(old(jobs)), old(|jobs|))
    {
      stuck := FixingIds(findings);
      var todo := stuck;
      while todo != {}
        invariant todo <= stuck && findings.Keys == old(findings).Keys && jobs == old(jobs)
        invariant forall f | f in findings ::
          findings[f] == if f in stuck && f !in todo then old(findings)[f].(status := Queued) else old(findings)[f]
        decreases todo
      {
        var f :| f in todo;
        findings := findings[f := findings[f].(status := Queued)];
        todo := todo - {f};
      }
      assert findings == StuckRequeued(old(findings));
      orphaned := InOrder(RunningIds(jobs), |jobs|);
      for i := 0 to |orphaned|
        invariant |jobs| == old(|jobs|) && findings == StuckRequeued(old(findings))
        invariant forall j | 0 <= j < |jobs| ::
          jobs[j] == if j in orphaned[..i] then OrphanKilled(old(jobs)[j]) else old(jobs)[j]
      {
        jobs := jobs[orphaned[i] := OrphanKilled(jobs[orphaned[i]])];
      }
      assert orphaned[..|orphaned|] == orphaned;
      assert jobs == OrphansKilled(old(jobs));
    }

    /** `reconcile_and_log`: what a died process left running is suspended
        where it had done work, killed otherwise, and its finding goes back
        to the queue. */
    method ReconcileAndLog(disk: Disk)
      modifies this`jobs, this`findings
      ensures View() == Recovered(old(View()), disk)
      ensures W.TablesOk(old(View())) ==> Settled(old(View()), View(), disk)
    {
      if W.TablesOk(View()) { RecoverySettles(View(), disk); }
      var list := InOrder(RunningIds(jobs), |jobs|);
      for i := 0 to |list|
        invariant |jobs| == old(|jobs|) && findings == old(findings)
        invariant OrphansSuspended(jobs, disk, list[i..]) == OrphansSuspended(old(jobs), disk, list)
      {
        assert list[i..][0] == list[i] && list[i..][1..] == list[i + 1..];
        var work := OrphanWork(jobs, disk, list[i]);
        if work.Some? {
          jobs := jobs[list[i] := OrphanSuspended(jobs[list[i]], work.value)];
        }
      }
      var _, _ := ReconcileOrphanedJobs();
    }

    // ---- findings ----------------------------------------------------

    /** `claim_in_progress`. */
    method ClaimInProgress(f: nat, from: FindingStatus, to: FindingStatus) returns (claimed: bool)
      modifies this`findings
      ensures claimed <==> f in old(findings) && old(findings)[f].status == from
      ensures f in old(findings) ==> View() == Claim(old(View()), f, from, to)
      ensures !claimed ==> View() == old(View())
    {
      claimed := f in findings && findings[f].status == from;
      if claimed { findings := findings[f := findings[f].(status := to)]; }
    }

    /** `set_anchored_verdict`. */
    method SetAnchoredVerdict(f: nat, status: FindingStatus, anchor: Option<Anchor>, judge: Judge)
      requires f in findings
      modifies this`findings
      ensures View() == SetFinding(old(View()), f, Judged(old(findings)[f], status, anchor, judge))
    {
      findings := findings[f := findings[f].(status := status, anchor := anchor, judge := judge)];
    }

    /** `record_declined_fix`: the worker's classification decides the status,
        and only a finding it calls wrong is anchored - to the commit of the
        fix's tree, watching the paths it mentions. */
    method RecordDeclinedFix(f: nat, why: Option<ClosureClass>, sha: nat, dependsOn: seq<string>)
      requires f in findings
      modifies this`findings
      ensures View() == SetFinding(old(View()), f, Declined(old(findings)[f], why, sha, dependsOn))
      ensures findings[f].anchor.Some? <==> why == Some(Wrong)
      ensures findings[f].anchor.Some? ==>
        findings[f].anchor.value == Anchor(sha, Watched(Mentions(old(findings)[f].file, dependsOn)))
      ensures why.None? ==> AwaitsVerdict(findings[f].status)
      ensures findings[f].fix.count == 0
    {
      var status := New;
      if why.Some? { status := ClosureStatus(why.value); }
      var anchor: Option<Anchor> := None;
      if status.Rejected? {
        var files := WatchFiles(Mentions(findings[f].file, dependsOn));
        anchor := Some(Anchor(sha, files));
      }
      SetAnchoredVerdict(f, status, anchor, Worker);
      findings := findings[f := findings[f].(fix := Clear(findings[f].fix))];
    }

    /** `set_verdict_if`: an operator's verdict loses to whatever moved the
        finding meanwhile, and leaves no anchor when it wins. */
    method SetVerdictIf(f: nat, from: FindingStatus, status: FindingStatus) returns (applied: bool)
      modifies this`findings
      ensures applied <==> f in old(findings) && old(findings)[f].status == from
      ensures applied ==> View() == SetFinding(old(View()), f, Judged(old(findings)[f], status, None, Operator))
      ensures !applied ==> View() == old(View())
    {
      applied := f in findings && findings[f].status == from;
      if applied { findings := findings[f := findings[f].(status := status, anchor := None, judge := Operator)]; }
    }

    method ReopenSuppressed(f: nat) returns (reopened: bool)
      modifies this`findings
      ensures reopened <==> f in old(findings) && IsSuppressed(old(findings)[f].status)
      ensures View() == if reopened then SetFinding(old(View()), f, Reopened(old(findings)[f])) else old(View())
    {
      reopened := f in findings && (findings[f].status.Rejected? || findings[f].status.Wontfix?);
      if reopened { findings := findings[f := findings[f].(status := New, anchor := None, judge := Nobody)]; }
    }

    /** `reopen_if_changed`: a scan's job filed `f` again; `at` is the commit
        it scanned, `diff` what git says of the time since the verdict. */
    method ReopenIfChanged(f: nat, at: Option<nat>, repoKnown: bool, diff: Diff) returns (reopened: bool)
      modifies this`findings
      ensures reopened <==>
        && f in old(findings) && IsSuppressed(old(findings)[f].status) && at.Some? && repoKnown
        && old(findings)[f].anchor.Some? && Lapsed(old(findings)[f].anchor.value, diff)
      ensures !reopened ==> View() == old(View())
      ensures reopened ==> f in findings && findings[f].status.New? && findings[f].anchor.None?
                           && View() == SetFinding(old(View()), f, Reopened(old(findings)[f]))
    {
      if f !in findings || !IsSuppressed(findings[f].status) { return false; }
      if findings[f].anchor.None? || at.None? || !repoKnown { return false; }
      if !Lapsed(findings[f].anchor.value, diff) { return false; }
      reopened := ReopenSuppressed(f);
    }

    /** `block_fix_job`: both rows or, for a job that is not a fix of this
        finding, neither. */
    method HoldFixJob(f: nat, j: nat, report: string) returns (ok: bool)
      modifies this`jobs, this`findings
      ensures ok <==> j < old(|jobs|) && old(jobs)[j].kind.Fix? && old(jobs)[j].finding == Some(f) && f in old(findings)
      ensures View() == if ok then BlockFixJob(old(View()), f, j, report) else old(View())
      ensures ok ==>
        && findings[f].status.Blocked? && findings[f].fix.count == 0
        && jobs[j].state.Suspended? && jobs[j].blocker == Some(report)
        && (jobs[j].session <==>
              old(jobs)[j].session
              || (old(jobs)[j].resumedFrom.Some? && old(jobs)[j].resumedFrom.value < old(|jobs|)
                  && old(jobs)[old(jobs)[j].resumedFrom.value].session))
    {
      if j >= |jobs| || !jobs[j].kind.Fix? || jobs[j].finding != Some(f) || f !in findings { return false; }
      var p := jobs[j].resumedFrom;
      var session := jobs[j].session;
      if !session && p.Some? && p.value < |jobs| { session := jobs[p.value].session; }
      jobs := jobs[j := jobs[j].(state := Suspended, blocker := Some(report), session := session)];
      findings := findings[f := findings[f].(status := Blocked, fix := Clear(findings[f].fix))];
      ok := true;
    }

    /** `record_fix_attempt`: read, compare, write. */
    method RecordFixAttempt(f: nat, key: string) returns (attempts: nat)
      modifies this`findings
      ensures f !in old(findings) ==> View() == old(View()) && attempts == 1
      ensures f in old(findings) ==>
        && View() == SetFinding(old(View()), f, old(findings)[f].(fix := Fail(old(findings)[f].fix, key)))
        && attempts == Fail(old(findings)[f].fix, key).count
        && (Faithful(old(findings)[f].fix) ==> attempts == TrailingRun(old(findings)[f].fix.log, key) + 1)
    {
      if f !in findings { return 1; }
      var s := findings[f].fix;
      if s.last == Some(key) { attempts := s.count + 1; } else { attempts := 1; }
      if Faithful(s) && s.last != Some(key) { OtherKeysRestart(s.log, key); }
      findings := findings[f := findings[f].(fix := Streak(attempts, Some(key), s.log + [Fails(key)]))];
    }

    /** `record_fix_failure`: the third identical failure holds the finding. */
    method RecordFixFailure(f: nat, j: nat, key: string, report: string) returns (held: bool)
      requires f in findings && j < |jobs| && jobs[j].kind.Fix? && jobs[j].finding == Some(f)
      modifies this`jobs, this`findings
      ensures View() == T.RecordFixFailure(old(View()), f, j, key, report)
      ensures held <==> Fail(old(findings)[f].fix, key).count >= MAX_SAME_FAILURE
    {
      var streak := RecordFixAttempt(f, key);
      if streak < MAX_SAME_FAILURE { return false; }
      held := HoldFixJob(f, j, report);
    }

    /** `handle_recheck_failure`: the third identical failure sends the
        finding back to the inbox. */
    method HandleRecheckFailure(f: nat, key: string) returns (stuck: bool)
      requires f in findings
      modifies this`findings
      ensures View() == RecordRecheckFailure(old(View()), f, key)
      ensures stuck <==> Fail(old(findings)[f].recheck, key).count >= MAX_SAME_FAILURE
    {
      var s := findings[f].recheck;
      var attempts := if s.last == Some(key) then s.count + 1 else 1;
      findings := findings[f := findings[f].(recheck := Streak(attempts, Some(key), s.log + [Fails(key)]))];
      if attempts < MAX_SAME_FAILURE { return false; }
      findings := findings[f := findings[f].(status := New)];
      findings := findings[f := findings[f].(recheck := Clear(findings[f].recheck))];
      stuck := true;
    }

    /** `record_harvest_failure`: the third identical failure gives the PR
        up. */
    method RecordHarvestFailure(f: nat, key: string) returns (gaveUp: bool)
      requires f in findings && findings[f].pr.Some?
      modifies this`findings
      ensures View() == T.RecordHarvestFailure(old(View()), f, key)
      ensures gaveUp <==> Fail(old(findings)[f].pr.value.harvest, key).count >= MAX_SAME_FAILURE
    {
      var pr := findings[f].pr.value;
      var s := pr.harvest;
      var attempts := if s.last == Some(key) then s.count + 1 else 1;
      pr := pr.(harvest := Streak(attempts, Some(key), s.log + [Fails(key)]));
      if attempts >= MAX_SAME_FAILURE { pr := pr.(harvested := true, harvest := Clear(pr.harvest)); }
      findings := findings[f := findings[f].(pr := Some(pr))];
      gaveUp := attempts >= MAX_SAME_FAILURE;
    }

    /** `record_closed_harvest`: the stamp always, the classification only
        where the finding still awaits it. */
    method RecordClosedHarvest(f: nat, status: FindingStatus, sha: nat, dependsOn: seq<string>)
        returns (classified: bool)
      requires f in findings && findings[f].pr.Some?
      modifies this`findings
      ensures View() == T.RecordClosedHarvest(old(View()), f, status, sha, dependsOn)
      ensures classified <==> old(findings)[f].status.Closed?
      ensures f in findings && findings[f].pr.Some? && findings[f].pr.value.harvested
      ensures findings[f].pr.value.harvest.count == 0
      ensures findings[f].status == if classified then status else old(findings)[f].status
      ensures classified ==> (findings[f].anchor.Some? <==> status.Rejected?)
      ensures !classified ==> findings[f].anchor == old(findings)[f].anchor
    {
      classified := findings[f].status.Closed?;
      if classified {
        var anchor := VerdictAnchor(status, sha, findings[f].file, dependsOn);
        findings := findings[f := findings[f].(status := status, anchor := anchor, judge := Worker)];
      }
      var pr := findings[f].pr.value;
      findings := findings[f := findings[f].(pr := Some(pr.(harvested := true, harvest := Clear(pr.harvest))))];
    }

    // ---- selection ---------------------------------------------------

    /** What `resume_plan` writes when it turns a suspension down. */
    method RetireFor(env: Sel.Env, j: nat)
      requires j < |jobs|
      modifies this`jobs, this`repos
      ensures Selecting() == Sel.Retire(old(Selecting()), env, j)
    {
      var found := Sel.Weigh(View(), env, j);
      if found.Gone? {
        RetireJob(j, Killed, Some(WorkdirGone));
      } else if found.Past? {
        var r, k := jobs[j].repo, jobs[j].kind;
        if !IsFindingKind(k) && r < |repos| { repos := R.Bumped(repos, r, k, env.now); }
        RetireJob(j, Failed, Some(GiveUp));
      }
    }

    /** What `finding_pick` makes of a suspension it will not continue. */
    method TurnDown(env: Sel.Env, kind: JobKind, f: nat, j: nat) returns (ended: bool)
      requires IsFindingKind(kind) && S.InTier(View(), kind, f)
      requires j < |jobs| && Sel.Matches(View(), kind, f, j) && !Sel.Weigh(View(), env, j).Go?
      modifies this
      ensures |jobs| == old(|jobs|) && (ended <==> !S.InTier(View(), kind, f))
      ensures var s1 := Sel.Retire(old(Selecting()), env, j);
        if old(Sel.Weigh(View(), env, j)).Past?
        then S.InTier(s1.t, kind, f)
             && Selecting() == s1.(t := S.CountGivenUp(s1.t, kind, f, j, Sel.WHY))
             && ended == Sel.CountEnds(s1.t, kind, f)
        else Selecting() == s1 && !ended
    {
      var found := Sel.Weigh(View(), env, j);
      Sel.RetireKeepsTiers(Selecting(), env, j);
      RetireFor(env, j);
      ended := false;
      if found.Past? {
        Sel.CountEndsLeavesTier(View(), kind, f, j, Sel.WHY);
        ended := CountGivenUpChain(kind, f, j, Sel.WHY);
      }
    }

    /** One row of the list: the pick, when the walk ends here. */
    method TryRow(env: Sel.Env, kind: JobKind, f: nat, list: seq<nat>, mode: Sel.Mode)
        returns (ended: bool, c: Option<Sel.Candidate>)
      requires IsFindingKind(kind) && S.InTier(View(), kind, f) && list != [] && Sel.Rows(View(), list)
      modifies this
      ensures |jobs| == old(|jobs|)
      ensures ended ==> (Selecting(), c) == Sel.FindingPick(old(Selecting()), env, kind, f, list, mode)
      ensures !ended ==> S.InTier(View(), kind, f)
      ensures !ended ==>
        Sel.FindingPick(Selecting(), env, kind, f, list[1..], mode)
        == Sel.FindingPick(old(Selecting()), env, kind, f, list, mode)
    {
      var j := list[0];
      if !Sel.Matches(View(), kind, f, j) { return false, None; }
      var found := Sel.Weigh(View(), env, j);
      if found.Go? { return true, Some(Sel.Resume(j)); }
      if mode.Preview? { return false, None; }
      ended := TurnDown(env, kind, f, j);
      c := None;
    }

    /** `finding_pick`. */
    method FindingPick(env: Sel.Env, kind: JobKind, f: nat, mode: Sel.Mode) returns (c: Option<Sel.Candidate>)
      requires IsFindingKind(kind) && S.InTier(View(), kind, f)
      modifies this
      ensures (Selecting(), c) == Sel.FindingPick(old(Selecting()), env, kind, f, Sel.Resumable(old(View())), mode)
    {
      var rest := Sel.Resumable(View());
      while rest != []
        invariant Sel.Rows(View(), rest) && S.InTier(View(), kind, f)
        invariant Sel.FindingPick(Selecting(), env, kind, f, rest, mode)
          == Sel.FindingPick(old(Selecting()), env, kind, f, Sel.Resumable(old(View())), mode)
        decreases |rest|
      {
        var ended, pick := TryRow(env, kind, f, rest, mode);
        if ended { return pick; }
        rest := rest[1..];
      }
      c := Some(Sel.Fresh(kind, f));
    }

    /** `count_given_up_chain`: one failed attempt at the finding's work;
        whether it ended the work. */
    method CountGivenUpChain(kind: JobKind, f: nat, j: nat, why: string) returns (ended: bool)
      requires j < |jobs| && S.InTier(View(), kind, f) && Sel.Matches(View(), kind, f, j)
      modifies this`jobs, this`findings
      ensures View() == S.CountGivenUp(old(View()), kind, f, j, why)
      ensures ended == Sel.CountEnds(old(View()), kind, f)
      ensures ended <==> !S.InTier(View(), kind, f)
    {
      Sel.CountEndsLeavesTier(View(), kind, f, j, why);
      if kind.Fix? {
        ended := RecordFixFailure(f, j, S.CHAIN_GAVE_UP, why);
      } else if kind.Recheck? {
        ended := HandleRecheckFailure(f, S.CHAIN_GAVE_UP);
      } else if kind.Harvest? {
        ended := RecordHarvestFailure(f, S.CHAIN_GAVE_UP);
      } else {
        findings := findings[f := findings[f].(pr := Some(findings[f].pr.value.(attention := false)))];
        ended := true;
      }
    }

    /** `pick_resume`. */
    method PickResume(env: Sel.Env, mode: Sel.Mode) returns (j: Option<nat>)
      modifies this
      ensures (Selecting(), j) == Sel.PickResume(old(Selecting()), env, Sel.Resumable(old(View())), mode)
    {
      var rest := Sel.Resumable(View());
      while rest != []
        invariant Sel.Rows(View(), rest)
        invariant Sel.PickResume(Selecting(), env, rest, mode)
          == Sel.PickResume(old(Selecting()), env, Sel.Resumable(old(View())), mode)
        decreases |rest|
      {
        if Sel.Forced(env.force, jobs[rest[0]].repo) {
          var found := Sel.Weigh(View(), env, rest[0]);
          if found.Go? { return Some(rest[0]); }
          if mode.Run? { RetireFor(env, rest[0]); }
        }
        rest := rest[1..];
      }
      j := None;
    }

    /** `select`. */
    method Select(env: Sel.Env, mode: Sel.Mode) returns (c: Option<Sel.Candidate>)
      modifies this
      ensures (Selecting(), c) == Sel.Selected(old(Selecting()), env, mode)
      decreases Sel.TierTotal(View())
    {
      var item := Sel.FirstItem(View(), env);
      if item.Some? {
        c := FindingPick(env, item.value.0, item.value.1, mode);
        if c.None? { c := Select(env, mode); }
        return;
      }
      var j := PickResume(env, mode);
      if j.Some? { return Some(Sel.Resume(j.value)); }
      var scan := R.PickScan(env.intervals, repos, env.force, env.now);
      c := if scan.Some? then Some(Sel.Scan(scan.value.0, scan.value.1)) else None;
    }
  }
}
