/** What each kind of change to the tables keeps of their invariant. */
module TableChanges {
  import opened Domain
  import opened Chains
  import opened Streaks
  import opened Tables
  import opened World

  lemma SameLinksSameSuccessors(a: seq<Job>, b: seq<Job>)
    requires |a| == |b| && SameLinks(a, b)
    ensures forall p: nat :: HasSuccessor(a, p) == HasSuccessor(b, p)
  {
    forall p: nat ensures HasSuccessor(a, p) == HasSuccessor(b, p) {
      if HasSuccessor(a, p) {
        var s :| 0 <= s < |a| && a[s].resumedFrom == Some(p);
        assert b[s].resumedFrom == Some(p);
      }
      if HasSuccessor(b, p) {
        var s :| 0 <= s < |b| && b[s].resumedFrom == Some(p);
        assert a[s].resumedFrom == Some(p);
      }
    }
  }

  /** The change one row update makes may not undo what its links rely on. */
  ghost predicate RowMayBecome(js: seq<Job>, c: nat, row: Job)
    requires c < |js|
  {
    var was := js[c];
    && row.kind == was.kind && row.repo == was.repo && row.finding == was.finding && row.resumedFrom == was.resumedFrom
    && (row.pinned == was.pinned || (was.resumedFrom.None? && !HasSuccessor(js, c)))
    && (was.blocker.Some? ==> row.blocker.Some?)
    && (row.blocker.Some? ==> row.kind.Fix?)
    && (row.state.Running? ==> was.state.Running?)
    && (row.state.Suspended? && row.blocker.None? ==> Counted(row))
    && (HasSuccessor(js, c) ==> row == was.(state := Killed))
    && (!HasSuccessor(js, c) && (row.state.Suspended? || row.state.Running?) ==> Alone(js, c))
  }

  lemma RowChange(t: Tables, c: nat, row: Job)
    requires JobsOk(t) && Forest(t.jobs) && c < |t.jobs| && RowMayBecome(t.jobs, c, row)
    ensures JobsOk(SetJob(t, c, row)) && Forest(SetJob(t, c, row).jobs)
    ensures SameLinks(t.jobs, SetJob(t, c, row).jobs)
    ensures forall p: nat :: HasSuccessor(SetJob(t, c, row).jobs, p) == HasSuccessor(t.jobs, p)
  {
    var t' := SetJob(t, c, row);
    var js, js' := t.jobs, t'.jobs;
    SameLinksSameSuccessors(js, js');
    forall j | 0 <= j < |js'| ensures RowOk(t', j) {
      assert RowOk(t, j);
      if js[j].resumedFrom == Some(c) { assert HasSuccessor(js, c); }
    }
    forall j | 0 <= j < |js'| && js'[j].blocker.None? ensures Pos(js', j) < MAX_RESUME_ATTEMPTS {
      SameLinksSameShape(js, js', j);
    }
    forall j | 0 <= j < |js'| && Live(js', j) ensures Alone(js', j) {
      assert j != c ==> Live(js, j);
      assert Alone(js, j);
      forall i | 0 <= i < |js'| && i != j && Live(js', i)
        ensures !SameWork(js'[i], js'[j].kind, js'[j].repo, js'[j].finding)
      {
        assert i != c ==> Live(js, i);
        if i == c { assert Alone(js, c); }
      }
    }
  }

  lemma RetireRowOk(t: Tables, ids: set<nat>, reason: KilledReason, j: nat)
    requires RowsOk(t) && j < |t.jobs|
    requires forall i | i in ids :: i < |t.jobs| && LooseEnd(t.jobs, i)
    ensures RowOk(t.(jobs := RetireAll(t.jobs, ids, reason)), j)
  {
    assert RowOk(t, j);
    if t.jobs[j].resumedFrom.Some? {
      assert HasSuccessor(t.jobs, t.jobs[j].resumedFrom.value);
      assert t.jobs[j].resumedFrom.value !in ids;
    }
  }

  lemma RetireSuccessors(js: seq<Job>, ids: set<nat>, reason: KilledReason)
    ensures var js' := RetireAll(js, ids, reason);
      && SameLinks(js, js')
      && (forall p: nat :: HasSuccessor(js', p) == HasSuccessor(js, p))
  {
    SameLinksSameSuccessors(js, RetireAll(js, ids, reason));
  }

  /** Retiring loose ends. */
  lemma RetireAllKeeps(t: Tables, ids: set<nat>, reason: KilledReason)
    requires JobsOk(t) && Forest(t.jobs)
    requires forall j | j in ids :: j < |t.jobs| && LooseEnd(t.jobs, j)
    ensures var js' := RetireAll(t.jobs, ids, reason);
      && JobsOk(t.(jobs := js')) && Forest(js') && SameLinks(t.jobs, js')
      && (forall p: nat :: HasSuccessor(js', p) == HasSuccessor(t.jobs, p))
      && (forall j: nat | j < |js'| :: Live(js', j) <==> Live(t.jobs, j) && j !in ids)
  {
    var js, js' := t.jobs, RetireAll(t.jobs, ids, reason);
    var t' := t.(jobs := js');
    RetireSuccessors(js, ids, reason);
    assert RowsOk(t') by {
      forall j | 0 <= j < |js'| ensures RowOk(t', j) { RetireRowOk(t, ids, reason, j); }
    }
    assert WithinCeiling(js') by {
      forall j | 0 <= j < |js'| && js'[j].blocker.None? ensures Pos(js', j) < MAX_RESUME_ATTEMPTS {
        SameLinksSameShape(js, js', j);
      }
    }
    assert forall j: nat | j < |js'| :: Live(js', j) <==> Live(js, j) && j !in ids;
    assert SingleLive(js') by {
      forall j | 0 <= j < |js'| && Live(js', j) ensures Alone(js', j) {
        assert Alone(js, j);
      }
    }
  }

  /** The table with one more row. */
  lemma AppendShape(js: seq<Job>, row: Job)
    ensures forall p: nat :: HasSuccessor(js + [row], p) <==> HasSuccessor(js, p) || row.resumedFrom == Some(p)
    ensures SameLinks(js, js + [row])
  {
    var js' := js + [row];
    forall p: nat ensures HasSuccessor(js', p) <==> HasSuccessor(js, p) || row.resumedFrom == Some(p) {
      if HasSuccessor(js, p) {
        var s :| 0 <= s < |js| && js[s].resumedFrom == Some(p);
        assert js'[s].resumedFrom == Some(p);
      }
      if row.resumedFrom == Some(p) { assert js'[|js|].resumedFrom == Some(p); }
    }
  }

  lemma AppendForest(js: seq<Job>, row: Job)
    requires Forest(js)
    requires row.resumedFrom.Some? ==> row.resumedFrom.value < |js| && !HasSuccessor(js, row.resumedFrom.value)
    ensures Forest(js + [row])
  {
    var js' := js + [row];
    forall i | 0 <= i < |js| && row.resumedFrom.Some? ensures js[i].resumedFrom != row.resumedFrom {}
  }

  /** One more row, running, whose work no other live attempt is at. */
  lemma AppendKeeps(t: Tables, row: Job)
    requires JobsOk(t) && Forest(t.jobs)
    requires forall j | 0 <= j < |t.jobs| :: !t.jobs[j].state.Running?
    requires row.state.Running? && row.repo !in t.deleted
    requires row.finding.Some? <==> IsFindingKind(row.kind)
    requires row.finding.Some? ==> row.finding.value in t.findings && t.findings[row.finding.value].repo == row.repo
    requires row.blocker.Some? ==> row.kind.Fix?
    requires row.resumedFrom.Some? ==>
      && row.resumedFrom.value < |t.jobs| && !HasSuccessor(t.jobs, row.resumedFrom.value)
      && LinkOk(t.jobs + [row], row.resumedFrom.value, |t.jobs|)
      && (row.blocker.None? && t.jobs[row.resumedFrom.value].kind == row.kind ==>
            Pos(t.jobs, row.resumedFrom.value) + 1 < MAX_RESUME_ATTEMPTS)
    requires forall j: nat | j < |t.jobs| && Live(t.jobs, j) && row.resumedFrom != Some(j) ::
      !SameWork(t.jobs[j], row.kind, row.repo, row.finding)
    ensures var t' := t.(jobs := t.jobs + [row]);
      JobsOk(t') && Forest(t'.jobs) && SameLinks(t.jobs, t'.jobs)
    ensures forall j: nat | j < |t.jobs| :: Live(t.jobs + [row], j) <==> Live(t.jobs, j) && row.resumedFrom != Some(j)
    ensures !HasSuccessor(t.jobs + [row], |t.jobs|)
  {
    var js, js' := t.jobs, t.jobs + [row];
    var t' := t.(jobs := js');
    var n := |js|;
    AppendShape(js, row);
    AppendForest(js, row);
    assert !HasSuccessor(js, n) by {
      forall s | 0 <= s < |js| ensures js[s].resumedFrom != Some(n) { assert RowOk(t, s); }
    }
    forall j | 0 <= j < |js'| ensures RowOk(t', j) {
      if j < n { assert RowOk(t, j); assert js'[j] == js[j]; }
    }
    forall j | 0 <= j < |js'| && js'[j].blocker.None? ensures Pos(js', j) < MAX_RESUME_ATTEMPTS {
      if j < n {
        SameLinksSameShape(js, js', j);
      } else if row.resumedFrom.Some? {
        SameLinksSameShape(js, js', row.resumedFrom.value);
      }
    }
    forall j | 0 <= j < |js'| && Live(js', j) ensures Alone(js', j) {
      if j < n { assert Live(js, j) && Alone(js, j); }
      forall i | 0 <= i < |js'| && i != j && Live(js', i)
        ensures !SameWork(js'[i], js'[j].kind, js'[j].repo, js'[j].finding)
      {
        if i < n { assert Live(js, i); }
      }
    }
  }

  // ------------------------------------------------------------------
  // The tables together
  // ------------------------------------------------------------------

  /** One finding's row, not into a hold. */
  lemma FindingChange(t: Tables, f: nat, row: Finding)
    requires TablesOk(t) && FindingOk(t, row)
    requires f in t.findings ==> row.repo == t.findings[f].repo
    requires row.status.Blocked? ==> f in t.findings && t.findings[f].status.Blocked?
    ensures TablesOk(SetFinding(t, f, row))
  {
    var t' := SetFinding(t, f, row);
    forall j | 0 <= j < |t'.jobs| ensures RowOk(t', j) { assert RowOk(t, j); }
    forall g | g in t'.findings && t'.findings[g].status.Blocked? ensures HasCheckpoint(t', g) {
      assert HasCheckpoint(t, g);
      var j: nat :| Checkpoint(t, g, j);
      assert Checkpoint(t', g, j);
    }
  }

  ghost predicate IsHeld(t: Tables, c: nat) {
    exists g | g in t.findings && t.findings[g].status.Blocked? :: Checkpoint(t, g, c)
  }

  /** One job's row, not a held checkpoint's. */
  lemma JobChange(t: Tables, c: nat, row: Job)
    requires TablesOk(t) && c < |t.jobs| && RowMayBecome(t.jobs, c, row) && !IsHeld(t, c)
    ensures TablesOk(SetJob(t, c, row))
    ensures SameLinks(t.jobs, SetJob(t, c, row).jobs)
    ensures forall p: nat :: HasSuccessor(SetJob(t, c, row).jobs, p) == HasSuccessor(t.jobs, p)
  {
    var t' := SetJob(t, c, row);
    RowChange(t, c, row);
    forall g | g in t'.findings && t'.findings[g].status.Blocked? ensures HasCheckpoint(t', g) {
      assert HasCheckpoint(t, g);
      var j: nat :| Checkpoint(t, g, j);
      assert Checkpoint(t', g, j);
    }
  }

  /** A fix attempt turned into a held checkpoint, with its finding. */
  lemma HoldChange(t: Tables, f: nat, c: nat, row: Job, held: Finding)
    requires TablesOk(t) && c < |t.jobs| && RowMayBecome(t.jobs, c, row)
    requires f in t.findings && FindingOk(t, held) && held.repo == t.findings[f].repo && held.status.Blocked?
    requires row.kind.Fix? && row.finding == Some(f) && row.state.Suspended? && row.blocker.Some?
    requires !HasSuccessor(t.jobs, c)
    ensures TablesOk(t.(jobs := t.jobs[c := row], findings := t.findings[f := held]))
    ensures SameLinks(t.jobs, t.jobs[c := row])
    ensures forall p: nat :: HasSuccessor(t.jobs[c := row], p) == HasSuccessor(t.jobs, p)
  {
    var t' := t.(jobs := t.jobs[c := row], findings := t.findings[f := held]);
    RowChange(t, c, row);
    forall j | 0 <= j < |t'.jobs| ensures RowOk(t', j) { assert RowOk(SetJob(t, c, row), j); }
    assert Checkpoint(t', f, c);
    forall g | g in t'.findings && t'.findings[g].status.Blocked? ensures HasCheckpoint(t', g) {
      if g != f {
        assert HasCheckpoint(t, g);
        var j: nat :| Checkpoint(t, g, j);
        assert Checkpoint(t', g, j);
      }
    }
  }

  /** Counting a failed fix attempt, up to turning it into a checkpoint. */
  lemma FixFailureKeeps(t: Tables, f: nat, c: nat, key: string, report: string)
    requires TablesOk(t) && f in t.findings && t.findings[f].anchor.None? && c < |t.jobs| && !HasSuccessor(t.jobs, c)
    requires t.jobs[c].kind.Fix? && t.jobs[c].finding == Some(f) && !t.jobs[c].state.Running? && Alone(t.jobs, c)
    ensures var t' := RecordFixFailure(t, f, c, key, report);
      && TablesOk(t') && |t'.jobs| == |t.jobs| && SameLinks(t.jobs, t'.jobs)
      && (forall p: nat :: HasSuccessor(t'.jobs, p) == HasSuccessor(t.jobs, p))
      && f in t'.findings
  {
    var row := t.findings[f];
    assert FindingOk(t, row);
    StreakFollowsHistory(row.fix, key);
    StreakFollowsHistory(Fail(row.fix, key), key);
    var counted := row.(fix := Fail(row.fix, key));
    if counted.fix.count < MAX_SAME_FAILURE {
      FindingChange(t, f, counted);
    } else {
      var held := counted.(status := Blocked, fix := Clear(counted.fix));
      HoldChange(t, f, c, HeldRow(t.jobs, c, report), held);
      assert t.findings[f := counted][f := held] == t.findings[f := held];
    }
  }

  lemma RecheckFailureKeeps(t: Tables, f: nat, key: string)
    requires TablesOk(t) && f in t.findings && t.findings[f].status.Rechecking?
    ensures TablesOk(RecordRecheckFailure(t, f, key))
  {
    var row := t.findings[f];
    assert FindingOk(t, row);
    StreakFollowsHistory(row.recheck, key);
    StreakFollowsHistory(Fail(row.recheck, key), key);
    FindingChange(t, f, RecordRecheckFailure(t, f, key).findings[f]);
  }

  lemma HarvestFailureKeeps(t: Tables, f: nat, key: string)
    requires TablesOk(t) && f in t.findings && t.findings[f].pr.Some?
    ensures TablesOk(RecordHarvestFailure(t, f, key))
  {
    var row := t.findings[f];
    assert FindingOk(t, row);
    StreakFollowsHistory(row.pr.value.harvest, key);
    StreakFollowsHistory(Fail(row.pr.value.harvest, key), key);
    FindingChange(t, f, RecordHarvestFailure(t, f, key).findings[f]);
  }

  // ------------------------------------------------------------------
  // Trees
  // ------------------------------------------------------------------

  lemma TreesKeptByShape(a: seq<Job>, b: seq<Job>, kept: set<nat>, wanted: Option<nat>, wanted': Option<nat>)
    requires Forest(a) && Forest(b) && |a| == |b| && SameLinks(a, b) && TreesKept(a, kept, wanted)
    requires forall j: nat | j < |a| && Live(b, j) :: (Live(a, j) || wanted == Some(j)) && a[j].pinned == b[j].pinned
    requires wanted'.Some? && wanted'.value < |a| ==>
      (Live(a, wanted'.value) || wanted == wanted') && a[wanted'.value].pinned == b[wanted'.value].pinned
    ensures TreesKept(b, kept, wanted')
  {
    forall j: nat | j < |b| && (Live(b, j) || wanted' == Some(j)) ensures TreeKept(b, kept, j) {
      SameLinksSameShape(a, b, j);
      assert TreeKept(a, kept, j);
    }
  }

  /** A tree without a live link within the cap can go. */
  lemma ReleaseKeepsTrees(js: seq<Job>, kept: set<nat>, o: nat)
    requires Forest(js) && TreesKept(js, kept, None) && o < |js| && js[o].resumedFrom.None? && LiveCount(js, o) == 0
    ensures TreesKept(js, kept - {o}, None)
  {
    LiveCountZero(js, o);
  }

  lemma AppendKeepsTrees(js: seq<Job>, row: Job, kept: set<nat>, wanted: Option<nat>)
    requires Forest(js) && Forest(js + [row]) && TreesKept(js, kept, wanted)
    requires forall j: nat | j < |js| && Live(js + [row], j) :: Live(js, j)
    requires row.resumedFrom.None? ==> row.pinned.None?
    requires row.resumedFrom.Some? ==>
      && row.resumedFrom.value < |js| && row.pinned == js[row.resumedFrom.value].pinned
      && (Live(js, row.resumedFrom.value) || wanted == row.resumedFrom)
    ensures TreesKept(js + [row], kept, None)
  {
    var js' := js + [row];
    forall j: nat | j < |js'| && Live(js', j) ensures TreeKept(js', kept, j) {
      if j < |js| {
        SameLinksSameShape(js, js', j);
        assert TreeKept(js, kept, j);
      } else if row.resumedFrom.Some? {
        var p := row.resumedFrom.value;
        SameLinksSameShape(js, js', p);
        assert TreeKept(js, kept, p);
      }
    }
  }
}
