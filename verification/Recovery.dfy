/** What recovery makes of the jobs a died process left running
    (hunter-rs/src/daemon.rs, hunter-rs/src/store.rs). */
module Recovery {
  import opened Domain
  import opened Chains
  import opened T = Tables
  import W = World
  import A = Accounting

  /** The ids below `n` that are in `ids`, in ascending order, as
      `ORDER BY id` returns them. */
  function InOrder(ids: set<nat>, n: nat): (out: seq<nat>)
    ensures forall i: nat :: i in out <==> i in ids && i < n
    ensures forall a, b | 0 <= a < b < |out| :: out[a] < out[b]
    ensures forall a | 0 <= a < |out| :: out[a] < n
  {
    if n == 0 then [] else InOrder(ids, n - 1) + if n - 1 in ids then [n - 1] else []
  }

  function RunningIds(js: seq<Job>): set<nat> {
    set j: nat | j < |js| && js[j].state.Running?
  }

  function FixingIds(findings: map<nat, Finding>): set<nat> {
    set f | f in findings && findings[f].status.Fixing?
  }

  // ------------------------------------------------------------------
  // Recovery as a function
  // ------------------------------------------------------------------

  /** The daemon's reading of the chain directories: the tokens each one's
      ledger holds, and the trees some process still works in. */
  datatype Disk = Disk(ledgers: map<nat, int>, inUse: set<nat>)

  /** `orphan_work`: the tokens attempt `j` spent itself. */
  function OrphanWork(js: seq<Job>, disk: Disk, j: nat): Option<int> {
    var origin := ResumeOrigin(js, j);
    if origin !in disk.ledgers then None
    else
      var own := disk.ledgers[origin] - A.AncestorTokens(js, j);
      if own <= 0 || origin in disk.inUse then None else Some(own)
  }

  /** The running rows of `list`, suspended where they did work of their
      own. */
  function OrphansSuspended(js: seq<Job>, disk: Disk, list: seq<nat>): (out: seq<Job>)
    requires forall a | 0 <= a < |list| :: list[a] < |js|
    ensures |out| == |js|
    decreases |list|
  {
    if list == [] then js
    else
      var work := OrphanWork(js, disk, list[0]);
      OrphansSuspended(
        if work.Some? then js[list[0] := OrphanSuspended(js[list[0]], work.value)] else js, disk, list[1..])
  }

  function OrphansKilled(js: seq<Job>): (out: seq<Job>)
    ensures |out| == |js|
    ensures forall i | 0 <= i < |js| :: out[i] == if js[i].state.Running? then OrphanKilled(js[i]) else js[i]
  {
    seq(|js|, i requires 0 <= i < |js| => if js[i].state.Running? then OrphanKilled(js[i]) else js[i])
  }

  function StuckRequeued(findings: map<nat, Finding>): (out: map<nat, Finding>)
    ensures out.Keys == findings.Keys
    ensures forall f | f in findings ::
      out[f] == if findings[f].status.Fixing? then findings[f].(status := Queued) else findings[f]
  {
    map f | f in findings :: if findings[f].status.Fixing? then findings[f].(status := Queued) else findings[f]
  }

  /** `reconcile_and_log`. */
  function Recovered(t: T.Tables, disk: Disk): T.Tables {
    t.(jobs := OrphansKilled(OrphansSuspended(t.jobs, disk, InOrder(RunningIds(t.jobs), |t.jobs|))),
       findings := StuckRequeued(t.findings))
  }

  // ------------------------------------------------------------------
  // What it means
  // ------------------------------------------------------------------

  /** The chain's directory holds more than its earlier attempts recorded, and
      no process works in its tree. The directory is the one of the furthest
      link that is looked for. */
  ghost predicate DidWork(js: seq<Job>, disk: Disk, j: nat)
    requires Descending(js) && j < |js|
  {
    var o := Furthest(js, j);
    o in disk.ledgers && o !in disk.inUse && disk.ledgers[o] > A.SpentAbove(js, j, MAX_DEPTH)
  }

  /** What becomes of the running row `j`. */
  ghost predicate OrphanSettled(js: seq<Job>, js': seq<Job>, disk: Disk, j: nat)
    requires Descending(js) && j < |js| && |js'| == |js|
  {
    && (js'[j].state.Suspended? <==> DidWork(js, disk, j))
    && (js'[j].state.Suspended? ==>
          && js'[j] == js[j].(state := Suspended, reason := Some(Orphaned), session := true, tokens := js'[j].tokens)
          && Spent(js'[j]) == disk.ledgers[Furthest(js, j)] - A.SpentAbove(js, j, MAX_DEPTH))
    && (!js'[j].state.Suspended? ==> js'[j] == js[j].(state := Killed, reason := Some(Orphaned)))
  }

  /** Within the cap: the chain's own directory, and all of its attempts. */
  ghost predicate LedgerSettled(js: seq<Job>, js': seq<Job>, disk: Disk, j: nat)
    requires Descending(js) && Descending(js') && j < |js| && |js'| == |js| && Depth(js, j) <= MAX_DEPTH
  {
    var o, before := Origin(js, j), A.ChainSpent(js, j) - Spent(js[j]);
    && (js'[j].state.Suspended? <==> o in disk.ledgers && o !in disk.inUse && disk.ledgers[o] > before)
    && (js'[j].state.Suspended? ==> A.ChainSpent(js', j) == disk.ledgers[o])
  }

  ghost predicate Settled(t: T.Tables, t': T.Tables, disk: Disk)
    requires Descending(t.jobs)
  {
    && |t'.jobs| == |t.jobs| && Descending(t'.jobs) && t'.deleted == t.deleted
    && (forall j: nat | j < |t.jobs| && !t.jobs[j].state.Running? :: t'.jobs[j] == t.jobs[j])
    && (forall j: nat | j < |t.jobs| && t.jobs[j].state.Running? ::
          OrphanSettled(t.jobs, t'.jobs, disk, j)
          && (Depth(t.jobs, j) <= MAX_DEPTH ==> LedgerSettled(t.jobs, t'.jobs, disk, j)))
    && t'.findings.Keys == t.findings.Keys
    && (forall f | f in t.findings :: t'.findings[f]
          == if t.findings[f].status.Fixing? then t.findings[f].(status := Queued) else t.findings[f])
  }

  lemma OrphanWorkExact(js: seq<Job>, disk: Disk, j: nat)
    requires Descending(js) && j < |js|
    ensures OrphanWork(js, disk, j).Some? <==> DidWork(js, disk, j)
    ensures OrphanWork(js, disk, j).Some? ==>
      OrphanWork(js, disk, j).value == disk.ledgers[Furthest(js, j)] - A.SpentAbove(js, j, MAX_DEPTH)
  {
    OriginReached(js, j);
    A.AncestorTokensCapped(js, j);
  }

  lemma {:induction false} InOrderOnly(ids: set<nat>, n: nat, j: nat)
    requires forall i: nat | i < n :: i in ids <==> i == j
    ensures InOrder(ids, n) == if j < n then [j] else []
  {
    if n > 0 { InOrderOnly(ids, n - 1, j); }
  }

  lemma OneSuspended(js: seq<Job>, disk: Disk, c: nat)
    requires c < |js|
    ensures OrphansSuspended(js, disk, [c])
      == if OrphanWork(js, disk, c).Some? then js[c := OrphanSuspended(js[c], OrphanWork(js, disk, c).value)] else js
  {
    assert [c][1..] == [];
  }

  lemma OneKilled(js: seq<Job>, c: nat)
    requires c < |js| && forall i: nat | i < |js| && js[i].state.Running? :: i == c
    ensures OrphansKilled(js) == js[c := if js[c].state.Running? then OrphanKilled(js[c]) else js[c]]
  {}

  /** The jobs after recovery, with one orphan. */
  lemma OneOrphan(t: T.Tables, disk: Disk, c: nat)
    requires W.SingleRunning(t.jobs) && c < |t.jobs| && t.jobs[c].state.Running?
    ensures var work := OrphanWork(t.jobs, disk, c);
      Recovered(t, disk).jobs
        == t.jobs[c := if work.Some? then OrphanSuspended(t.jobs[c], work.value) else OrphanKilled(t.jobs[c])]
  {
    var js := t.jobs;
    assert forall i: nat | i < |js| :: js[i].state.Running? <==> i == c;
    InOrderOnly(RunningIds(js), |js|, c);
    OneSuspended(js, disk, c);
    OneKilled(OrphansSuspended(js, disk, [c]), c);
  }

  lemma NoOrphan(t: T.Tables, disk: Disk)
    requires forall i: nat | i < |t.jobs| :: !t.jobs[i].state.Running?
    ensures Recovered(t, disk).jobs == t.jobs
  {
    var js := t.jobs;
    InOrderOnly(RunningIds(js), |js|, |js|);
  }

  lemma RecoveredJobs(t: T.Tables, disk: Disk, j: nat)
    requires W.SingleRunning(t.jobs) && j < |t.jobs|
    ensures var js' := Recovered(t, disk).jobs;
      && |js'| == |t.jobs|
      && js'[j] == if !t.jobs[j].state.Running? then t.jobs[j]
                   else if OrphanWork(t.jobs, disk, j).Some?
                     then OrphanSuspended(t.jobs[j], OrphanWork(t.jobs, disk, j).value)
                   else OrphanKilled(t.jobs[j])
  {
    if c: nat :| c < |t.jobs| && t.jobs[c].state.Running? {
      OneOrphan(t, disk, c);
    } else {
      NoOrphan(t, disk);
    }
  }

  lemma OrphanIsSettled(t: T.Tables, disk: Disk, j: nat)
    requires Descending(t.jobs) && W.SingleRunning(t.jobs) && j < |t.jobs| && t.jobs[j].state.Running?
    requires |Recovered(t, disk).jobs| == |t.jobs|
    ensures OrphanSettled(t.jobs, Recovered(t, disk).jobs, disk, j)
  {
    RecoveredJobs(t, disk, j);
    OrphanWorkExact(t.jobs, disk, j);
  }

  lemma LedgerIsSettled(t: T.Tables, disk: Disk, j: nat)
    requires Descending(t.jobs) && W.SingleRunning(t.jobs) && j < |t.jobs| && t.jobs[j].state.Running?
    requires Depth(t.jobs, j) <= MAX_DEPTH
    requires var js' := Recovered(t, disk).jobs; |js'| == |t.jobs| && Descending(js')
    ensures LedgerSettled(t.jobs, Recovered(t, disk).jobs, disk, j)
  {
    var js, js' := t.jobs, Recovered(t, disk).jobs;
    OrphanIsSettled(t, disk, j);
    OriginReached(js, j);
    OriginExact(js, j);
    A.SpentAboveAll(js, j, MAX_DEPTH);
    if js[j].resumedFrom.Some? {
      var p := js[j].resumedFrom.value;
      forall i: nat | i <= p ensures js[i] == js'[i] {
        RecoveredJobs(t, disk, i);
        assert i < j;
      }
      A.ChainSpentBelow(js, js', p);
    }
  }

  /** Recovery suspends exactly the orphans that did work of their own, so that
      their chain's record is what its directory says was used; it kills the
      other orphans, returns every claimed finding to the queue, and touches
      nothing else. */
  lemma RecoverySettles(t: T.Tables, disk: Disk)
    requires W.TablesOk(t)
    ensures Settled(t, Recovered(t, disk), disk)
  {
    var t' := Recovered(t, disk);
    forall j: nat | j < |t.jobs| ensures t'.jobs[j].resumedFrom == t.jobs[j].resumedFrom { RecoveredJobs(t, disk, j); }
    forall j: nat | j < |t.jobs| && !t.jobs[j].state.Running? ensures t'.jobs[j] == t.jobs[j] {
      RecoveredJobs(t, disk, j);
    }
    forall j: nat | j < |t.jobs| && t.jobs[j].state.Running?
      ensures OrphanSettled(t.jobs, t'.jobs, disk, j)
      ensures Depth(t.jobs, j) <= MAX_DEPTH ==> LedgerSettled(t.jobs, t'.jobs, disk, j)
    {
      OrphanIsSettled(t, disk, j);
      if Depth(t.jobs, j) <= MAX_DEPTH { LedgerIsSettled(t, disk, j); }
    }
  }
}
