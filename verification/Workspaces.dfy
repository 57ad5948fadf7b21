/** The chain workspaces on disk and the sweep over them
    (hunter-rs/src/workspace.rs), and why the daemon's own loops are runs of
    the state machine. */
module Workspaces {
  import opened Domain
  import opened Chains
  import opened Tables
  import opened World
  import opened Runs
  import opened StoreRows
  import opened Recovery
  import D = DaemonSteps

  /** `SESSION_RETENTION_MS`. */
  const SESSION_RETENTION_MS: int := 30 * 86_400_000

  datatype SweepReport = SweepReport(treesReleased: nat, workspacesRemoved: nat) {
    function Plus(released: bool, removed: bool): SweepReport {
      SweepReport(treesReleased + (if released then 1 else 0), workspacesRemoved + (if removed then 1 else 0))
    }
  }

  predicate Expired(last: Option<int>, now: int) {
    last.Some? && now - last.value > SESSION_RETENTION_MS
  }

  /** The directories under `jobs/`, by origin id, and which of them hold a
      tree. */
  class Workspaces {
    const store: Store
    var dirs: set<nat>
    var trees: set<nat>

    constructor (store: Store)
      ensures this.store == store && dirs == {} && trees == {}
    {
      this.store := store;
      dirs, trees := {}, {};
    }

    ghost predicate Valid()
      reads this
    {
      trees <= dirs
    }

    /** `release_if_idle`: a chain keeps its tree as long as one of its links
        within the depth cap is alive, and loses it otherwise. */
    method ReleaseIfIdle(o: nat) returns (released: bool)
      requires Valid()
      modifies this`trees
      ensures Valid()
      ensures released <==> LiveCount(store.jobs, o) == 0
      ensures trees == if released then old(trees) - {o} else old(trees)
      ensures IsOrigin(store.jobs, o) && HasLiveLink(store.jobs, o) ==> trees == old(trees)
      ensures IsOrigin(store.jobs, o) && !HasLiveLink(store.jobs, o) ==> o !in trees
    {
      if IsOrigin(store.jobs, o) { LiveLinkCounts(store.jobs, o); }
      released := LiveCount(store.jobs, o) == 0;
      if released { trees := trees - {o}; }
    }

    /** One directory of the sweep. */
    method SweepOne(o: nat, last: Option<int>, now: int) returns (released: bool, removed: bool)
      requires Valid() && o in dirs
      modifies this`dirs, this`trees
      ensures Valid()
      ensures released <==> o in old(trees) && LiveCount(store.jobs, o) == 0
      ensures removed <==> LiveCount(store.jobs, o) == 0 && Expired(last, now)
      ensures trees == if LiveCount(store.jobs, o) > 0 then old(trees) else old(trees) - {o}
      ensures dirs == if removed then old(dirs) - {o} else old(dirs)
    {
      if LiveCount(store.jobs, o) > 0 { return false, false; }
      released := o in trees;
      trees := trees - {o};
      removed := Expired(last, now);
      if removed { dirs := dirs - {o}; }
    }

    /** `sweep_chains`: whatever order the directories come in, a chain
        without a live attempt loses its tree, and past the retention its
        whole workspace. `last` is when the chain's newest attempt finished,
        or its directory's age. */
    method SweepChains(last: nat -> Option<int>, now: int) returns (report: SweepReport)
      requires Valid()
      modifies this`dirs, this`trees
      ensures Valid()
      ensures trees == set o | o in old(trees) && LiveCount(store.jobs, o) > 0
      ensures dirs == set o | o in old(dirs) && (LiveCount(store.jobs, o) > 0 || !Expired(last(o), now))
      ensures forall o | o in old(dirs) :: o !in dirs <==>
        LiveCount(store.jobs, o) == 0 && last(o).Some? && last(o).value + SESSION_RETENTION_MS < now
      ensures report == SweepReport(|old(trees) - trees|, |old(dirs) - dirs|)
    {
      ghost var live := LiveDirs(store.jobs, dirs);
      TreesLeft(store.jobs, trees, dirs);
      DirsLeft(store.jobs, dirs, last, now);
      report := SweepDirs(live, last, now);
    }

    /** The loop, told by `live` which chains the status queries find alive. */
    method SweepDirs(ghost live: set<nat>, last: nat -> Option<int>, now: int) returns (report: SweepReport)
      requires Valid() && live == LiveDirs(store.jobs, dirs)
      modifies this`dirs, this`trees
      ensures Valid()
      ensures trees == old(trees) * live && dirs == old(dirs) - AgedDirs(old(dirs), live, last, now)
      ensures report == SweepReport(|old(trees) - trees|, |old(dirs) - dirs|)
    {
      var todo := dirs;
      report := SweepReport(0, 0);
      ghost var stay := dirs - AgedDirs(dirs, live, last, now);
      while todo != {}
        invariant Valid() && todo <= dirs
        invariant SweptSoFar(old(trees), old(dirs), trees, dirs, todo, live, stay, report)
        decreases todo
      {
        var o :| o in todo;
        StaysOrAges(store.jobs, old(dirs), live, last, now, o);
        OneDirSwept(old(trees), old(dirs), trees, dirs, todo, live, stay, report, o);
        var released, removed := SweepOne(o, last(o), now);
        todo := todo - {o};
        report := report.Plus(released, removed);
      }
      SweptOut(old(trees), trees, live);
      SweptOut(old(dirs), dirs, stay);
    }

    /** `sweep`: suspensions nothing will resume are retired first, so that
        they hold no tree. */
    method Sweep(last: nat -> Option<int>, now: int) returns (report: SweepReport)
      requires Valid()
      modifies this`dirs, this`trees, store`jobs
      ensures Valid()
      ensures store.View() == RetireStranded(old(store.View()))
      ensures trees == set o | o in old(trees) && LiveCount(store.jobs, o) > 0
      ensures dirs == set o | o in old(dirs) && (LiveCount(store.jobs, o) > 0 || !Expired(last(o), now))
      ensures forall o | o in old(dirs) :: o !in dirs <==>
        LiveCount(store.jobs, o) == 0 && last(o).Some? && last(o).value + SESSION_RETENTION_MS < now
      ensures report == SweepReport(|old(trees) - trees|, |old(dirs) - dirs|)
    {
      var _ := store.RetireStrandedSuspensions();
      report := SweepChains(last, now);
    }
  }

  /** The first job of a chain. */
  ghost predicate IsOrigin(js: seq<Job>, o: nat) {
    Descending(js) && o < |js| && js[o].resumedFrom.None?
  }

  /** Some link of the chain that begins at `o`, within the depth cap, is
      alive. */
  ghost predicate HasLiveLink(js: seq<Job>, o: nat)
    requires Descending(js)
  {
    exists i: nat :: i < |js| && Live(js, i) && Origin(js, i) == o && Depth(js, i) <= MAX_DEPTH
  }

  lemma LiveLinkCounts(js: seq<Job>, o: nat)
    requires IsOrigin(js, o)
    ensures HasLiveLink(js, o) <==> LiveCount(js, o) > 0
  {
    LiveCountZero(js, o);
    if HasLiveLink(js, o) {
      var i: nat :| i < |js| && Live(js, i) && Origin(js, i) == o && Depth(js, i) <= MAX_DEPTH;
      assert LiveCount(js, o) != 0;
    }
  }

  ghost function LiveDirs(js: seq<Job>, dirs: set<nat>): set<nat> {
    set o | o in dirs && LiveCount(js, o) > 0
  }

  ghost function AgedDirs(dirs: set<nat>, live: set<nat>, last: nat -> Option<int>, now: int): set<nat> {
    set o | o in dirs && o !in live && Expired(last(o), now)
  }

  lemma TreesLeft(js: seq<Job>, trees: set<nat>, dirs: set<nat>)
    requires trees <= dirs
    ensures trees * LiveDirs(js, dirs) == set o | o in trees && LiveCount(js, o) > 0
  {}

  lemma DirsLeft(js: seq<Job>, dirs: set<nat>, last: nat -> Option<int>, now: int)
    ensures dirs - AgedDirs(dirs, LiveDirs(js, dirs), last, now)
      == set o | o in dirs && (LiveCount(js, o) > 0 || !Expired(last(o), now))
  {}

  /** How one directory fares. */
  lemma StaysOrAges(js: seq<Job>, dirs: set<nat>, live: set<nat>, last: nat -> Option<int>, now: int, o: nat)
    requires live == LiveDirs(js, dirs) && o in dirs
    ensures o in live <==> LiveCount(js, o) > 0
    ensures o in AgedDirs(dirs, live, last, now) <==> LiveCount(js, o) == 0 && Expired(last(o), now)
  {}

  /** Of `was` there are left what is still to be looked at and what stays. */
  predicate SweptTo(was: set<nat>, left: set<nat>, todo: set<nat>, stay: set<nat>) {
    left <= was && forall o | o in was :: o in left <==> o in todo || o in stay
  }

  lemma OneSwept(was: set<nat>, left: set<nat>, todo: set<nat>, stay: set<nat>, o: nat)
    requires SweptTo(was, left, todo, stay) && o in todo
    ensures SweptTo(was, if o in stay then left else left - {o}, todo - {o}, stay)
    ensures |was - (left - {o})| == |was - left| + if o in left then 1 else 0
    ensures o !in left ==> left - {o} == left
  {
    if o in left { assert was - (left - {o}) == (was - left) + {o}; } else { assert left - {o} == left; }
  }

  predicate SweptSoFar(
      trees0: set<nat>, dirs0: set<nat>, trees: set<nat>, dirs: set<nat>,
      todo: set<nat>, live: set<nat>, stay: set<nat>,
      report: SweepReport) {
    && SweptTo(trees0, trees, todo, live) && SweptTo(dirs0, dirs, todo, stay)
    && report == SweepReport(|trees0 - trees|, |dirs0 - dirs|)
  }

  /** One directory, for the trees, the workspaces and the report. */
  lemma OneDirSwept(
      trees0: set<nat>, dirs0: set<nat>, trees: set<nat>, dirs: set<nat>,
      todo: set<nat>, live: set<nat>, stay: set<nat>,
      report: SweepReport, o: nat)
    requires SweptSoFar(trees0, dirs0, trees, dirs, todo, live, stay, report) && o in todo && o in dirs
    ensures SweptSoFar(trees0, dirs0, if o in live then trees else trees - {o}, if o in stay then dirs else dirs - {o},
                       todo - {o}, live, stay, report.Plus(o !in live && o in trees, o !in stay))
  {
    OneSwept(trees0, trees, todo, live, o);
    OneSwept(dirs0, dirs, todo, stay, o);
  }

  lemma SweptOut(was: set<nat>, left: set<nat>, stay: set<nat>)
    requires SweptTo(was, left, {}, stay)
    ensures left == was * stay
  {}

  // ------------------------------------------------------------------
  // The loops are runs
  // ------------------------------------------------------------------

  function KeptTrees(js: seq<Job>, trees: set<nat>): set<nat> {
    set o | o in trees && LiveCount(js, o) > 0
  }

  lemma {:induction false} ReleasesAreRun(w: World) returns (xs: seq<Step>, lost: set<nat>)
    requires w.phase.Sweeping?
    ensures After(w, xs) == Some(w.(trees := KeptTrees(w.t.jobs, w.trees), lost := lost))
    decreases |w.trees|
  {
    if o :| o in w.trees && LiveCount(w.t.jobs, o) == 0 {
      var x := Daemon(D.Release(o));
      var w1 := Next(w, x);
      var ys;
      ys, lost := ReleasesAreRun(w1);
      xs := [x] + ys;
      StepThen(w, x, ys);
      assert KeptTrees(w.t.jobs, w1.trees) == KeptTrees(w.t.jobs, w.trees);
    } else {
      xs, lost := [], w.lost;
      assert KeptTrees(w.t.jobs, w.trees) == w.trees;
      assert w.(trees := KeptTrees(w.t.jobs, w.trees), lost := lost) == w;
    }
  }

  /** What `Sweep` does is a run from the state before it to the end of the
      sweep. */
  lemma SweepIsRun(w: World) returns (xs: seq<Step>, w': World)
    requires w.phase.Down? || w.phase.Reconciled?
    ensures After(w, xs) == Some(w')
    ensures w'.t == RetireStranded(w.t) && w'.trees == KeptTrees(w'.t.jobs, w.trees)
    ensures w'.phase == if w.phase.Down? then Between else Ready
  {
    var x := Daemon(D.SweepStart);
    var w1 := Next(w, x);
    var ys, lost := ReleasesAreRun(w1);
    var w2 := w1.(trees := KeptTrees(w1.t.jobs, w1.trees), lost := lost);
    var z := Daemon(D.SweepEnd);
    assert After(w1, ys) == Some(w2) && Enabled(w2, z);
    RunsCompose(w1, ys, [z]);
    w' := Next(w2, z);
    StepThen(w2, z, []);
    assert [z] + [] == [z] && After(w', []) == Some(w');
    xs := [x] + (ys + [z]);
    StepThen(w, x, ys + [z]);
  }

  lemma {:induction false} SuspensionsAreRun(w: World, disk: Disk, list: seq<nat>) returns (xs: seq<Step>)
    requires w.phase.Between?
    requires (forall a | 0 <= a < |list| :: list[a] < |w.t.jobs| && w.t.jobs[list[a]].state.Running?)
    requires forall a, b | 0 <= a < b < |list| :: list[a] < list[b]
    ensures After(w, xs) == Some(w.(t := w.t.(jobs := OrphansSuspended(w.t.jobs, disk, list))))
    decreases |list|
  {
    if list == [] {
      xs := [];
      assert w.(t := w.t.(jobs := w.t.jobs)) == w;
    } else {
      var work := OrphanWork(w.t.jobs, disk, list[0]);
      if work.Some? {
        var x := Daemon(D.SuspendOrphan(list[0], work.value));
        var w1 := Next(w, x);
        var ys := SuspensionsAreRun(w1, disk, list[1..]);
        xs := [x] + ys;
        StepThen(w, x, ys);
      } else {
        xs := SuspensionsAreRun(w, disk, list[1..]);
      }
    }
  }

  lemma {:induction false} KillsAreRun(w: World) returns (xs: seq<Step>)
    requires w.phase.Between?
    ensures After(w, xs) == Some(w.(t := w.t.(jobs := OrphansKilled(w.t.jobs))))
    decreases |RunningIds(w.t.jobs)|
  {
    if j :| j in RunningIds(w.t.jobs) {
      var x := Daemon(D.KillOrphan(j));
      var w1 := Next(w, x);
      assert RunningIds(w1.t.jobs) == RunningIds(w.t.jobs) - {j};
      var ys := KillsAreRun(w1);
      xs := [x] + ys;
      StepThen(w, x, ys);
      assert OrphansKilled(w1.t.jobs) == OrphansKilled(w.t.jobs);
    } else {
      xs := [];
      forall i: nat | i < |w.t.jobs| ensures !w.t.jobs[i].state.Running? { assert i !in RunningIds(w.t.jobs); }
      assert OrphansKilled(w.t.jobs) == w.t.jobs;
      assert w.(t := w.t.(jobs := w.t.jobs)) == w;
    }
  }

  lemma {:induction false} RequeuesAreRun(w: World) returns (xs: seq<Step>)
    requires w.phase.Between?
    ensures After(w, xs) == Some(w.(t := w.t.(findings := StuckRequeued(w.t.findings))))
    decreases |FixingIds(w.t.findings)|
  {
    if f :| f in FixingIds(w.t.findings) {
      var x := Daemon(D.RequeueStuck(f));
      var w1 := Next(w, x);
      assert FixingIds(w1.t.findings) == FixingIds(w.t.findings) - {f};
      var ys := RequeuesAreRun(w1);
      xs := [x] + ys;
      StepThen(w, x, ys);
      assert StuckRequeued(w1.t.findings) == StuckRequeued(w.t.findings);
    } else {
      xs := [];
      assert forall f | f in w.t.findings :: f !in FixingIds(w.t.findings);
      assert StuckRequeued(w.t.findings) == w.t.findings;
      assert w.(t := w.t.(findings := w.t.findings)) == w;
    }
  }

  lemma ReconcileEnds(w: World, disk: Disk)
    requires w.phase.Between?
    ensures After(w.(t := Recovered(w.t, disk)), [Daemon(D.ReconcileEnd)])
      == Some(w.(t := Recovered(w.t, disk), phase := Reconciled))
  {
    var w3 := w.(t := Recovered(w.t, disk));
    assert D.Enabled(w3, D.ReconcileEnd);
    StepThen(w3, Daemon(D.ReconcileEnd), []);
    assert [Daemon(D.ReconcileEnd)] + [] == [Daemon(D.ReconcileEnd)];
  }

  /** What `ReconcileAndLog` does is a run that leaves nothing running and
      nothing claimed. */
  lemma RecoveryIsRun(w: World, disk: Disk) returns (xs: seq<Step>)
    requires w.phase.Between?
    ensures After(w, xs) == Some(w.(t := Recovered(w.t, disk), phase := Reconciled))
  {
    var list := InOrder(RunningIds(w.t.jobs), |w.t.jobs|);
    forall a | 0 <= a < |list| ensures list[a] < |w.t.jobs| && w.t.jobs[list[a]].state.Running? {
      assert list[a] in list;
    }
    var xs1 := SuspensionsAreRun(w, disk, list);
    var w1 := w.(t := w.t.(jobs := OrphansSuspended(w.t.jobs, disk, list)));
    var xs2 := KillsAreRun(w1);
    var w2 := w1.(t := w1.t.(jobs := OrphansKilled(w1.t.jobs)));
    var xs3 := RequeuesAreRun(w2);
    var w3 := w.(t := Recovered(w.t, disk));
    assert w2.(t := w2.t.(findings := StuckRequeued(w2.t.findings))) == w3;
    ReconcileEnds(w, disk);
    RunThenRun(w, xs1, w1, xs2, w2);
    RunThenRun(w, xs1 + xs2, w2, xs3, w3);
    xs := xs1 + xs2 + xs3 + [Daemon(D.ReconcileEnd)];
    RunThenRun(w, xs1 + xs2 + xs3, w3, [Daemon(D.ReconcileEnd)], w3.(phase := Reconciled));
  }
}
