/** The rotation of repo scans: which one a cycle takes, and why none starves
    (hunter-rs/src/scheduler.rs). Times are milliseconds. */
module Rotation {
  import opened Domain

  /** A row of `repos` as the rotation reads it. A kind that `last` lacks has
      never run; `requested` and `attempted` are the full re-hunt request and
      the one a hunt last attempted. */
  datatype Repo = Repo(
    enabled: bool,
    cloned: bool,
    last: map<JobKind, int>,
    requested: Option<nat>,
    attempted: Option<nat>)

  datatype Intervals = Intervals(scan: int, modernization: int, standards: int)

  /** The order that breaks ties. */
  const KINDS: seq<JobKind> := [Hunt, TestGap, DepUpdate, Refactor, Modernization, Standards]

  function IntervalOf(iv: Intervals, k: JobKind): int {
    if k.Modernization? then iv.modernization else if k.Standards? then iv.standards else iv.scan
  }

  function LastAt(r: Repo, k: JobKind): int {
    if k in r.last then r.last[k] else 0
  }

  predicate Due(iv: Intervals, r: Repo, k: JobKind, now: int) {
    LastAt(r, k) == 0 || now - LastAt(r, k) >= IntervalOf(iv, k)
  }

  /** `full_hunt_urgent`. */
  predicate Urgent(r: Repo) {
    r.requested.Some? && r.requested != r.attempted
  }

  // ------------------------------------------------------------------
  // Within one repo
  // ------------------------------------------------------------------

  /** Whether the scan `a` goes before the scan `b`: one that never ran before
      one that did, then the older run; ties keep the order of the list. */
  predicate Sooner(r: Repo, a: JobKind, b: JobKind) {
    if LastAt(r, b) == 0 then false else LastAt(r, a) == 0 || LastAt(r, a) < LastAt(r, b)
  }

  /** Where the due scan that goes first is among the first `n` kinds. */
  function PickFrom(iv: Intervals, r: Repo, now: int, n: nat): (k: Option<nat>)
    requires n <= |KINDS|
    ensures k.Some? ==> k.value < n && Due(iv, r, KINDS[k.value], now)
  {
    if n == 0 then None
    else
      var k := PickFrom(iv, r, now, n - 1);
      if Due(iv, r, KINDS[n - 1], now) && (k.None? || Sooner(r, KINDS[n - 1], KINDS[k.value])) then Some(n - 1) else k
  }

  function RotationKind(iv: Intervals, r: Repo, now: int): Option<JobKind> {
    var k := PickFrom(iv, r, now, |KINDS|);
    if k.Some? then Some(KINDS[k.value]) else None
  }

  /** The pick is the first of the due scans that no other goes before, and
      there is one whenever a scan is due. */
  lemma {:induction false} PickIsFirst(iv: Intervals, r: Repo, now: int, n: nat)
    requires n <= |KINDS|
    ensures PickFrom(iv, r, now, n).None? <==> forall i | 0 <= i < n :: !Due(iv, r, KINDS[i], now)
    ensures PickFrom(iv, r, now, n).Some? ==>
      (var k := PickFrom(iv, r, now, n).value;
      && (forall i | 0 <= i < n && Due(iv, r, KINDS[i], now) :: !Sooner(r, KINDS[i], KINDS[k]))
      && (forall i | 0 <= i < k && Due(iv, r, KINDS[i], now) :: Sooner(r, KINDS[k], KINDS[i])))
  {
    if n > 0 { PickIsFirst(iv, r, now, n - 1); }
  }

  /** Where a kind of scan stands in the order that breaks ties. */
  function Turn(k: JobKind): nat {
    match k
    case Hunt => 0
    case TestGap => 1
    case DepUpdate => 2
    case Refactor => 3
    case Modernization => 4
    case Standards => 5
    case _ => 6
  }

  /** Never run, or run at least its interval ago: modernization and standards
      have intervals of their own. */
  predicate IsDue(iv: Intervals, r: Repo, k: JobKind, now: int) {
    && Turn(k) < 6
    && (|| k !in r.last || r.last[k] == 0
        || r.last[k] + (match k case Modernization => iv.modernization case Standards => iv.standards case _ => iv.scan)
           <= now)
  }

  /** One that never ran goes before one that did, then the longer ago; the
      list decides the rest. */
  predicate GoesBefore(r: Repo, a: JobKind, b: JobKind) {
    var x, y := if a in r.last then r.last[a] else 0, if b in r.last then r.last[b] else 0;
    if x == 0 || y == 0 then (x == 0 && y != 0) || (x == 0 && y == 0 && Turn(a) < Turn(b))
    else x < y || (x == y && Turn(a) < Turn(b))
  }

  lemma TurnsAreKinds(iv: Intervals, r: Repo, k: JobKind, now: int)
    ensures Turn(k) < |KINDS| ==> KINDS[Turn(k)] == k
    ensures forall i | 0 <= i < |KINDS| :: Turn(KINDS[i]) == i
    ensures IsDue(iv, r, k, now) <==> Turn(k) < |KINDS| && Due(iv, r, k, now)
  {}

  /** A repo's scan is the due one that goes before every other due one. */
  lemma KindExact(iv: Intervals, r: Repo, now: int, k: JobKind)
    ensures RotationKind(iv, r, now) == Some(k) <==>
      && IsDue(iv, r, k, now)
      && forall m | IsDue(iv, r, m, now) && m != k :: GoesBefore(r, k, m)
  {
    PickIsFirst(iv, r, now, |KINDS|);
    forall m ensures Turn(m) < |KINDS| ==> KINDS[Turn(m)] == m
      ensures IsDue(iv, r, m, now) <==> Turn(m) < |KINDS| && Due(iv, r, m, now) {
      TurnsAreKinds(iv, r, m, now);
    }
    TurnsAreKinds(iv, r, k, now);
    var p := PickFrom(iv, r, now, |KINDS|);
    if p.Some? {
      var c := KINDS[p.value];
      forall m | IsDue(iv, r, m, now) && m != c ensures GoesBefore(r, c, m) {
        assert Due(iv, r, KINDS[Turn(m)], now);
      }
    }
  }

  /** The due scans in one list, with their last runs. */
  predicate DueTimes(iv: Intervals, r: Repo, now: int, times: seq<(nat, int)>, n: nat)
    requires n <= |KINDS|
  {
    && (forall e | 0 <= e < |times| ::
         times[e].0 < n && Due(iv, r, KINDS[times[e].0], now) && times[e].1 == LastAt(r, KINDS[times[e].0]))
    && (forall d, e | 0 <= d < e < |times| :: times[d].0 < times[e].0)
    && (forall k | 0 <= k < n && Due(iv, r, KINDS[k], now) :: (k, LastAt(r, KINDS[k])) in times)
  }

  /** The entry that goes first: one that never ran before all others, or
      else the oldest. */
  predicate GoesFirst(times: seq<(nat, int)>, b: nat) {
    && b < |times|
    && (times[b].1 != 0 ==> forall e | 0 <= e < |times| :: times[e].1 != 0 && times[b].1 <= times[e].1)
    && (forall e | 0 <= e < b :: times[e].1 != 0 && times[b].1 != times[e].1)
  }

  lemma PickIsListed(iv: Intervals, r: Repo, now: int, times: seq<(nat, int)>) returns (e: nat)
    requires DueTimes(iv, r, now, times, |KINDS|) && times != []
    ensures PickFrom(iv, r, now, |KINDS|).Some? && e < |times|
    ensures times[e].0 == PickFrom(iv, r, now, |KINDS|).value && times[e].1 == LastAt(r, KINDS[times[e].0])
  {
    PickIsFirst(iv, r, now, |KINDS|);
    assert times[0].0 < |KINDS| && Due(iv, r, KINDS[times[0].0], now);
    var k := PickFrom(iv, r, now, |KINDS|).value;
    e :| 0 <= e < |times| && times[e] == (k, LastAt(r, KINDS[k]));
  }

  /** That entry of such a list is the pick. */
  lemma FirstEntryIsPick(iv: Intervals, r: Repo, now: int, times: seq<(nat, int)>, b: nat)
    requires DueTimes(iv, r, now, times, |KINDS|) && GoesFirst(times, b)
    ensures times[b].0 < |KINDS| && RotationKind(iv, r, now) == Some(KINDS[times[b].0])
  {
    var e := PickIsListed(iv, r, now, times);
    PickIsFirst(iv, r, now, |KINDS|);
    assert times[b].0 < |KINDS| && Due(iv, r, KINDS[times[b].0], now);
    assert !(b < e);
    assert !(e < b);
  }

  /** The due scans, in the order of the list. */
  method CollectDue(iv: Intervals, r: Repo, now: int) returns (times: seq<(nat, int)>)
    ensures DueTimes(iv, r, now, times, |KINDS|)
  {
    times := [];
    for i := 0 to |KINDS|
      invariant DueTimes(iv, r, now, times, i)
    {
      var last := LastAt(r, KINDS[i]);
      if last == 0 || now - last >= IntervalOf(iv, KINDS[i]) {
        times := times + [(i, last)];
      }
    }
  }

  method FirstNeverRun(times: seq<(nat, int)>) returns (b: Option<nat>)
    ensures b.Some? ==> GoesFirst(times, b.value)
    ensures b.None? ==> forall e | 0 <= e < |times| :: times[e].1 != 0
  {
    for i := 0 to |times|
      invariant forall e | 0 <= e < i :: times[e].1 != 0
    {
      if times[i].1 == 0 { return Some(i); }
    }
    b := None;
  }

  method FirstOldest(times: seq<(nat, int)>) returns (b: nat)
    requires times != [] && forall e | 0 <= e < |times| :: times[e].1 != 0
    ensures GoesFirst(times, b)
  {
    b := 0;
    for i := 1 to |times|
      invariant 0 <= b < i
      invariant forall e | 0 <= e < i :: times[b].1 <= times[e].1
      invariant forall e | 0 <= e < b :: times[b].1 < times[e].1
    {
      if times[i].1 < times[b].1 { b := i; }
    }
  }

  /** `rotation_kind` as it runs: the due scans in one list, then the first
      that never ran, or else the first of the oldest. */
  method FindRotationKind(iv: Intervals, r: Repo, now: int) returns (kind: Option<JobKind>)
    ensures kind == RotationKind(iv, r, now)
  {
    var times := CollectDue(iv, r, now);
    if times == [] {
      PickIsFirst(iv, r, now, |KINDS|);
      return None;
    }
    var b := FirstNeverRun(times);
    if b.None? {
      var oldest := FirstOldest(times);
      b := Some(oldest);
    }
    FirstEntryIsPick(iv, r, now, times, b.value);
    kind := Some(KINDS[times[b.value].0]);
  }

  // ------------------------------------------------------------------
  // Among the repos
  // ------------------------------------------------------------------

  /** Whether repo `a` is strictly ahead of repo `b`. */
  predicate Ahead(a: Repo, b: Repo) {
    if Urgent(a) != Urgent(b) then Urgent(a)
    else if (Hunt in a.last) != (Hunt in b.last) then Hunt !in a.last
    else LastAt(a, Hunt) < LastAt(b, Hunt)
  }

  predicate Indices(rs: seq<Repo>, order: seq<nat>) {
    forall a | 0 <= a < |order| :: order[a] < |rs|
  }

  /** Insertion keeps equal repos in order. */
  function InsertRepo(rs: seq<Repo>, order: seq<nat>, i: nat): (out: seq<nat>)
    requires i < |rs| && Indices(rs, order)
    ensures forall x :: x in out <==> x == i || x in order
    ensures Indices(rs, out)
  {
    if order == [] then [i]
    else if Ahead(rs[i], rs[order[|order| - 1]])
    then InsertRepo(rs, order[..|order| - 1], i) + [order[|order| - 1]]
    else order + [i]
  }

  /** The enabled repos, or the forced one, in staleness order. */
  function StalenessOrder(rs: seq<Repo>, force: Option<nat>, n: nat): (out: seq<nat>)
    requires n <= |rs|
    ensures forall x: nat :: x in out <==> x < n && Eligible(rs, force, x)
    ensures Indices(rs, out)
  {
    if n == 0 then []
    else if Eligible(rs, force, n - 1) then InsertRepo(rs, StalenessOrder(rs, force, n - 1), n - 1)
    else StalenessOrder(rs, force, n - 1)
  }

  predicate Eligible(rs: seq<Repo>, force: Option<nat>, i: nat)
    requires i < |rs|
  {
    if force.Some? then i == force.value else rs[i].enabled
  }

  /** What one repo has to offer. */
  function Offer(iv: Intervals, r: Repo, now: int): Option<JobKind> {
    if !r.cloned || Urgent(r) then Some(Hunt) else RotationKind(iv, r, now)
  }

  function FirstOffer(iv: Intervals, rs: seq<Repo>, order: seq<nat>, now: int): (c: Option<(nat, JobKind)>)
    requires Indices(rs, order)
    ensures c.Some? ==> c.value.0 in order && c.value.0 < |rs| && Offer(iv, rs[c.value.0], now) == Some(c.value.1)
    ensures c.None? ==> forall a | 0 <= a < |order| :: Offer(iv, rs[order[a]], now).None?
  {
    if order == [] then None
    else if Offer(iv, rs[order[0]], now).Some? then Some((order[0], Offer(iv, rs[order[0]], now).value))
    else FirstOffer(iv, rs, order[1..], now)
  }

  /** The rotation tier of `select`. */
  function PickScan(iv: Intervals, rs: seq<Repo>, force: Option<nat>, now: int): Option<(nat, JobKind)> {
    FirstOffer(iv, rs, StalenessOrder(rs, force, |rs|), now)
  }

  predicate InOrder(rs: seq<Repo>, order: seq<nat>) {
    && Indices(rs, order)
    && (forall i, j | 0 <= i < j < |order| :: !Ahead(rs[order[j]], rs[order[i]]))
  }

  lemma {:induction false} InsertKeepsOrder(rs: seq<Repo>, order: seq<nat>, i: nat)
    requires i < |rs| && InOrder(rs, order)
    ensures InOrder(rs, InsertRepo(rs, order, i))
  {
    if order != [] && Ahead(rs[i], rs[order[|order| - 1]]) {
      var init, last := order[..|order| - 1], order[|order| - 1];
      InsertKeepsOrder(rs, init, i);
      var out := InsertRepo(rs, order, i);
      forall a, b | 0 <= a < b < |out| ensures !Ahead(rs[out[b]], rs[out[a]]) {
        if b == |out| - 1 {
          assert out[a] in InsertRepo(rs, init, i);
          if out[a] != i {
            var x :| 0 <= x < |init| && init[x] == out[a];
            assert order[x] == out[a];
          }
        }
      }
    } else if order != [] {
      var out := order + [i];
      forall a, b | 0 <= a < b < |out| ensures !Ahead(rs[out[b]], rs[out[a]]) {
        if b == |out| - 1 && a < |order| - 1 {
          assert !Ahead(rs[order[|order| - 1]], rs[order[a]]);
        }
      }
    }
  }

  lemma {:induction false} OrderSorted(rs: seq<Repo>, force: Option<nat>, n: nat)
    requires n <= |rs|
    ensures InOrder(rs, StalenessOrder(rs, force, n))
  {
    if n > 0 {
      OrderSorted(rs, force, n - 1);
      if Eligible(rs, force, n - 1) { InsertKeepsOrder(rs, StalenessOrder(rs, force, n - 1), n - 1); }
    }
  }

  lemma {:induction false} FirstOfferIsAhead(iv: Intervals, rs: seq<Repo>, order: seq<nat>, now: int, x: nat)
    requires InOrder(rs, order) && x in order && x < |rs| && Offer(iv, rs[x], now).Some?
    ensures FirstOffer(iv, rs, order, now).Some?
    ensures !Ahead(rs[x], rs[FirstOffer(iv, rs, order, now).value.0])
  {
    if order[0] != x {
      if Offer(iv, rs[order[0]], now).None? {
        assert forall y | y in order[1..] :: y in order;
        FirstOfferIsAhead(iv, rs, order[1..], now, x);
      } else {
        var k :| 0 < k < |order| && order[k] == x;
      }
    }
  }

  /** The rotation takes a scan whenever an eligible repo has one to offer,
      and of those repos one that no other is ahead of. An urgent re-hunt is
      ahead of everything, whatever the intervals say. */
  lemma RotationServesStalest(iv: Intervals, rs: seq<Repo>, force: Option<nat>, now: int, x: nat)
    requires x < |rs| && Eligible(rs, force, x) && Offer(iv, rs[x], now).Some?
    ensures PickScan(iv, rs, force, now).Some?
    ensures var (i, k) := PickScan(iv, rs, force, now).value;
      && i < |rs| && Eligible(rs, force, i) && Offer(iv, rs[i], now) == Some(k) && !Ahead(rs[x], rs[i])
      && (Urgent(rs[x]) ==> Urgent(rs[i]) && k.Hunt?)
  {
    OrderSorted(rs, force, |rs|);
    FirstOfferIsAhead(iv, rs, StalenessOrder(rs, force, |rs|), now, x);
  }

  /** Before another repo in the staleness order: an urgent re-hunt first, then
      the repos never hunted, then the longest since; the list decides the
      rest. */
  predicate RepoBefore(rs: seq<Repo>, i: nat, x: nat)
    requires i < |rs| && x < |rs|
  {
    var a, b := rs[i], rs[x];
    var ua, ub := a.requested.Some? && a.requested != a.attempted, b.requested.Some? && b.requested != b.attempted;
    if ua != ub then ua
    else if Hunt in a.last && Hunt in b.last && a.last[Hunt] != b.last[Hunt] then a.last[Hunt] < b.last[Hunt]
    else if (Hunt in a.last) != (Hunt in b.last) then Hunt !in a.last
    else i < x
  }

  predicate StrictlyOrdered(rs: seq<Repo>, order: seq<nat>) {
    && Indices(rs, order)
    && (forall a, b | 0 <= a < b < |order| :: RepoBefore(rs, order[a], order[b]))
  }

  lemma AheadIsBefore(rs: seq<Repo>, i: nat, x: nat)
    requires i < |rs| && x < |rs| && i != x
    ensures RepoBefore(rs, i, x) <==> Ahead(rs[i], rs[x]) || (!Ahead(rs[x], rs[i]) && i < x)
  {}

  lemma BeforeIsTransitive(rs: seq<Repo>, i: nat, x: nat, y: nat)
    requires i < |rs| && x < |rs| && y < |rs| && RepoBefore(rs, i, x) && RepoBefore(rs, x, y)
    ensures RepoBefore(rs, i, y)
  {}

  lemma {:induction false} InsertKeepsStrict(rs: seq<Repo>, order: seq<nat>, i: nat)
    requires i < |rs| && StrictlyOrdered(rs, order) && forall x | x in order :: x < i
    ensures StrictlyOrdered(rs, InsertRepo(rs, order, i))
    decreases |order|
  {
    if order != [] {
      var init, last := order[..|order| - 1], order[|order| - 1];
      assert last in order;
      AheadIsBefore(rs, i, last);
      AheadIsBefore(rs, last, i);
      if Ahead(rs[i], rs[last]) {
        assert forall x | x in init :: x in order;
        InsertKeepsStrict(rs, init, i);
        var front := InsertRepo(rs, init, i);
        forall a | 0 <= a < |front| ensures RepoBefore(rs, front[a], last) {
          assert front[a] in front;
          if front[a] != i {
            var b :| 0 <= b < |init| && init[b] == front[a];
            assert order[b] == front[a];
          }
        }
      } else {
        forall a | 0 <= a < |order| ensures RepoBefore(rs, order[a], i) {
          if a < |order| - 1 { BeforeIsTransitive(rs, order[a], last, i); }
        }
      }
    }
  }

  lemma {:induction false} OrderStrict(rs: seq<Repo>, force: Option<nat>, n: nat)
    requires n <= |rs|
    ensures StrictlyOrdered(rs, StalenessOrder(rs, force, n))
  {
    if n > 0 {
      OrderStrict(rs, force, n - 1);
      if Eligible(rs, force, n - 1) { InsertKeepsStrict(rs, StalenessOrder(rs, force, n - 1), n - 1); }
    }
  }

  lemma {:induction false} FirstOfferStrict(iv: Intervals, rs: seq<Repo>, order: seq<nat>, now: int, x: nat)
    requires StrictlyOrdered(rs, order) && x in order && x < |rs| && Offer(iv, rs[x], now).Some?
    ensures var c := FirstOffer(iv, rs, order, now);
      c.Some? && (c.value.0 == x || RepoBefore(rs, c.value.0, x))
    decreases |order|
  {
    if Offer(iv, rs[order[0]], now).None? {
      var k :| 0 <= k < |order| && order[k] == x;
      assert order[1..][k - 1] == x;
      forall a, b | 0 <= a < b < |order[1..]| ensures RepoBefore(rs, order[1..][a], order[1..][b]) {
        assert order[1..][a] == order[a + 1] && order[1..][b] == order[b + 1];
      }
      FirstOfferStrict(iv, rs, order[1..], now, x);
    } else {
      var k :| 0 <= k < |order| && order[k] == x;
    }
  }

  /** What a repo has to offer: a hunt if it has yet to be cloned or a full
      re-hunt was asked for and not attempted, else its own rotation's scan. */
  predicate Offers(iv: Intervals, r: Repo, now: int, k: JobKind) {
    if !r.cloned || (r.requested.Some? && r.requested != r.attempted) then k.Hunt?
    else RotationKind(iv, r, now) == Some(k)
  }

  /** The rotation's pick: of the enabled repos - or of the one asked for - the
      first in the staleness order that has anything to offer. */
  lemma PickScanExact(iv: Intervals, rs: seq<Repo>, force: Option<nat>, now: int, i: nat, k: JobKind)
    ensures PickScan(iv, rs, force, now) == Some((i, k)) <==>
      && i < |rs| && (if force.Some? then i == force.value else rs[i].enabled) && Offers(iv, rs[i], now, k)
      && forall x: nat, m | x < |rs| && x != i && (if force.Some? then x == force.value else rs[x].enabled)
                            && Offers(iv, rs[x], now, m) ::
           RepoBefore(rs, i, x)
  {
    var order := StalenessOrder(rs, force, |rs|);
    OrderStrict(rs, force, |rs|);
    forall x: nat, m | x < |rs| ensures Offers(iv, rs[x], now, m) <==> Offer(iv, rs[x], now) == Some(m) {}
    forall x: nat, m | x < |rs| && Eligible(rs, force, x) && Offers(iv, rs[x], now, m)
      ensures var c := PickScan(iv, rs, force, now);
        c.Some? && (c.value.0 == x || RepoBefore(rs, c.value.0, x))
    {
      FirstOfferStrict(iv, rs, order, now, x);
    }
    var c := PickScan(iv, rs, force, now);
    if c.Some? && i < |rs| && c.value.0 != i { assert RepoBefore(rs, i, c.value.0) ==> !RepoBefore(rs, c.value.0, i); }
  }

  // ------------------------------------------------------------------
  // No scan starves
  // ------------------------------------------------------------------

  /** `set_last_kind_at`. */
  function Bumped(rs: seq<Repo>, i: nat, k: JobKind, now: int): seq<Repo>
    requires i < |rs|
  {
    rs[i := rs[i].(last := rs[i].last[k := now])]
  }

  /** `mark_full_hunt_attempted` with the request that was pending. */
  function Attempted(rs: seq<Repo>, i: nat): seq<Repo>
    requires i < |rs|
  {
    if rs[i].requested.Some? then rs[i := rs[i].(attempted := rs[i].requested)] else rs
  }

  /** How many of the first `n` scans of `r` are due. */
  function DueKinds(iv: Intervals, r: Repo, now: int, n: nat): nat
    requires n <= |KINDS|
  {
    if n == 0 then 0 else DueKinds(iv, r, now, n - 1) + if Due(iv, r, KINDS[n - 1], now) then 1 else 0
  }

  /** The due scans of one cloned repo, and its urgent re-hunt. */
  function Load(iv: Intervals, r: Repo, now: int): nat {
    if r.cloned then DueKinds(iv, r, now, |KINDS|) + (if Urgent(r) then 1 else 0) else 0
  }

  function Backlog(iv: Intervals, rs: seq<Repo>, now: int): nat {
    if rs == [] then 0 else Backlog(iv, rs[..|rs| - 1], now) + Load(iv, rs[|rs| - 1], now)
  }

  lemma {:induction false} BacklogAt(iv: Intervals, rs: seq<Repo>, now: int, i: nat, r: Repo)
    requires i < |rs|
    ensures Backlog(iv, rs[i := r], now) == Backlog(iv, rs, now) - Load(iv, rs[i], now) + Load(iv, r, now)
  {
    var rs' := rs[i := r];
    if i == |rs| - 1 {
      assert rs'[..|rs| - 1] == rs[..|rs| - 1];
    } else {
      assert rs'[..|rs| - 1] == rs[..|rs| - 1][i := r];
      BacklogAt(iv, rs[..|rs| - 1], now, i, r);
    }
  }

  lemma KindsDistinct()
    ensures forall i, j | 0 <= i < j < |KINDS| :: KINDS[i] != KINDS[j]
  {}

  /** Running a scan takes exactly that scan off the list, when it was due,
      for as long as its interval lasts. */
  lemma {:induction false} BumpCounts(iv: Intervals, r: Repo, x: nat, ran: int, now: int, n: nat)
    requires n <= |KINDS| && x < |KINDS| && ran > 0 && now - ran < IntervalOf(iv, KINDS[x])
    ensures DueKinds(iv, r.(last := r.last[KINDS[x] := ran]), now, n)
      == DueKinds(iv, r, now, n) - if x < n && Due(iv, r, KINDS[x], now) then 1 else 0
  {
    KindsDistinct();
    if n > 0 { BumpCounts(iv, r, x, ran, now, n - 1); }
  }

  lemma PickedIsKind(iv: Intervals, r: Repo, now: int) returns (x: nat)
    requires Offer(iv, r, now).Some?
    ensures x < |KINDS| && KINDS[x] == Offer(iv, r, now).value
    ensures r.cloned && !Urgent(r) ==> Due(iv, r, KINDS[x], now)
  {
    if !r.cloned || Urgent(r) { x := 0; } else { x := PickFrom(iv, r, now, |KINDS|).value; }
  }

  /** The rows after a rotation attempt at `(i, k)` that ended or crashed.
      `marked` says whether a hunt got as far as marking the request. */
  function Served(rs: seq<Repo>, i: nat, k: JobKind, now: int, marked: bool): seq<Repo>
    requires i < |rs|
  {
    Bumped(if k.Hunt? && marked then Attempted(rs, i) else rs, i, k, now)
  }

  /** With the clock held, a rotation attempt that ended or crashed shrinks
      the backlog - exactly unless it was an urgent re-hunt that crashed
      before it marked its request, on a repo whose hunt was not due. */
  lemma AttemptShrinksBacklog(iv: Intervals, rs: seq<Repo>, force: Option<nat>, now: int, marked: bool)
    requires now > 0 && forall k :: IntervalOf(iv, k) > 0
    requires PickScan(iv, rs, force, now).Some?
    ensures var (i, k) := PickScan(iv, rs, force, now).value;
      && i < |rs|
      && (rs[i].cloned ==>
        (Backlog(iv, Served(rs, i, k, now, marked), now) < Backlog(iv, rs, now) <==>
           marked || !Urgent(rs[i]) || Due(iv, rs[i], Hunt, now)))
      && Backlog(iv, Served(rs, i, k, now, marked), now) <= Backlog(iv, rs, now)
  {
    var (i, k) := PickScan(iv, rs, force, now).value;
    var x := PickedIsKind(iv, rs[i], now);
    var r1 := if k.Hunt? && marked && rs[i].requested.Some? then rs[i].(attempted := rs[i].requested) else rs[i];
    var r2 := r1.(last := r1.last[k := now]);
    assert Served(rs, i, k, now, marked) == rs[i := r2];
    BacklogAt(iv, rs, now, i, r2);
    SameDue(iv, rs[i], r1, now, |KINDS|);
    BumpCounts(iv, r1, x, now, now, |KINDS|);
  }

  lemma {:induction false} SameDue(iv: Intervals, a: Repo, b: Repo, now: int, n: nat)
    requires a.last == b.last && n <= |KINDS|
    ensures DueKinds(iv, a, now, n) == DueKinds(iv, b, now, n)
  {
    if n > 0 { SameDue(iv, a, b, now, n - 1); }
  }

  /** The exception is real: that hunt is picked again at once. */
  lemma UnmarkedRehuntRepeats(iv: Intervals, now: int)
    requires now > 0 && forall k :: IntervalOf(iv, k) > 0
    ensures var rs := [Repo(true, true, map[Hunt := now], Some(1), None)];
      && PickScan(iv, rs, None, now) == Some((0, Hunt))
      && Served(rs, 0, Hunt, now, false) == rs
  {
    var rs := [Repo(true, true, map[Hunt := now], Some(1), None)];
    assert Urgent(rs[0]);
    RotationServesStalest(iv, rs, None, now, 0);
    assert rs[0].last[Hunt := now] == rs[0].last;
  }

  /** The same step `n` times, or until it cannot be taken. */
  ghost function Iterate<T>(step: T -> Option<T>, x: T, n: nat): T {
    if n == 0 || step(x).None? then x else Iterate(step, step(x).value, n - 1)
  }

  lemma {:induction false} IterateEnds<T>(step: T -> Option<T>, holds: T -> bool, measure: T -> nat, x: T, n: nat)
    requires holds(x) && n >= measure(x)
    requires forall y | holds(y) && step(y).Some? :: holds(step(y).value) && measure(step(y).value) < measure(y)
    ensures step(Iterate(step, x, n)).None?
  {
    if step(x).Some? { IterateEnds(step, holds, measure, step(x).value, n - 1); }
  }

  /** A rotation cycle whose attempt ended, with the clock held. */
  ghost function Cycle(iv: Intervals, now: int): seq<Repo> -> Option<seq<Repo>> {
    (rs: seq<Repo>) =>
      var pick := PickScan(iv, rs, None, now);
      if pick.Some? then Some(Served(rs, pick.value.0, pick.value.1, now, true)) else None
  }

  /** Every repo is cloned. */
  predicate AllCloned(rs: seq<Repo>) {
    forall j | 0 <= j < |rs| :: rs[j].cloned
  }

  lemma CycleShrinks(iv: Intervals, rs: seq<Repo>, now: int)
    requires now > 0 && (forall k :: IntervalOf(iv, k) > 0) && AllCloned(rs) && Cycle(iv, now)(rs).Some?
    ensures var rs' := Cycle(iv, now)(rs).value; AllCloned(rs') && Backlog(iv, rs', now) < Backlog(iv, rs, now)
  {
    AttemptShrinksBacklog(iv, rs, None, now, true);
  }

  /** So every due scan is served before any is served twice: after as many
      cycles as there is backlog nothing is due. */
  lemma RotationDrains(iv: Intervals, rs: seq<Repo>, now: int, n: nat)
    requires now > 0 && (forall k :: IntervalOf(iv, k) > 0) && (forall i | 0 <= i < |rs| :: rs[i].cloned)
    requires n >= Backlog(iv, rs, now)
    ensures PickScan(iv, Iterate(Cycle(iv, now), rs, n), None, now).None?
  {
    var step := Cycle(iv, now);
    forall y | AllCloned(y) && step(y).Some?
      ensures AllCloned(step(y).value) && Backlog(iv, step(y).value, now) < Backlog(iv, y, now)
    {
      CycleShrinks(iv, y, now);
    }
    IterateEnds(step, y => AllCloned(y), y => Backlog(iv, y, now), rs, n);
  }

  /** A scan that ended now is not picked again until the clock moves by its
      interval, however often the rotation runs and whatever else it does. */
  lemma ServedWaitsItsInterval(
      iv: Intervals, rs: seq<Repo>, force: Option<nat>, i: nat, k: JobKind, ended: int, now: int)
    requires i < |rs| && rs[i].cloned && !Urgent(rs[i])
    requires ended > 0 && k in rs[i].last && rs[i].last[k] == ended && now - ended < IntervalOf(iv, k)
    ensures PickScan(iv, rs, force, now) != Some((i, k))
  {
    if PickScan(iv, rs, force, now) == Some((i, k)) {
      var x := PickedIsKind(iv, rs[i], now);
    }
  }

  // ------------------------------------------------------------------
  // Repos whose clone keeps failing
  // ------------------------------------------------------------------

  function Count(rs: seq<Repo>, p: Repo -> bool): nat {
    if rs == [] then 0 else Count(rs[..|rs| - 1], p) + if p(rs[|rs| - 1]) then 1 else 0
  }

  lemma {:induction false} CountAt(rs: seq<Repo>, p: Repo -> bool, i: nat, r: Repo)
    requires i < |rs|
    ensures Count(rs[i := r], p) == Count(rs, p) - (if p(rs[i]) then 1 else 0) + if p(r) then 1 else 0
  {
    var rs' := rs[i := r];
    if i == |rs| - 1 {
      assert rs'[..|rs| - 1] == rs[..|rs| - 1];
    } else {
      assert rs'[..|rs| - 1] == rs[..|rs| - 1][i := r];
      CountAt(rs[..|rs| - 1], p, i, r);
    }
  }

  lemma {:induction false} CountWithin(rs: seq<Repo>, p: Repo -> bool, q: Repo -> bool)
    requires forall r :: p(r) ==> q(r)
    ensures Count(rs, p) <= Count(rs, q)
  {
    if rs != [] { CountWithin(rs[..|rs| - 1], p, q); }
  }

  /** A cloned repo with a hunt to come. */
  predicate HuntComes(iv: Intervals, r: Repo, now: int) {
    r.cloned && (Urgent(r) || Due(iv, r, Hunt, now))
  }

  predicate Uncloned(r: Repo) {
    !r.cloned
  }

  predicate UnclonedUrgent(r: Repo) {
    !r.cloned && Urgent(r)
  }

  /** An uncloned repo that was not tried since `stamp`. */
  predicate Untried(r: Repo, stamp: int) {
    !r.cloned && (Hunt in r.last ==> r.last[Hunt] <= stamp)
  }

  ghost function HuntsToCome(iv: Intervals, rs: seq<Repo>, now: int): nat {
    Count(rs, r => HuntComes(iv, r, now))
  }

  ghost function UntriedCount(rs: seq<Repo>, stamp: int): nat {
    Count(rs, r => Untried(r, stamp))
  }

  /** Nothing is due at an enabled repo that is cloned. */
  predicate ClonedIdle(iv: Intervals, rs: seq<Repo>, now: int) {
    forall i | 0 <= i < |rs| && rs[i].enabled && rs[i].cloned :: Offer(iv, rs[i], now).None?
  }

  function CycleAt(iv: Intervals, rs: seq<Repo>, now: int): seq<Repo> {
    var pick := PickScan(iv, rs, None, now);
    if pick.None? then rs else Served(rs, pick.value.0, pick.value.1, now, true)
  }

  /** One cycle at each of the times. */
  function Cycled(iv: Intervals, rs: seq<Repo>, times: seq<int>): seq<Repo>
    decreases |times|
  {
    if times == [] then rs else Cycled(iv, CycleAt(iv, rs, times[0]), times[1..])
  }

  /** Every hunt of a cloned repo is on record by `stamp`. */
  predicate HuntsBy(rs: seq<Repo>, stamp: int) {
    forall i | 0 <= i < |rs| && rs[i].cloned && Hunt in rs[i].last :: rs[i].last[Hunt] <= stamp
  }

  /** What the cycles up to `horizon` can still be spent on: each cloned scan
      that comes due, the first try of every uncloned repo, and another after
      each cloned hunt. */
  ghost function Spending(iv: Intervals, rs: seq<Repo>, stamp: int, horizon: int): int {
    Backlog(iv, rs, horizon) + Count(rs, Uncloned) * HuntsToCome(iv, rs, horizon)
    + UntriedCount(rs, stamp) + Count(rs, UnclonedUrgent)
  }

  /** No interval ends between `now` and `horizon`. */
  ghost predicate Within(iv: Intervals, now: int, horizon: int) {
    0 < now <= horizon && forall k :: horizon - now < IntervalOf(iv, k)
  }

  /** The row of the repo that was served. */
  function ServedRow(r: Repo, k: JobKind, now: int): Repo {
    var r1 := if k.Hunt? && r.requested.Some? then r.(attempted := r.requested) else r;
    r1.(last := r1.last[k := now])
  }

  lemma ServedAt(rs: seq<Repo>, i: nat, k: JobKind, now: int)
    requires i < |rs|
    ensures Served(rs, i, k, now, true) == rs[i := ServedRow(rs[i], k, now)]
  {}

  lemma ServedCounts(iv: Intervals, rs: seq<Repo>, i: nat, r: Repo, stamp: int, horizon: int)
    requires i < |rs| && r.cloned == rs[i].cloned
    ensures Count(rs[i := r], Uncloned) == Count(rs, Uncloned)
    ensures HuntsToCome(iv, rs[i := r], horizon) == HuntsToCome(iv, rs, horizon)
      - (if HuntComes(iv, rs[i], horizon) then 1 else 0) + if HuntComes(iv, r, horizon) then 1 else 0
    ensures UntriedCount(rs[i := r], stamp) == UntriedCount(rs, stamp)
      - (if Untried(rs[i], stamp) then 1 else 0) + if Untried(r, stamp) then 1 else 0
    ensures Count(rs[i := r], UnclonedUrgent) == Count(rs, UnclonedUrgent)
      - (if UnclonedUrgent(rs[i]) then 1 else 0) + if UnclonedUrgent(r) then 1 else 0
  {
    CountAt(rs, Uncloned, i, r);
    CountAt(rs, UnclonedUrgent, i, r);
    CountAt(rs, q => HuntComes(iv, q, horizon), i, r);
    CountAt(rs, q => Untried(q, stamp), i, r);
  }

  /** A cloned repo's scan is spent for the whole window. */
  lemma ServedLoad(iv: Intervals, r: Repo, k: JobKind, now: int, horizon: int)
    requires r.cloned && Offer(iv, r, now) == Some(k) && Within(iv, now, horizon)
    ensures Load(iv, ServedRow(r, k, now), horizon) < Load(iv, r, horizon)
    ensures k.Hunt? ==> HuntComes(iv, r, horizon) && !HuntComes(iv, ServedRow(r, k, now), horizon)
    ensures !k.Hunt? ==> (HuntComes(iv, ServedRow(r, k, now), horizon) <==> HuntComes(iv, r, horizon))
  {
    var x := PickedIsKind(iv, r, now);
    var r1 := if k.Hunt? && r.requested.Some? then r.(attempted := r.requested) else r;
    SameDue(iv, r, r1, horizon, |KINDS|);
    BumpCounts(iv, r1, x, now, horizon, |KINDS|);
  }

  lemma ClonedScanSpends(iv: Intervals, rs: seq<Repo>, i: nat, k: JobKind, stamp: int, now: int, horizon: int)
    requires i < |rs| && rs[i].cloned && Offer(iv, rs[i], now) == Some(k) && Within(iv, now, horizon) && !k.Hunt?
    ensures Spending(iv, Served(rs, i, k, now, true), stamp, horizon) < Spending(iv, rs, stamp, horizon)
  {
    var r := ServedRow(rs[i], k, now);
    ServedAt(rs, i, k, now);
    ServedLoad(iv, rs[i], k, now, horizon);
    BacklogAt(iv, rs, horizon, i, r);
    ServedCounts(iv, rs, i, r, stamp, horizon);
  }

  /** One hunt fewer pays for another try of every uncloned repo. */
  lemma Retries(u: int, h: int, untried: int, untried': int)
    requires 0 <= untried && untried' <= u
    ensures u * (h - 1) + untried' <= u * h + untried
  {
    assert u * (h - 1) == u * h - u;
  }

  lemma ClonedHuntSpends(iv: Intervals, rs: seq<Repo>, i: nat, stamp: int, now: int, horizon: int)
    requires i < |rs| && rs[i].cloned && Offer(iv, rs[i], now) == Some(Hunt) && Within(iv, now, horizon)
    ensures Spending(iv, Served(rs, i, Hunt, now, true), now, horizon) < Spending(iv, rs, stamp, horizon)
  {
    var r := ServedRow(rs[i], Hunt, now);
    var rs' := rs[i := r];
    ServedAt(rs, i, Hunt, now);
    ServedLoad(iv, rs[i], Hunt, now, horizon);
    BacklogAt(iv, rs, horizon, i, r);
    ServedCounts(iv, rs, i, r, now, horizon);
    CountWithin(rs', q => Untried(q, now), Uncloned);
    Retries(Count(rs, Uncloned), HuntsToCome(iv, rs, horizon), UntriedCount(rs, stamp), UntriedCount(rs', now));
  }

  /** An uncloned repo is picked a second time without a cloned hunt between
      only when nothing is due at the cloned ones. */
  lemma PickedUntried(iv: Intervals, rs: seq<Repo>, stamp: int, now: int)
    requires PickScan(iv, rs, None, now).Some? && !ClonedIdle(iv, rs, now) && HuntsBy(rs, stamp)
    ensures var i := PickScan(iv, rs, None, now).value.0;
      i < |rs| && (rs[i].cloned || Urgent(rs[i]) || Untried(rs[i], stamp))
  {
    var x :| 0 <= x < |rs| && rs[x].enabled && rs[x].cloned && Offer(iv, rs[x], now).Some?;
    RotationServesStalest(iv, rs, None, now, x);
  }

  lemma UnclonedCycleSpends(iv: Intervals, rs: seq<Repo>, i: nat, stamp: int, now: int, horizon: int)
    requires i < |rs| && !rs[i].cloned && stamp < now && (Urgent(rs[i]) || Untried(rs[i], stamp))
    ensures Spending(iv, Served(rs, i, Hunt, now, true), stamp, horizon) < Spending(iv, rs, stamp, horizon)
  {
    var r := ServedRow(rs[i], Hunt, now);
    ServedAt(rs, i, Hunt, now);
    BacklogAt(iv, rs, horizon, i, r);
    ServedCounts(iv, rs, i, r, stamp, horizon);
  }

  /** One cycle that is not idle spends something. */
  lemma CycleSpends(iv: Intervals, rs: seq<Repo>, stamp: int, now: int, horizon: int) returns (stamp': int)
    requires Within(iv, now, horizon) && stamp < now && HuntsBy(rs, stamp) && !ClonedIdle(iv, rs, now)
    ensures stamp <= stamp' <= now && HuntsBy(CycleAt(iv, rs, now), stamp')
    ensures Spending(iv, CycleAt(iv, rs, now), stamp', horizon) < Spending(iv, rs, stamp, horizon)
  {
    var x :| 0 <= x < |rs| && rs[x].enabled && rs[x].cloned && Offer(iv, rs[x], now).Some?;
    RotationServesStalest(iv, rs, None, now, x);
    PickedUntried(iv, rs, stamp, now);
    var (i, k) := PickScan(iv, rs, None, now).value;
    ServedAt(rs, i, k, now);
    stamp' := if rs[i].cloned && k.Hunt? then now else stamp;
    if rs[i].cloned {
      if k.Hunt? {
        ClonedHuntSpends(iv, rs, i, stamp, now, horizon);
      } else {
        ClonedScanSpends(iv, rs, i, k, stamp, now, horizon);
      }
    } else {
      UnclonedCycleSpends(iv, rs, i, stamp, now, horizon);
    }
  }

  predicate Advancing(times: seq<int>) {
    forall i, j | 0 <= i < j < |times| :: times[i] < times[j]
  }

  lemma {:induction false} SpendingRunsOut(iv: Intervals, rs: seq<Repo>, stamp: int, times: seq<int>, horizon: int)
      returns (n: nat)
    requires Advancing(times) && |times| > Spending(iv, rs, stamp, horizon) && HuntsBy(rs, stamp)
    requires forall t | t in times :: stamp < t && Within(iv, t, horizon)
    ensures n < |times| && n <= Spending(iv, rs, stamp, horizon)
    ensures ClonedIdle(iv, Cycled(iv, rs, times[..n]), times[n])
    decreases |times|
  {
    var now, rest := times[0], times[1..];
    if ClonedIdle(iv, rs, now) {
      n := 0;
    } else {
      var stamp' := CycleSpends(iv, rs, stamp, now, horizon);
      assert forall i | 0 <= i < |rest| :: rest[i] == times[i + 1];
      var m := SpendingRunsOut(iv, CycleAt(iv, rs, now), stamp', rest, horizon);
      n := m + 1;
      assert times[..n][0] == now && times[..n][1..] == rest[..m];
    }
  }

  /** Repos whose clone keeps failing do not starve the others either, under a
      clock that advances: within a stretch shorter than every interval,
      nothing is due any more at the cloned repos after at most one cycle for
      each of their scans that comes due in it, and for every uncloned repo
      one try, another after each of their hunts, and its urgent request. */
  lemma UnclonedDoNotStarve(iv: Intervals, rs: seq<Repo>, times: seq<int>, horizon: int) returns (n: nat)
    requires times != [] && Advancing(times) && forall t | t in times :: Within(iv, t, horizon)
    requires forall i | 0 <= i < |rs| && rs[i].cloned && Hunt in rs[i].last :: rs[i].last[Hunt] < times[0]
    requires |times| > Backlog(iv, rs, horizon) + Count(rs, Uncloned) * (HuntsToCome(iv, rs, horizon) + 1)
                       + Count(rs, UnclonedUrgent)
    ensures n < |times|
    ensures n <= Backlog(iv, rs, horizon) + Count(rs, Uncloned) * (HuntsToCome(iv, rs, horizon) + 1)
                 + Count(rs, UnclonedUrgent)
    ensures ClonedIdle(iv, Cycled(iv, rs, times[..n]), times[n])
  {
    var stamp := times[0] - 1;
    CountWithin(rs, q => Untried(q, stamp), Uncloned);
    var u, h := Count(rs, Uncloned), HuntsToCome(iv, rs, horizon);
    assert u * (h + 1) == u * h + u;
    n := SpendingRunsOut(iv, rs, stamp, times, horizon);
  }
}
