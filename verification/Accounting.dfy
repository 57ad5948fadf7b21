/** What chains cost: the spend above a link and the per-kind history the estimates come from (hunter-rs/src/store.rs,
    hunter-rs/src/daemon.rs, hunter-rs/src/scheduler.rs). */
module Accounting {
  import opened Domain
  import opened Chains
  import opened Tables
  import opened World
  import opened Runs

  // ------------------------------------------------------------------
  // ancestor_tokens and orphan_work
  // ------------------------------------------------------------------

  /** `ancestor_tokens`. */
  function AncestorTokens(js: seq<Job>, j: nat): int {
    SumOver(js, AncestryIds(js, j) - {j}, Spent)
  }

  /** What a whole chain has on record, up to and including `j`, by following
      `resumed_from` across kinds. */
  ghost function ChainSpent(js: seq<Job>, j: nat): int
    requires Descending(js) && j < |js|
  {
    Spent(js[j]) + if js[j].resumedFrom.Some? then ChainSpent(js, js[j].resumedFrom.value) else 0
  }

  /** The `n` links before `j`, or as many as there are. */
  ghost function Above(js: seq<Job>, j: nat, n: nat): (s: set<nat>)
    requires Descending(js) && j < |js|
    ensures forall i | i in s :: i < j
    decreases n
  {
    if n == 0 || js[j].resumedFrom.None? then {}
    else Above(js, js[j].resumedFrom.value, n - 1) + {js[j].resumedFrom.value}
  }

  /** What they have on record. */
  ghost function SpentAbove(js: seq<Job>, j: nat, n: nat): int
    requires Descending(js) && j < |js|
    decreases n
  {
    if n == 0 || js[j].resumedFrom.None? then 0
    else Spent(js[js[j].resumedFrom.value]) + SpentAbove(js, js[j].resumedFrom.value, n - 1)
  }

  ghost predicate IsAbove(js: seq<Job>, j: nat, n: nat, i: nat)
    requires Descending(js) && j < |js|
  {
    exists k: nat | 0 < k <= n && k <= Depth(js, j) :: Ancestor(js, j, k) == i
  }

  lemma {:induction false} AboveMembers(js: seq<Job>, j: nat, n: nat)
    requires Descending(js) && j < |js|
    ensures forall i: nat :: i in Above(js, j, n) <==> IsAbove(js, j, n, i)
    decreases n
  {
    if n > 0 && js[j].resumedFrom.Some? {
      var p := js[j].resumedFrom.value;
      AboveMembers(js, p, n - 1);
      assert Ancestor(js, j, 1) == Ancestor(js, p, 0) == p;
      forall i: nat ensures i in Above(js, j, n) <==> IsAbove(js, j, n, i) {
        if IsAbove(js, p, n - 1, i) {
          var k: nat :| 0 < k <= n - 1 && k <= Depth(js, p) && Ancestor(js, p, k) == i;
          assert Ancestor(js, j, k + 1) == i;
        }
        if IsAbove(js, j, n, i) && i != p {
          var k: nat :| 0 < k <= n && k <= Depth(js, j) && Ancestor(js, j, k) == i;
          assert Ancestor(js, p, k - 1) == i;
        }
      }
    }
  }

  lemma {:induction false} AboveSum(js: seq<Job>, j: nat, n: nat)
    requires Descending(js) && j < |js|
    ensures SumOver(js, Above(js, j, n), Spent) == SpentAbove(js, j, n)
    decreases n
  {
    if n > 0 && js[j].resumedFrom.Some? {
      var p := js[j].resumedFrom.value;
      AboveSum(js, p, n - 1);
      SumOverAdd(js, Above(js, p, n - 1), p, Spent);
    } else {
      SumOverNone(js, Spent);
    }
  }

  /** The query adds the strict ancestors up to the cap, of whatever kind,
      each once. */
  lemma AncestorTokensCapped(js: seq<Job>, j: nat)
    requires Descending(js) && j < |js|
    ensures AncestorTokens(js, j) == SpentAbove(js, j, MAX_DEPTH)
  {
    AncestryExact(js, j);
    AboveMembers(js, j, MAX_DEPTH);
    assert Ancestor(js, j, 0) == j;
    forall i: nat ensures i in AncestryIds(js, j) - {j} <==> i in Above(js, j, MAX_DEPTH) {
      if WithinReach(js, j, i) && i != j {
        var k: nat :| k <= Depth(js, j) && k <= MAX_DEPTH && Ancestor(js, j, k) == i;
        assert k > 0;
      }
    }
    assert AncestryIds(js, j) - {j} == Above(js, j, MAX_DEPTH);
    AboveSum(js, j, MAX_DEPTH);
  }

  lemma {:induction false} SpentAboveAll(js: seq<Job>, j: nat, n: nat)
    requires Descending(js) && j < |js| && Depth(js, j) <= n
    ensures SpentAbove(js, j, n) == ChainSpent(js, j) - Spent(js[j])
    decreases n
  {
    if js[j].resumedFrom.Some? { SpentAboveAll(js, js[j].resumedFrom.value, n - 1); }
  }

  /** Every strict ancestor once, of whatever kind. */
  lemma AncestorTokensExact(js: seq<Job>, j: nat)
    requires Descending(js) && j < |js| && Depth(js, j) <= MAX_DEPTH
    ensures AncestorTokens(js, j) == ChainSpent(js, j) - Spent(js[j])
  {
    AncestorTokensCapped(js, j);
    SpentAboveAll(js, j, MAX_DEPTH);
  }

  lemma {:induction false} ChainSpentBelow(a: seq<Job>, b: seq<Job>, j: nat)
    requires Descending(a) && Descending(b) && |a| == |b| && j < |a|
    requires forall i | 0 <= i <= j :: a[i] == b[i]
    ensures ChainSpent(a, j) == ChainSpent(b, j)
  {
    if a[j].resumedFrom.Some? { ChainSpentBelow(a, b, a[j].resumedFrom.value); }
  }

  // ------------------------------------------------------------------
  // kind_token_history
  // ------------------------------------------------------------------

  const RECENT_COMPLETED_WINDOW: nat := 20
  const MIN_COMPLETED_SAMPLES: nat := 3

  predicate IsHead(js: seq<Job>, kind: JobKind, j: nat)
    requires j < |js|
  {
    js[j].kind == kind && js[j].state.Done? && js[j].tokens.Some?
  }

  /** The newest `limit` heads below `n`, newest first. */
  function Recent(js: seq<Job>, kind: JobKind, n: nat, limit: nat): (heads: seq<nat>)
    requires n <= |js|
    ensures |heads| <= limit
    ensures forall a | 0 <= a < |heads| :: heads[a] < n && IsHead(js, kind, heads[a])
    ensures forall a, b | 0 <= a < b < |heads| :: heads[a] > heads[b]
  {
    if n == 0 || limit == 0 then []
    else if IsHead(js, kind, n - 1) then [n - 1] + Recent(js, kind, n - 1, limit - 1)
    else Recent(js, kind, n - 1, limit)
  }

  function HistoryEdge(js: seq<Job>, kind: JobKind): (nat, nat) -> bool {
    (c: nat, p: nat) => c < |js| && p < |js| && js[c].resumedFrom == Some(p) && js[p].kind == kind
  }

  function HistoryIds(js: seq<Job>, kind: JobKind, head: nat): set<nat> {
    Walk(|js|, head, HistoryEdge(js, kind), MAX_DEPTH)
  }

  /** One chain's cost. */
  function Sample(js: seq<Job>, kind: JobKind, head: nat): int {
    SumOver(js, HistoryIds(js, kind, head), Spent)
  }

  function Samples(js: seq<Job>, kind: JobKind, heads: seq<nat>): (out: seq<int>)
    ensures |out| == |heads|
  {
    if heads == [] then [] else [Sample(js, kind, heads[0])] + Samples(js, kind, heads[1..])
  }

  /** The tokens of every row of the kind that has any. */
  function AllTokens(js: seq<Job>, kind: JobKind): seq<int> {
    if js == [] then []
    else
      var last := js[|js| - 1];
      AllTokens(js[..|js| - 1], kind) + if last.kind == kind && last.tokens.Some? then [last.tokens.value] else []
  }

  predicate Ascending(s: seq<int>) {
    forall i, j | 0 <= i < j < |s| :: s[i] <= s[j]
  }

  lemma LastOnTop(init: seq<int>, x: int, rest: seq<int>, last: int)
    requires Ascending(rest) && multiset(rest) == multiset(init) + multiset{x}
    requires x <= last && forall k | 0 <= k < |init| :: init[k] <= last
    ensures Ascending(rest + [last]) && multiset(rest + [last]) == multiset(init + [last]) + multiset{x}
  {
    forall k | 0 <= k < |rest| ensures rest[k] <= last {
      assert rest[k] in multiset(rest);
      if rest[k] != x { assert rest[k] in init; }
    }
  }

  function Insert(s: seq<int>, x: int): (out: seq<int>)
    requires Ascending(s)
    ensures Ascending(out) && multiset(out) == multiset(s) + multiset{x}
  {
    if s == [] || s[|s| - 1] <= x then s + [x]
    else
      var init := s[..|s| - 1];
      assert s == init + [s[|s| - 1]];
      var rest := Insert(init, x);
      LastOnTop(init, x, rest, s[|s| - 1]);
      rest + [s[|s| - 1]]
  }

  function Sorted(s: seq<int>): (out: seq<int>)
    ensures Ascending(out) && multiset(out) == multiset(s) && |out| == |s|
  {
    if s == [] then []
    else
      assert s == s[..|s| - 1] + [s[|s| - 1]];
      var out := Insert(Sorted(s[..|s| - 1]), s[|s| - 1]);
      assert |out| == |multiset(out)|;
      out
  }

  function KindTokenHistory(js: seq<Job>, kind: JobKind): seq<int> {
    var done := Sorted(Samples(js, kind, Recent(js, kind, |js|, RECENT_COMPLETED_WINDOW)));
    if |done| >= MIN_COMPLETED_SAMPLES then done else Sorted(AllTokens(js, kind))
  }

  /** The chains that count are those of the newest finished jobs: a head that
      is left out is older than as many as are wanted. */
  lemma {:induction false} RecentAreNewest(js: seq<Job>, kind: JobKind, n: nat, limit: nat, j: nat)
    requires n <= |js| && j < n && IsHead(js, kind, j) && j !in Recent(js, kind, n, limit)
    ensures |Recent(js, kind, n, limit)| == limit
    ensures forall a | 0 <= a < limit :: Recent(js, kind, n, limit)[a] > j
  {
    if limit > 0 {
      if IsHead(js, kind, n - 1) {
        assert Recent(js, kind, n, limit) == [n - 1] + Recent(js, kind, n - 1, limit - 1);
        RecentAreNewest(js, kind, n - 1, limit - 1, j);
      } else {
        RecentAreNewest(js, kind, n - 1, limit, j);
      }
    }
  }

  lemma {:induction false} SamplesAt(js: seq<Job>, kind: JobKind, heads: seq<nat>, a: nat)
    requires a < |heads|
    ensures Samples(js, kind, heads)[a] == Sample(js, kind, heads[a])
  {
    if a > 0 { SamplesAt(js, kind, heads[1..], a - 1); }
  }

  lemma {:induction false} AllTokensAre(js: seq<Job>, kind: JobKind, x: int)
    ensures x in AllTokens(js, kind) <==> exists j: nat | j < |js| :: js[j].kind == kind && js[j].tokens == Some(x)
  {
    if js != [] {
      var init, last := js[..|js| - 1], js[|js| - 1];
      AllTokensAre(init, kind, x);
      if last.kind == kind && last.tokens == Some(x) { assert js[|js| - 1] == last; }
      if j: nat :| j < |init| && init[j].kind == kind && init[j].tokens == Some(x) { assert js[j] == init[j]; }
    }
  }

  /** The history an estimate comes from, in ascending order: what whole
      chains cost, one sample for each of the newest finished jobs of the kind,
      as soon as there are three; before that the spend of every single job
      that has any. */
  lemma HistoryIs(js: seq<Job>, kind: JobKind)
    ensures Ascending(KindTokenHistory(js, kind))
    ensures var heads, history := Recent(js, kind, |js|, RECENT_COMPLETED_WINDOW), KindTokenHistory(js, kind);
      && (|heads| >= MIN_COMPLETED_SAMPLES ==> multiset(history) == multiset(Samples(js, kind, heads)))
      && (|heads| < MIN_COMPLETED_SAMPLES ==>
            multiset(history) == multiset(AllTokens(js, kind))
            && forall j: nat | j < |js| && IsHead(js, kind, j) :: j in heads)
    ensures var heads := Recent(js, kind, |js|, RECENT_COMPLETED_WINDOW);
      forall j: nat | j < |js| && IsHead(js, kind, j) && j !in heads ::
        |heads| == RECENT_COMPLETED_WINDOW && forall a | 0 <= a < |heads| :: heads[a] > j
  {
    forall j: nat | j < |js| && IsHead(js, kind, j) && j !in Recent(js, kind, |js|, RECENT_COMPLETED_WINDOW)
      ensures |Recent(js, kind, |js|, RECENT_COMPLETED_WINDOW)| == RECENT_COMPLETED_WINDOW
      ensures forall a | 0 <= a < RECENT_COMPLETED_WINDOW :: Recent(js, kind, |js|, RECENT_COMPLETED_WINDOW)[a] > j
    {
      RecentAreNewest(js, kind, |js|, RECENT_COMPLETED_WINDOW, j);
    }
  }

  // ------------------------------------------------------------------
  // Each job in at most one sample
  // ------------------------------------------------------------------

  lemma {:induction false} HistoryLevelSound(js: seq<Job>, kind: JobKind, head: nat, d: nat, i: nat)
    requires Forest(js) && head < |js| && js[head].kind == kind && i in Level(|js|, head, HistoryEdge(js, kind), d)
    ensures SameSegment(js, i, head) && Pos(js, i) + d == Pos(js, head) && js[i].kind == kind
  {
    if d > 0 {
      var c := CameFrom(|js|, head, HistoryEdge(js, kind), d, i);
      HistoryLevelSound(js, kind, head, d - 1, c);
      assert SameKindPred(js, c) == Some(i);
    }
  }

  lemma {:induction false} HistoryLevelComplete(js: seq<Job>, kind: JobKind, head: nat, i: nat)
    requires Forest(js) && head < |js| && js[head].kind == kind
    requires i < |js| && SameSegment(js, i, head) && Pos(js, i) <= Pos(js, head)
    ensures i in Level(|js|, head, HistoryEdge(js, kind), Pos(js, head) - Pos(js, i))
    decreases Pos(js, head) - Pos(js, i)
  {
    var d := Pos(js, head) - Pos(js, i);
    if d == 0 {
      PosUnique(js, i, head);
    } else {
      var m := NextToward(js, i, head);
      HistoryLevelComplete(js, kind, head, m);
      HistoryLevelSound(js, kind, head, d - 1, m);
      LeadsTo(|js|, head, HistoryEdge(js, kind), d - 1, m, i);
    }
  }

  lemma HistoryIdSound(js: seq<Job>, kind: JobKind, head: nat, i: nat)
    requires Forest(js) && head < |js| && js[head].kind == kind && i in HistoryIds(js, kind, head)
    ensures SameSegment(js, i, head) && Pos(js, i) <= Pos(js, head) <= Pos(js, i) + MAX_DEPTH
  {
    var k := WalkInLevel(|js|, head, HistoryEdge(js, kind), MAX_DEPTH, i);
    HistoryLevelSound(js, kind, head, k, i);
  }

  lemma HistoryIdComplete(js: seq<Job>, kind: JobKind, head: nat, i: nat)
    requires Forest(js) && head < |js| && js[head].kind == kind && i < |js|
    requires SameSegment(js, i, head) && Pos(js, i) <= Pos(js, head) <= Pos(js, i) + MAX_DEPTH
    ensures i in HistoryIds(js, kind, head)
  {
    HistoryLevelComplete(js, kind, head, i);
    LevelInWalk(|js|, head, HistoryEdge(js, kind), Pos(js, head) - Pos(js, i), MAX_DEPTH);
  }

  /** A head's walk finds the links of its own kind before it, up to the
      cap. */
  lemma HistoryIdsExact(js: seq<Job>, kind: JobKind, head: nat)
    requires Forest(js) && head < |js| && js[head].kind == kind
    ensures forall i: nat :: i in HistoryIds(js, kind, head) <==>
      i < |js| && SameSegment(js, i, head) && Pos(js, i) <= Pos(js, head) <= Pos(js, i) + MAX_DEPTH
  {
    forall i: nat | i < |js|
      ensures i in HistoryIds(js, kind, head) <==>
        SameSegment(js, i, head) && Pos(js, i) <= Pos(js, head) <= Pos(js, i) + MAX_DEPTH
    {
      if i in HistoryIds(js, kind, head) { HistoryIdSound(js, kind, head, i); }
      if SameSegment(js, i, head) && Pos(js, i) <= Pos(js, head) <= Pos(js, i) + MAX_DEPTH {
        HistoryIdComplete(js, kind, head, i);
      }
    }
  }

  ghost predicate DoneEndsSegments(js: seq<Job>) {
    forall m | 0 <= m < |js| && SameKindPred(js, m).Some? :: !js[SameKindPred(js, m).value].state.Done?
  }

  lemma HeadsDisjoint(js: seq<Job>, kind: JobKind, g: nat, h: nat)
    requires Forest(js) && DoneEndsSegments(js) && g < |js| && h < |js| && g != h
    requires IsHead(js, kind, g) && IsHead(js, kind, h)
    ensures HistoryIds(js, kind, g) !! HistoryIds(js, kind, h)
  {
    HistoryIdsExact(js, kind, g);
    HistoryIdsExact(js, kind, h);
    if SameSegment(js, g, h) {
      HeadsApart(js, g, h);
      HeadsApart(js, h, g);
      PosUnique(js, g, h);
    }
  }

  lemma HeadsApart(js: seq<Job>, g: nat, h: nat)
    requires Forest(js) && DoneEndsSegments(js) && g < |js| && h < |js| && js[g].state.Done? && SameSegment(js, g, h)
    ensures Pos(js, h) <= Pos(js, g)
  {
    if Pos(js, g) < Pos(js, h) {
      var m := NextToward(js, g, h);
      assert false;
    }
  }

  ghost function AllIds(js: seq<Job>, kind: JobKind, heads: seq<nat>): (s: set<nat>)
    ensures forall i: nat :: i in s <==> exists a | 0 <= a < |heads| :: i in HistoryIds(js, kind, heads[a])
  {
    if heads == [] then {}
    else
      var rest := AllIds(js, kind, heads[1..]);
      assert forall i: nat | i in rest :: exists a | 0 <= a < |heads| :: i in HistoryIds(js, kind, heads[a]) by {
        forall i: nat | i in rest ensures exists a | 0 <= a < |heads| :: i in HistoryIds(js, kind, heads[a]) {
          var b :| 0 <= b < |heads[1..]| && i in HistoryIds(js, kind, heads[1..][b]);
          assert i in HistoryIds(js, kind, heads[b + 1]);
        }
      }
      assert forall i: nat, a | 0 <= a < |heads| && i in HistoryIds(js, kind, heads[a]) ::
        i in rest || i in HistoryIds(js, kind, heads[0]) by {
        forall i: nat, a | 0 <= a < |heads| && i in HistoryIds(js, kind, heads[a])
          ensures i in rest || i in HistoryIds(js, kind, heads[0])
        {
          if a > 0 { assert heads[1..][a - 1] == heads[a]; }
        }
      }
      HistoryIds(js, kind, heads[0]) + rest
  }

  lemma {:induction false} SumOverDisjoint(js: seq<Job>, a: set<nat>, b: set<nat>, w: Job -> int)
    requires a !! b
    ensures SumOver(js, a + b, w) == SumOver(js, a, w) + SumOver(js, b, w)
  {
    if |js| > 0 { SumOverDisjoint(js[..|js| - 1], a, b, w); }
  }

  function Total(s: seq<int>): int {
    if s == [] then 0 else s[0] + Total(s[1..])
  }

  lemma {:induction false} SamplesConserve(js: seq<Job>, kind: JobKind, heads: seq<nat>)
    requires Forest(js) && DoneEndsSegments(js)
    requires forall a | 0 <= a < |heads| :: heads[a] < |js| && IsHead(js, kind, heads[a])
    requires forall a, b | 0 <= a < b < |heads| :: heads[a] > heads[b]
    ensures Total(Samples(js, kind, heads)) == SumOver(js, AllIds(js, kind, heads), Spent)
  {
    if heads == [] {
      SumOverNone(js, Spent);
      assert AllIds(js, kind, heads) == {};
    } else {
      SamplesConserve(js, kind, heads[1..]);
      var first, rest := HistoryIds(js, kind, heads[0]), AllIds(js, kind, heads[1..]);
      forall i: nat | i in rest ensures i !in first {
        var b :| 0 <= b < |heads[1..]| && i in HistoryIds(js, kind, heads[1..][b]);
        HeadsDisjoint(js, kind, heads[0], heads[b + 1]);
      }
      SumOverDisjoint(js, first, rest, Spent);
      assert AllIds(js, kind, heads) == first + rest;
    }
  }

  /** In every reachable state the samples count every job's tokens at most
      once: together they are the tokens of the set of jobs they cover. */
  lemma HistoryCountsOnce(w: World, kind: JobKind, limit: nat)
    requires Reachable(w)
    ensures var heads := Recent(w.t.jobs, kind, |w.t.jobs|, limit);
      Total(Samples(w.t.jobs, kind, heads)) == SumOver(w.t.jobs, AllIds(w.t.jobs, kind, heads), Spent)
  {
    ReachableOk(w);
    var js := w.t.jobs;
    forall m | 0 <= m < |js| && SameKindPred(js, m).Some? ensures !js[SameKindPred(js, m).value].state.Done? {
      assert RowOk(w.t, m);
    }
    SamplesConserve(js, kind, Recent(js, kind, |js|, limit));
  }

  /** For an unheld head the sample is its whole segment's cost. */
  lemma SampleIsChainCost(w: World, kind: JobKind, head: nat)
    requires Reachable(w) && head < |w.t.jobs| && w.t.jobs[head].kind == kind && w.t.jobs[head].blocker.None?
    ensures Sample(w.t.jobs, kind, head) == SegmentSum(w.t.jobs, head, Spent)
  {
    ReachableOk(w);
    var js := w.t.jobs;
    HistoryIdsExact(js, kind, head);
    SegmentMembers(js, head);
    assert Pos(js, head) < MAX_RESUME_ATTEMPTS;
    assert HistoryIds(js, kind, head) == Segment(js, head);
    SegmentSumOnce(js, head, Spent);
  }

  // ------------------------------------------------------------------
  // anticipated_tokens
  // ------------------------------------------------------------------

  /** The percentile index. */
  function Index(n: nat, warm: bool): (i: int)
    requires n > 0
  {
    var i := (n as real * if warm then 0.5 else 0.9).Floor;
    if i < n - 1 then i else n - 1
  }

  function Anticipated(js: seq<Job>, kind: JobKind, warm: bool): int {
    var history := KindTokenHistory(js, kind);
    if history == [] then 0
    else if 0 <= Index(|history|, warm) < |history| then history[Index(|history|, warm)] else 0
  }

  lemma IndexInRange(n: nat, warm: bool)
    requires n > 0
    ensures 0 <= Index(n, warm) < n
    ensures Index(n, warm) as real <= n as real * if warm then 0.5 else 0.9
    ensures Index(n, warm) == n - 1 || (Index(n, warm) + 1) as real > n as real * if warm then 0.5 else 0.9
    ensures Index(n, true) <= Index(n, false)
  {}

  lemma PercentileOf(history: seq<int>, warm: bool)
    requires history != [] && Ascending(history)
    ensures var i := Index(|history|, warm);
      && 0 <= i < |history|
      && (forall k | 0 <= k <= i :: history[k] <= history[i])
  {
    IndexInRange(|history|, warm);
  }

  /** The estimate is one of the samples, a cold one is never below a warm
      one, and no sample up to its place in the order is above it. */
  lemma AnticipatedIsPercentile(js: seq<Job>, kind: JobKind, warm: bool)
    requires KindTokenHistory(js, kind) != []
    ensures var history := KindTokenHistory(js, kind);
      && 0 <= Index(|history|, warm) < |history| && Anticipated(js, kind, warm) == history[Index(|history|, warm)]
      && Anticipated(js, kind, warm) in history
      && (forall i | 0 <= i <= Index(|history|, warm) && i < |history| :: history[i] <= Anticipated(js, kind, warm))
      && Anticipated(js, kind, true) <= Anticipated(js, kind, false)
  {
    var history := KindTokenHistory(js, kind);
    assert Ascending(history) by { HistoryAscending(js, kind); }
    PercentileOf(history, warm);
    PercentileOf(history, true);
    PercentileOf(history, false);
    IndexInRange(|history|, warm);
  }

  lemma HistoryAscending(js: seq<Job>, kind: JobKind)
    ensures Ascending(KindTokenHistory(js, kind))
  {}
}
