/** Resume chains and the recursive queries over them
    (hunter-rs/src/store.rs). A chain is a list of jobs linked by
    `resumed_from`; the queries see it only through depth-capped fixpoints. */
module Chains {
  import opened Domain

  /** `RESUME_CHAIN_MAX_DEPTH`. */
  const MAX_DEPTH: nat := 64

  // ------------------------------------------------------------------
  // The shape the write path keeps
  // ------------------------------------------------------------------

  /** Every link names an older row. */
  ghost predicate Descending(js: seq<Job>) {
    forall j | 0 <= j < |js| && js[j].resumedFrom.Some? :: js[j].resumedFrom.value < j
  }

  /** No row is continued twice. */
  ghost predicate Unbranched(js: seq<Job>) {
    forall i, j | 0 <= i < j < |js| && js[i].resumedFrom.Some? :: js[i].resumedFrom != js[j].resumedFrom
  }

  ghost predicate Forest(js: seq<Job>) {
    Descending(js) && Unbranched(js)
  }

  predicate HasSuccessor(js: seq<Job>, p: nat) {
    exists s | 0 <= s < |js| :: js[s].resumedFrom == Some(p)
  }

  /** `running`, or `suspended` with nothing continuing it. */
  predicate Live(js: seq<Job>, j: nat)
    requires j < |js|
  {
    js[j].state.Running? || (js[j].state.Suspended? && !HasSuccessor(js, j))
  }

  /** How many links precede `j`, of any kind. */
  ghost function Depth(js: seq<Job>, j: nat): nat
    requires Descending(js) && j < |js|
  {
    if js[j].resumedFrom.Some? then Depth(js, js[j].resumedFrom.value) + 1 else 0
  }

  /** The chain's first job. */
  ghost function Origin(js: seq<Job>, j: nat): (o: nat)
    requires Descending(js) && j < |js|
    ensures o <= j && js[o].resumedFrom.None?
    ensures o == j <==> js[j].resumedFrom.None?
  {
    if js[j].resumedFrom.Some? then Origin(js, js[j].resumedFrom.value) else j
  }

  /** The row `j` continues, when that row is of the same kind. */
  function SameKindPred(js: seq<Job>, j: nat): Option<nat>
    requires j < |js|
  {
    if js[j].resumedFrom.Some? && js[j].resumedFrom.value < j && js[js[j].resumedFrom.value].kind == js[j].kind
    then js[j].resumedFrom else None
  }

  /** How many links of its own kind precede `j` without a break. */
  ghost function Pos(js: seq<Job>, j: nat): nat
    requires j < |js|
  {
    if SameKindPred(js, j).Some? then Pos(js, SameKindPred(js, j).value) + 1 else 0
  }

  /** The first job of `j`'s same-kind segment. */
  ghost function SegmentRoot(js: seq<Job>, j: nat): (r: nat)
    requires j < |js|
    ensures r <= j
  {
    if SameKindPred(js, j).Some? then SegmentRoot(js, SameKindPred(js, j).value) else j
  }

  /** The links of `j`'s same-kind segment up to and including `j`. */
  ghost function Segment(js: seq<Job>, j: nat): (s: set<nat>)
    requires j < |js|
    ensures j in s
    ensures forall i | i in s :: i <= j
  {
    if SameKindPred(js, j).Some? then Segment(js, SameKindPred(js, j).value) + {j} else {j}
  }

  // ------------------------------------------------------------------
  // WITH RECURSIVE ... UNION, with the depth carried in every row
  // ------------------------------------------------------------------

  predicate Reaches(ids: set<nat>, edge: (nat, nat) -> bool, j: nat) {
    exists c | c in ids :: edge(c, j)
  }

  function Neighbours(n: nat, ids: set<nat>, edge: (nat, nat) -> bool): set<nat> {
    set j: nat | j < n && Reaches(ids, edge, j)
  }

  /** The ids of the rows at exactly depth `d`: a row's depth is part of it,
      so `UNION` never merges two visits of one id at different depths. */
  function Level(n: nat, start: nat, edge: (nat, nat) -> bool, d: nat): (ids: set<nat>)
    ensures forall i | i in ids :: i < n
  {
    if d == 0 then (if start < n then {start} else {})
    else Neighbours(n, Level(n, start, edge, d - 1), edge)
  }

  /** The ids of all rows at depth at most `d`. */
  function Walk(n: nat, start: nat, edge: (nat, nat) -> bool, d: nat): (ids: set<nat>)
    ensures forall i | i in ids :: i < n
  {
    if d == 0 then Level(n, start, edge, 0) else Walk(n, start, edge, d - 1) + Level(n, start, edge, d)
  }

  lemma {:induction false} LevelInWalk(n: nat, start: nat, edge: (nat, nat) -> bool, k: nat, d: nat)
    requires k <= d
    ensures Level(n, start, edge, k) <= Walk(n, start, edge, d)
  {
    if k < d { LevelInWalk(n, start, edge, k, d - 1); }
  }

  lemma {:induction false} WalkInLevel(n: nat, start: nat, edge: (nat, nat) -> bool, d: nat, i: nat) returns (k: nat)
    requires i in Walk(n, start, edge, d)
    ensures k <= d && i in Level(n, start, edge, k)
  {
    if i in Level(n, start, edge, d) { k := d; } else { k := WalkInLevel(n, start, edge, d - 1, i); }
  }

  /** Where a row of one level came from. */
  lemma CameFrom(n: nat, start: nat, edge: (nat, nat) -> bool, d: nat, i: nat) returns (c: nat)
    requires d > 0 && i in Level(n, start, edge, d)
    ensures c in Level(n, start, edge, d - 1) && edge(c, i)
  {
    c :| c in Level(n, start, edge, d - 1) && edge(c, i);
  }

  /** And where one leads. */
  lemma LeadsTo(n: nat, start: nat, edge: (nat, nat) -> bool, d: nat, c: nat, i: nat)
    requires c in Level(n, start, edge, d) && i < n && edge(c, i)
    ensures i in Level(n, start, edge, d + 1)
  {
    assert Reaches(Level(n, start, edge, d), edge, i);
  }

  /** `SUM(w)` over the rows whose id is in `ids`. */
  function SumOver(js: seq<Job>, ids: set<nat>, w: Job -> int): int {
    if |js| == 0 then 0
    else SumOver(js[..|js| - 1], ids, w) + if |js| - 1 in ids then w(js[|js| - 1]) else 0
  }

  /** `MAX(w)` over the rows whose id is in `ids`; 0 when there is none
      above it. */
  function MaxOver(js: seq<Job>, ids: set<nat>, w: Job -> int): int {
    if |js| == 0 then 0
    else
      var m := MaxOver(js[..|js| - 1], ids, w);
      if |js| - 1 in ids && w(js[|js| - 1]) > m then w(js[|js| - 1]) else m
  }

  // ------------------------------------------------------------------
  // resume_chain_stats: both ways, within one kind
  // ------------------------------------------------------------------

  predicate SameKindLink(js: seq<Job>, c: nat, j: nat) {
    && c < |js| && j < |js| && js[j].kind == js[c].kind
    && (js[c].resumedFrom == Some(j) || js[j].resumedFrom == Some(c))
  }

  function StatsEdge(js: seq<Job>): (nat, nat) -> bool {
    (c: nat, j: nat) => SameKindLink(js, c, j)
  }

  function StatsIds(js: seq<Job>, start: nat): set<nat> {
    Walk(|js|, start, StatsEdge(js), MAX_DEPTH)
  }

  ghost predicate SameSegment(js: seq<Job>, i: nat, j: nat)
    requires i < |js| && j < |js|
  {
    SegmentRoot(js, i) == SegmentRoot(js, j)
  }

  ghost function Distance(js: seq<Job>, i: nat, j: nat): nat
    requires i < |js| && j < |js|
  {
    if Pos(js, i) <= Pos(js, j) then Pos(js, j) - Pos(js, i) else Pos(js, i) - Pos(js, j)
  }

  /** A segment is linear: a position names one job. */
  lemma {:induction false} PosUnique(js: seq<Job>, i: nat, j: nat)
    requires Forest(js) && i < |js| && j < |js|
    requires SameSegment(js, i, j) && Pos(js, i) == Pos(js, j)
    ensures i == j
    decreases i
  {
    if SameKindPred(js, i).Some? {
      PosUnique(js, SameKindPred(js, i).value, SameKindPred(js, j).value);
    }
  }

  /** The link after `i` on the way down to `j`. */
  lemma {:induction false} NextToward(js: seq<Job>, i: nat, j: nat) returns (m: nat)
    requires Forest(js) && i < |js| && j < |js|
    requires SameSegment(js, i, j) && Pos(js, i) < Pos(js, j)
    ensures m < |js| && SameKindPred(js, m) == Some(i) && SameSegment(js, m, j) && Pos(js, m) == Pos(js, i) + 1
    decreases j
  {
    var p := SameKindPred(js, j).value;
    if Pos(js, p) == Pos(js, i) {
      PosUnique(js, p, i);
      m := j;
    } else {
      m := NextToward(js, i, p);
    }
  }

  lemma {:induction false} StatsLevelSound(js: seq<Job>, start: nat, d: nat, i: nat)
    requires Forest(js) && start < |js| && i in Level(|js|, start, StatsEdge(js), d)
    ensures SameSegment(js, i, start) && Distance(js, i, start) <= d
  {
    if d > 0 {
      var c := CameFrom(|js|, start, StatsEdge(js), d, i);
      StatsLevelSound(js, start, d - 1, c);
      assert SameKindPred(js, c) == Some(i) || SameKindPred(js, i) == Some(c);
    }
  }

  lemma {:induction false} StatsLevelComplete(js: seq<Job>, start: nat, i: nat)
    requires Forest(js) && start < |js| && i < |js| && SameSegment(js, i, start)
    ensures i in Level(|js|, start, StatsEdge(js), Distance(js, i, start))
    decreases Distance(js, i, start)
  {
    var d := Distance(js, i, start);
    if d == 0 {
      PosUnique(js, i, start);
    } else {
      var m;
      if Pos(js, i) < Pos(js, start) {
        m := NextToward(js, i, start);
      } else {
        m := SameKindPred(js, i).value;
      }
      StatsLevelComplete(js, start, m);
      LeadsTo(|js|, start, StatsEdge(js), d - 1, m, i);
    }
  }

  /** The two-way fixpoint, in which one job recurs at many depths, finds
      exactly the links of the same-kind segment at most `MAX_DEPTH` away. */
  lemma StatsExact(js: seq<Job>, start: nat)
    requires Forest(js) && start < |js|
    ensures forall i: nat :: i in StatsIds(js, start) <==>
      i < |js| && SameSegment(js, i, start) && Distance(js, i, start) <= MAX_DEPTH
  {
    forall i: nat
      ensures i in StatsIds(js, start) <==>
        i < |js| && SameSegment(js, i, start) && Distance(js, i, start) <= MAX_DEPTH
    {
      if i in StatsIds(js, start) {
        var k := WalkInLevel(|js|, start, StatsEdge(js), MAX_DEPTH, i);
        StatsLevelSound(js, start, k, i);
      }
      if i < |js| && SameSegment(js, i, start) && Distance(js, i, start) <= MAX_DEPTH {
        StatsLevelComplete(js, start, i);
        LevelInWalk(|js|, start, StatsEdge(js), Distance(js, i, start), MAX_DEPTH);
      }
    }
  }

  lemma {:induction false} SegmentMembers(js: seq<Job>, j: nat)
    requires Forest(js) && j < |js|
    ensures forall i: nat :: i in Segment(js, j) <==> i < |js| && SameSegment(js, i, j) && Pos(js, i) <= Pos(js, j)
    decreases j
  {
    if SameKindPred(js, j).Some? {
      var p := SameKindPred(js, j).value;
      SegmentMembers(js, p);
      forall i: nat | i < |js| && SameSegment(js, i, j) && Pos(js, i) == Pos(js, j) ensures i == j {
        PosUnique(js, i, j);
      }
    } else {
      forall i: nat | i < |js| && SameSegment(js, i, j) && Pos(js, i) <= Pos(js, j) ensures i == j {
        PosUnique(js, i, j);
      }
    }
  }

  /** No link of its own kind continues `j`. */
  ghost predicate SegmentEnd(js: seq<Job>, j: nat)
    requires j < |js|
  {
    forall m | 0 <= m < |js| :: SameKindPred(js, m) != Some(j)
  }

  /** From any link of a segment that ends at `last`, the fixpoint yields the
      whole segment, exactly when the segment lies within the depth cap on
      both sides. */
  lemma StatsWholeSegment(js: seq<Job>, start: nat, last: nat)
    requires Forest(js) && start < |js| && last < |js|
    requires SameSegment(js, start, last) && SegmentEnd(js, last)
    ensures StatsIds(js, start) == Segment(js, last)
      <==> Pos(js, start) <= MAX_DEPTH && Pos(js, last) <= Pos(js, start) + MAX_DEPTH
  {
    StatsExact(js, start);
    SegmentMembers(js, last);
    forall i: nat | i < |js| && SameSegment(js, i, last) ensures Pos(js, i) <= Pos(js, last) {
      if Pos(js, i) > Pos(js, last) {
        var m := NextToward(js, last, i);
      }
    }
    SegmentRootFacts(js, last);
    var r := SegmentRoot(js, last);
    assert r in Segment(js, last) && last in Segment(js, last);
  }

  lemma {:induction false} SegmentRootFacts(js: seq<Job>, j: nat)
    requires j < |js|
    ensures SegmentRoot(js, SegmentRoot(js, j)) == SegmentRoot(js, j) && Pos(js, SegmentRoot(js, j)) == 0
    decreases j
  {
    if SameKindPred(js, j).Some? { SegmentRootFacts(js, SameKindPred(js, j).value); }
  }

  // ------------------------------------------------------------------
  // Aggregates
  // ------------------------------------------------------------------

  lemma {:induction false} SumOverAdd(js: seq<Job>, ids: set<nat>, x: nat, w: Job -> int)
    requires x < |js| && x !in ids
    ensures SumOver(js, ids + {x}, w) == SumOver(js, ids, w) + w(js[x])
  {
    var init := js[..|js| - 1];
    if x == |js| - 1 {
      SumOverBelow(init, ids, ids + {x}, w);
    } else {
      SumOverAdd(init, ids, x, w);
    }
  }

  lemma {:induction false} SumOverBelow(js: seq<Job>, a: set<nat>, b: set<nat>, w: Job -> int)
    requires forall i: nat | i < |js| :: i in a <==> i in b
    ensures SumOver(js, a, w) == SumOver(js, b, w)
  {
    if |js| > 0 { SumOverBelow(js[..|js| - 1], a, b, w); }
  }

  /** The sum along the links, by following `resumed_from`. */
  ghost function SegmentSum(js: seq<Job>, j: nat, w: Job -> int): int
    requires j < |js|
  {
    w(js[j]) + if SameKindPred(js, j).Some? then SegmentSum(js, SameKindPred(js, j).value, w) else 0
  }

  /** Every link is added exactly once. */
  lemma {:induction false} SegmentSumOnce(js: seq<Job>, j: nat, w: Job -> int)
    requires j < |js|
    ensures SumOver(js, Segment(js, j), w) == SegmentSum(js, j, w)
    decreases j
  {
    if SameKindPred(js, j).Some? {
      var p := SameKindPred(js, j).value;
      SegmentSumOnce(js, p, w);
      SumOverAdd(js, Segment(js, p), j, w);
    } else {
      SumOverAdd(js, {}, j, w);
      SumOverNone(js, w);
      assert {} + {j} == {j};
    }
  }

  lemma {:induction false} SumOverNone(js: seq<Job>, w: Job -> int)
    ensures SumOver(js, {}, w) == 0
  {
    if |js| > 0 { SumOverNone(js[..|js| - 1], w); }
  }

  /** `COALESCE(tokens_new, 0)`. */
  function Spent(j: Job): int {
    if j.tokens.Some? then j.tokens.value else 0
  }

  /** Whether `resume_chain_stats` counts the row as an attempt. */
  predicate Counted(j: Job) {
    j.resumedFrom.None? || j.reason == Some(Cap) || Spent(j) > 0
  }

  function CountOne(j: Job): int {
    if Counted(j) then 1 else 0
  }

  datatype ResumeChainStats = ResumeChainStats(total: int, attempts: int, maxSingle: int)

  function Stats(js: seq<Job>, start: nat): ResumeChainStats {
    var ids := StatsIds(js, start);
    ResumeChainStats(
      SumOver(js, ids, Spent),
      SumOver(js, ids, CountOne),
      MaxOver(js, ids, Spent))
  }

  /** `resume_chain_stats` meters a whole segment, each link once, from any
      of its links that reaches both ends within the cap. */
  lemma StatsMeterSegment(js: seq<Job>, start: nat, last: nat)
    requires Forest(js) && start < |js| && last < |js|
    requires SameSegment(js, start, last) && SegmentEnd(js, last)
    requires Pos(js, start) <= MAX_DEPTH && Pos(js, last) <= Pos(js, start) + MAX_DEPTH
    ensures Stats(js, start).total == SegmentSum(js, last, Spent)
    ensures Stats(js, start).attempts == SegmentSum(js, last, CountOne)
  {
    StatsWholeSegment(js, start, last);
    SegmentSumOnce(js, last, Spent);
    SegmentSumOnce(js, last, CountOne);
  }

  /** The largest single attempt of the links that were found. */
  lemma {:induction false} MaxOverBounds(js: seq<Job>, ids: set<nat>, w: Job -> int)
    ensures MaxOver(js, ids, w) >= 0
    ensures forall i: nat | i < |js| && i in ids :: w(js[i]) <= MaxOver(js, ids, w)
    ensures MaxOver(js, ids, w) == 0 || exists i: nat | i < |js| && i in ids :: w(js[i]) == MaxOver(js, ids, w)
  {
    if |js| > 0 {
      var init := js[..|js| - 1];
      MaxOverBounds(init, ids, w);
      forall i: nat | i < |js| && i in ids ensures w(js[i]) <= MaxOver(js, ids, w) {
        if i < |init| { assert init[i] == js[i]; }
      }
      if MaxOver(js, ids, w) != 0 {
        if MaxOver(js, ids, w) == MaxOver(init, ids, w) {
          var i: nat :| i < |init| && i in ids && w(init[i]) == MaxOver(init, ids, w);
          assert init[i] == js[i];
        } else {
          assert w(js[|js| - 1]) == MaxOver(js, ids, w);
        }
      }
    }
  }

  // ------------------------------------------------------------------
  // resume_origin_job and ancestor_tokens: up, across kinds
  // ------------------------------------------------------------------

  function AncestryEdge(js: seq<Job>): (nat, nat) -> bool {
    (c: nat, p: nat) => c < |js| && js[c].resumedFrom == Some(p)
  }

  function AncestryIds(js: seq<Job>, j: nat): set<nat> {
    Walk(|js|, j, AncestryEdge(js), MAX_DEPTH)
  }

  function LeastIn(ids: set<nat>, n: nat, otherwise: nat): nat {
    if n == 0 then otherwise
    else var m := LeastIn(ids, n - 1, otherwise);
         if exists i: nat | i < n - 1 :: i in ids then m else if n - 1 in ids then n - 1 else otherwise
  }

  /** `resume_origin_job`: `COALESCE(MIN(id), job_id)` over the ancestry. */
  function ResumeOrigin(js: seq<Job>, j: nat): nat {
    LeastIn(AncestryIds(js, j), |js|, j)
  }

  /** The `k`-th link above `j`. */
  ghost function Ancestor(js: seq<Job>, j: nat, k: nat): (a: nat)
    requires Descending(js) && j < |js| && k <= Depth(js, j)
    ensures a < |js| && a + k <= j && Depth(js, a) == Depth(js, j) - k && Origin(js, a) == Origin(js, j)
    ensures k == Depth(js, j) <==> js[a].resumedFrom.None?
    decreases k
  {
    if k == 0 then j else Ancestor(js, js[j].resumedFrom.value, k - 1)
  }

  lemma {:induction false} AncestorStep(js: seq<Job>, j: nat, k: nat)
    requires Descending(js) && j < |js| && k < Depth(js, j)
    ensures js[Ancestor(js, j, k)].resumedFrom == Some(Ancestor(js, j, k + 1))
  {
    if k > 0 { AncestorStep(js, js[j].resumedFrom.value, k - 1); }
  }

  lemma {:induction false} AncestryLevel(js: seq<Job>, j: nat, d: nat)
    requires Descending(js) && j < |js|
    ensures Level(|js|, j, AncestryEdge(js), d) == if d <= Depth(js, j) then {Ancestor(js, j, d)} else {}
  {
    if d > 0 {
      AncestryLevel(js, j, d - 1);
      var prev := Level(|js|, j, AncestryEdge(js), d - 1);
      var here := Level(|js|, j, AncestryEdge(js), d);
      if d <= Depth(js, j) {
        AncestorStep(js, j, d - 1);
        var c, a := Ancestor(js, j, d - 1), Ancestor(js, j, d);
        assert prev == {c} && AncestryEdge(js)(c, a);
        assert Reaches(prev, AncestryEdge(js), a);
        forall i | i in here ensures i == a {}
        assert here == {a};
      } else {
        forall i: nat | i < |js| ensures !Reaches(prev, AncestryEdge(js), i) {
          if d - 1 <= Depth(js, j) { assert js[Ancestor(js, j, d - 1)].resumedFrom.None?; }
        }
        assert here == {};
      }
    }
  }

  ghost predicate WithinReach(js: seq<Job>, j: nat, i: nat)
    requires Descending(js) && j < |js|
  {
    exists k: nat | k <= Depth(js, j) && k <= MAX_DEPTH :: Ancestor(js, j, k) == i
  }

  /** The ancestry query finds the links above `j`, up to the cap. */
  lemma AncestryExact(js: seq<Job>, j: nat)
    requires Descending(js) && j < |js|
    ensures forall i: nat :: i in AncestryIds(js, j) <==> WithinReach(js, j, i)
  {
    forall i: nat ensures i in AncestryIds(js, j) <==> WithinReach(js, j, i) {
      if i in AncestryIds(js, j) {
        var k := WalkInLevel(|js|, j, AncestryEdge(js), MAX_DEPTH, i);
        AncestryLevel(js, j, k);
        assert k <= Depth(js, j) && Ancestor(js, j, k) == i;
      }
      if WithinReach(js, j, i) {
        var k: nat :| k <= Depth(js, j) && k <= MAX_DEPTH && Ancestor(js, j, k) == i;
        AncestryLevel(js, j, k);
        LevelInWalk(|js|, j, AncestryEdge(js), k, MAX_DEPTH);
      }
    }
  }

  lemma {:induction false} LeastInIsLeast(ids: set<nat>, n: nat, otherwise: nat)
    requires exists i: nat | i < n :: i in ids
    ensures LeastIn(ids, n, otherwise) in ids && LeastIn(ids, n, otherwise) < n
    ensures forall i: nat | i in ids :: LeastIn(ids, n, otherwise) <= i
  {
    if exists i: nat | i < n - 1 :: i in ids {
      LeastInIsLeast(ids, n - 1, otherwise);
    }
  }

  lemma {:induction false} AncestorOrder(js: seq<Job>, j: nat, k: nat, m: nat)
    requires Descending(js) && j < |js| && k <= m <= Depth(js, j)
    ensures Ancestor(js, j, m) + (m - k) <= Ancestor(js, j, k)
    decreases m
  {
    if k < m {
      AncestorOrder(js, j, k, m - 1);
      AncestorStep(js, j, m - 1);
    }
  }

  /** The furthest link the walk goes to. */
  ghost function Furthest(js: seq<Job>, j: nat): (a: nat)
    requires Descending(js) && j < |js|
    ensures a < |js|
  {
    Ancestor(js, j, if Depth(js, j) <= MAX_DEPTH then Depth(js, j) else MAX_DEPTH)
  }

  lemma FurthestIsLeast(js: seq<Job>, j: nat, i: nat)
    requires Descending(js) && j < |js| && WithinReach(js, j, i)
    ensures Furthest(js, j) <= i
  {
    var m := if Depth(js, j) <= MAX_DEPTH then Depth(js, j) else MAX_DEPTH;
    var k: nat :| k <= Depth(js, j) && k <= MAX_DEPTH && Ancestor(js, j, k) == i;
    AncestorOrder(js, j, k, m);
  }

  /** `MIN(id)` is the last link the walk reached. */
  lemma OriginReached(js: seq<Job>, j: nat)
    requires Descending(js) && j < |js|
    ensures ResumeOrigin(js, j) == Furthest(js, j)
  {
    var ids := AncestryIds(js, j);
    AncestryExact(js, j);
    assert WithinReach(js, j, Furthest(js, j));
    LeastInIsLeast(ids, |js|, j);
    FurthestIsLeast(js, j, ResumeOrigin(js, j));
  }

  /** `resume_origin_job` names the chain's first job exactly for a job with
      at most `MAX_DEPTH` links above it. */
  lemma OriginExact(js: seq<Job>, j: nat)
    requires Descending(js) && j < |js|
    ensures ResumeOrigin(js, j) == Origin(js, j) <==> Depth(js, j) <= MAX_DEPTH
  {
    OriginReached(js, j);
    if Depth(js, j) <= MAX_DEPTH {
      var a := Ancestor(js, j, Depth(js, j));
      assert Origin(js, a) == a;
    }
  }

  // ------------------------------------------------------------------
  // chain_status: down, across kinds
  // ------------------------------------------------------------------

  function SuccessorEdge(js: seq<Job>): (nat, nat) -> bool {
    (c: nat, j: nat) => j < |js| && js[j].resumedFrom == Some(c)
  }

  function SuccessorIds(js: seq<Job>, o: nat): set<nat> {
    Walk(|js|, o, SuccessorEdge(js), MAX_DEPTH)
  }

  lemma {:induction false} SuccessorLevel(js: seq<Job>, o: nat, d: nat, i: nat)
    requires Descending(js) && o < |js| && i < |js|
    ensures i in Level(|js|, o, SuccessorEdge(js), d) <==> d <= Depth(js, i) && Ancestor(js, i, d) == o
    decreases d
  {
    if d > 0 {
      var prev := Level(|js|, o, SuccessorEdge(js), d - 1);
      if js[i].resumedFrom.Some? {
        var p := js[i].resumedFrom.value;
        SuccessorLevel(js, o, d - 1, p);
        assert SuccessorEdge(js)(p, i);
        if p in prev { assert Reaches(prev, SuccessorEdge(js), i); }
        if Reaches(prev, SuccessorEdge(js), i) {
          var c :| c in prev && SuccessorEdge(js)(c, i);
          assert c == p;
        }
      } else {
        forall c | c in prev ensures !SuccessorEdge(js)(c, i) {}
      }
    }
  }

  /** From a chain's first job, the successor walk finds exactly the chain's
      links at most `MAX_DEPTH` below it. */
  lemma SuccessorsExact(js: seq<Job>, o: nat)
    requires Descending(js) && o < |js| && js[o].resumedFrom.None?
    ensures forall i: nat :: i in SuccessorIds(js, o) <==> i < |js| && Origin(js, i) == o && Depth(js, i) <= MAX_DEPTH
  {
    forall i: nat
      ensures i in SuccessorIds(js, o) <==> i < |js| && Origin(js, i) == o && Depth(js, i) <= MAX_DEPTH
    {
      if i in SuccessorIds(js, o) {
        var k := WalkInLevel(|js|, o, SuccessorEdge(js), MAX_DEPTH, i);
        SuccessorLevel(js, o, k, i);
        assert Origin(js, o) == o;
      }
      if i < |js| && Origin(js, i) == o && Depth(js, i) <= MAX_DEPTH {
        var d := Depth(js, i);
        assert Origin(js, Ancestor(js, i, d)) == Ancestor(js, i, d);
        SuccessorLevel(js, o, d, i);
        LevelInWalk(|js|, o, SuccessorEdge(js), d, MAX_DEPTH);
      }
    }
  }

  /** The two readings of "belongs to chain `o`" agree: up from the job and
      down from the origin. Both walks are cut at the same depth, so they
      agree on the links past it too. */
  lemma OriginMeetsSuccessors(js: seq<Job>, o: nat, j: nat)
    requires Descending(js) && o < |js| && j < |js| && js[o].resumedFrom.None?
    ensures ResumeOrigin(js, j) == o <==> j in SuccessorIds(js, o)
  {
    SuccessorsExact(js, o);
    OriginExact(js, j);
    OriginReached(js, j);
    if Depth(js, j) > MAX_DEPTH {
      assert js[Ancestor(js, j, MAX_DEPTH)].resumedFrom.Some?;
    }
  }

  /** `chain_status(...).live`. */
  function LiveCount(js: seq<Job>, o: nat): nat {
    |set i: nat | i < |js| && i in SuccessorIds(js, o) && Live(js, i)|
  }

  lemma LiveCountZero(js: seq<Job>, o: nat)
    requires Descending(js) && o < |js| && js[o].resumedFrom.None?
    ensures LiveCount(js, o) == 0 <==>
      forall i: nat | i < |js| && Origin(js, i) == o && Depth(js, i) <= MAX_DEPTH :: !Live(js, i)
  {
    SuccessorsExact(js, o);
    var s := set i: nat | i < |js| && i in SuccessorIds(js, o) && Live(js, i);
    if |s| == 0 {
      forall i: nat | i < |js| && Origin(js, i) == o && Depth(js, i) <= MAX_DEPTH ensures !Live(js, i) {
        assert i !in s;
      }
    }
    if forall i: nat | i < |js| && Origin(js, i) == o && Depth(js, i) <= MAX_DEPTH :: !Live(js, i) {
      assert s == {};
    }
  }
}
