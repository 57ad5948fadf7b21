/** One repo's hunts: the reviewed range, the watermark and the full re-hunt
    requests (hunter-rs/src/scheduler.rs, hunter-rs/src/store.rs). The
    history is linear and only grows: commit `n` is the n-th one, and 0 stands
    for the empty tree before the first. */
module Hunts {
  import opened Domain

  /** The commits after `lo` up to `hi`. */
  datatype Range = Range(lo: nat, hi: nat)

  /** The live hunt chain: its job's columns, where its range started, and
      how many requests had been made when its repo row was read. */
  datatype Chain = Chain(base: nat, pinned: nat, full: bool, request: Option<nat>, seen: nat)

  /** What a cold hunt read from its repo row. */
  datatype Row = Row(last: Option<nat>, lastFull: Option<nat>, request: Option<nat>, seen: nat)

  datatype Place =
    | Idle
    | Fetching(row: Row)
    | Gated(row: Row, head: nat, base: nat)
    | Created(row: Row)
    | Working(lastFull: Option<nat>, wide: bool)

  /** `finished`, `issued` and `tried` record what happened: the ranges of the
      chains that finished cleanly, the requests made, the requests hunts
      attempted. */
  datatype Hunts = Hunts(
    now: nat,
    tip: nat,
    last: Option<nat>,
    lastFull: Option<nat>,
    requested: Option<nat>,
    attempted: Option<nat>,
    chain: Option<Chain>,
    place: Place,
    finished: seq<Range>,
    issued: seq<nat>,
    tried: set<nat>)

  const FRESH_REPO := Hunts(0, 1, None, None, None, None, None, Idle, [], [], {})

  /** `first` is where a first hunt's bounded range would start: three weeks
      or thirty commits back, 0 in a small repo. */
  datatype Step =
    | Tick(now: nat)
    | Push(tip: nat)
    | Ask
    | ColdRead
    | FetchFails
    | Fetched(first: nat)
    | Refused
    | Create
    | Mark
    | Resume(first: nat)
    | Suspend
    | EndUnclean
    | EndClean
    | Drop
    | Crash(transcript: bool)

  predicate RehuntDue(row: Row, now: nat, interval: nat) {
    row.request.Some? || (row.lastFull.Some? && now - row.lastFull.value >= interval)
  }

  predicate Enabled(h: Hunts, x: Step) {
    match x
    case Tick(now) => now >= h.now
    case Push(tip) => tip >= h.tip
    case Ask => true
    case ColdRead => h.place.Idle? && h.chain.None?
    case FetchFails => h.place.Fetching?
    case Fetched(first) => h.place.Fetching? && first < h.tip
    case Refused => h.place.Gated?
    case Create => h.place.Gated?
    case Mark => h.place.Created? && h.chain.Some?
    case Resume(first) => h.place.Idle? && h.chain.Some?
    case Suspend => h.place.Working?
    case EndUnclean => h.place.Working?
    case EndClean => h.place.Working? && h.chain.Some?
    case Drop => h.place.Idle? && h.chain.Some?
    case Crash(_) => true
  }

  function Max(a: int, b: int): int {
    if a >= b then a else b
  }

  function OrZero(x: Option<nat>): nat {
    if x.Some? then x.value else 0
  }

  /** `request_full_hunt`. */
  function NewRequest(h: Hunts): nat {
    Max(h.now, Max(OrZero(h.requested) + 1, OrZero(h.attempted) + 1))
  }

  /** `mark_full_hunt_attempted`. */
  function MarkAttempted(h: Hunts, request: Option<nat>): Hunts {
    if request.Some? then h.(attempted := request, tried := h.tried + {request.value}) else h
  }

  function Next(h: Hunts, x: Step, interval: nat): Hunts
    requires Enabled(h, x)
  {
    match x
    case Tick(now) => h.(now := now)
    case Push(tip) => h.(tip := tip)
    case Ask => h.(requested := Some(NewRequest(h)), issued := h.issued + [NewRequest(h)])
    case ColdRead => h.(place := Fetching(Row(h.last, h.lastFull, h.requested, |h.issued|)))
    case FetchFails => MarkAttempted(h, h.place.row.request).(place := Idle)
    case Fetched(first) =>
      var row := h.place.row;
      if RehuntDue(row, h.now, interval) then h.(last := None, place := Gated(row, h.tip, 0))
      else if row.last == Some(h.tip) then h.(last := Some(h.tip), place := Idle)
      else if row.last.Some? then h.(place := Gated(row, h.tip, row.last.value))
      else h.(place := Gated(row, h.tip, first))
    case Refused => h.(place := Idle)
    case Create =>
      h.(chain := Some(Chain(h.place.base, h.place.head, false, None, h.place.row.seen)), place := Created(h.place.row))
    case Mark =>
      // A range from the empty tree is the complete history.
      var row, c := h.place.row, h.chain.value;
      var wide := c.base == 0;
      MarkAttempted(h, row.request).(
        chain := Some(if wide then c.(full := true, request := row.request) else c),
        place := Working(row.lastFull, wide))
    case Resume(first) =>
      var wide := h.last.None? && (h.chain.value.full || h.lastFull.Some? || first == 0);
      h.(place := Working(h.lastFull, wide))
    case Suspend => h.(place := Idle)
    case EndUnclean => h.(chain := None, place := Idle)
    case EndClean =>
      var c := h.chain.value;
      h.(last := Some(c.pinned),
         lastFull := if h.place.wide || h.place.lastFull.None? then Some(h.now) else h.lastFull,
         requested := if h.place.wide && c.request.Some? && h.requested == c.request then None else h.requested,
         finished := h.finished + [Range(c.base, c.pinned)],
         chain := None, place := Idle)
    case Drop => h.(chain := None)
    case Crash(transcript) =>
      h.(chain := if h.place.Created? || (h.place.Working? && !transcript) then None else h.chain, place := Idle)
  }

  function After(h: Hunts, xs: seq<Step>, interval: nat): Option<Hunts>
    decreases |xs|
  {
    if xs == [] then Some(h)
    else if Enabled(h, xs[0]) then After(Next(h, xs[0], interval), xs[1..], interval)
    else None
  }

  ghost predicate Reachable(h: Hunts, interval: nat) {
    exists xs :: After(FRESH_REPO, xs, interval) == Some(h)
  }

  // ------------------------------------------------------------------
  // The watermark
  // ------------------------------------------------------------------

  predicate Covered(finished: seq<Range>, p: nat) {
    exists k | 0 <= k < |finished| :: finished[k].lo < p <= finished[k].hi
  }

  /** Every commit after the first hunt's base up to `m` was reviewed. */
  ghost predicate Reviewed(finished: seq<Range>, m: nat) {
    finished != [] && forall p: nat | finished[0].lo < p <= m :: Covered(finished, p)
  }

  ghost predicate RangeOk(h: Hunts, base: nat, lastFull: Option<nat>) {
    base == 0 || (h.last == Some(base) && Reviewed(h.finished, base)) || (lastFull.None? && h.last.None?)
  }

  ghost predicate WatermarkOk(h: Hunts) {
    && (h.last.Some? ==> 0 < h.last.value <= h.tip && Reviewed(h.finished, h.last.value))
    && (h.lastFull.None? <==> h.finished == [])
    && h.tip > 0
    && (h.chain.Some? ==> 0 < h.chain.value.pinned <= h.tip)
    && (h.chain.Some? ==> RangeOk(h, h.chain.value.base, h.lastFull))
    && (h.place.Fetching? ==> h.chain.None? && h.place.row.last == h.last)
    && (h.place.Gated? ==> h.chain.None? && 0 < h.place.head <= h.tip && RangeOk(h, h.place.base, h.lastFull))
    && (h.place.Created? ==> h.chain.Some?)
    && (h.place.Working? ==> h.chain.Some? && h.place.lastFull == h.lastFull)
    && (h.place.Fetching? || h.place.Gated? || h.place.Created? ==> h.place.row.lastFull == h.lastFull)
  }

  /** A repo whose watermark is cleared stays due for a full pass. */
  ghost predicate DueOk(h: Hunts, interval: nat) {
    && (h.last.None? && h.lastFull.Some? ==> h.requested.Some? || h.now - h.lastFull.value >= interval)
    && (h.place.Fetching? && h.last.None? && h.lastFull.Some? ==> RehuntDue(h.place.row, h.now, interval))
    && (h.place.Fetching? && h.place.row.request.Some? ==> h.requested.Some?)
  }

  ghost predicate ScopeOk(h: Hunts) {
    && (h.place.Gated? && h.place.base == 0 ==> h.last.None?)
    && (h.chain.Some? ==> ChainScopeOk(h))
  }

  ghost predicate ChainScopeOk(h: Hunts)
    requires h.chain.Some?
  {
    && (h.place.Created? ==> !h.chain.value.full)
    && (!h.place.Created? ==> (h.chain.value.full <==> h.chain.value.base == 0))
    && (h.chain.value.full ==> h.last.None?)
    && (h.chain.value.base == 0 ==> h.last.None?)
    && (h.chain.value.request.Some? ==> h.chain.value.full)
    && (h.place.Working? && h.chain.value.full ==> h.place.wide)
    && (h.place.Working? && h.place.wide ==> h.chain.value.full || h.lastFull.None?)
  }

  // ------------------------------------------------------------------
  // The requests
  // ------------------------------------------------------------------

  predicate Increasing(s: seq<nat>) {
    forall i, j | 0 <= i < j < |s| :: s[i] < s[j]
  }

  predicate IssuedBefore(h: Hunts, request: Option<nat>, seen: nat) {
    seen <= |h.issued| && (request.Some? ==> seen > 0 && h.issued[seen - 1] == request.value)
  }

  /** The two columns, beside everything that was issued and attempted. */
  ghost predicate LedgerOk(issued: seq<nat>, requested: Option<nat>, attempted: Option<nat>, tried: set<nat>) {
    && Increasing(issued)
    && (requested.Some? ==> issued != [] && issued[|issued| - 1] == requested.value)
    && (requested.None? && issued != [] ==> attempted == Some(issued[|issued| - 1]))
    && (forall r | r in tried :: r in issued && attempted.Some? && r <= attempted.value)
    && (attempted.Some? ==> attempted.value in tried)
  }

  /** The request a hunt has in hand was issued before its row was read. */
  ghost predicate InHandOk(h: Hunts) {
    && (h.place.Fetching? || h.place.Gated? || h.place.Created? ==>
          IssuedBefore(h, h.place.row.request, h.place.row.seen) && RowNotStale(h, h.place.row.request))
    && (h.place.Created? && h.chain.Some? ==> h.chain.value.seen == h.place.row.seen)
    && (h.chain.Some? ==>
          IssuedBefore(h, h.chain.value.request, h.chain.value.seen)
          && (h.chain.value.request.Some? ==> h.chain.value.request.value in h.tried))
  }

  ghost predicate RequestsOk(h: Hunts) {
    LedgerOk(h.issued, h.requested, h.attempted, h.tried) && InHandOk(h)
  }

  /** No request newer than the one in hand has been attempted. */
  predicate RowNotStale(h: Hunts, request: Option<nat>) {
    request.Some? && h.attempted.Some? ==> h.attempted.value <= request.value
  }

  ghost predicate Inv(h: Hunts, interval: nat) {
    WatermarkOk(h) && DueOk(h, interval) && ScopeOk(h) && RequestsOk(h)
  }

  lemma CoveredGrows(finished: seq<Range>, r: Range, m: nat)
    requires Reviewed(finished, m)
    ensures Reviewed(finished + [r], m)
  {
    forall p: nat | finished[0].lo < p <= m ensures Covered(finished + [r], p) {
      assert Covered(finished, p);
      var k :| 0 <= k < |finished| && finished[k].lo < p <= finished[k].hi;
      assert (finished + [r])[k] == finished[k];
    }
  }

  /** Finishing a chain cleanly extends what was reviewed to its end. */
  lemma FinishReviews(h: Hunts)
    requires WatermarkOk(h) && h.chain.Some?
    ensures Reviewed(h.finished + [Range(h.chain.value.base, h.chain.value.pinned)], h.chain.value.pinned)
  {
    var c := h.chain.value;
    var r := Range(c.base, c.pinned);
    var f := h.finished + [r];
    assert f[|h.finished|] == r;
    if c.base != 0 && h.finished != [] { CoveredGrows(h.finished, r, c.base); }
    forall p: nat | f[0].lo < p <= c.pinned ensures Covered(f, p) {
      if p > c.base { assert f[|h.finished|].lo < p <= f[|h.finished|].hi; }
    }
  }

  lemma WatermarkStep(h: Hunts, x: Step, interval: nat)
    requires Inv(h, interval) && Enabled(h, x)
    ensures WatermarkOk(Next(h, x, interval))
  {
    if x.EndClean? { FinishReviews(h); }
  }

  lemma ScopeStep(h: Hunts, x: Step, interval: nat)
    requires Inv(h, interval) && Enabled(h, x)
    ensures DueOk(Next(h, x, interval), interval) && ScopeOk(Next(h, x, interval))
  {}

  lemma AskKeeps(h: Hunts, interval: nat)
    requires RequestsOk(h)
    ensures RequestsOk(Next(h, Ask, interval))
  {
    var h' := Next(h, Ask, interval);
    var n := NewRequest(h);
    forall i | 0 <= i < |h.issued| ensures h.issued[i] < n {
      assert h.issued[i] <= h.issued[|h.issued| - 1];
    }
    forall r | r in h'.tried ensures r in h'.issued && h'.attempted.Some? && r <= h'.attempted.value {
      assert r in h.issued;
    }
  }

  lemma MarkKeeps(h: Hunts, interval: nat)
    requires RequestsOk(h) && Enabled(h, Mark)
    ensures RequestsOk(Next(h, Mark, interval))
  {
    var row := h.place.row;
    if row.request.Some? {
      assert h.issued[row.seen - 1] in h.issued;
      assert h.issued[row.seen - 1] <= h.issued[|h.issued| - 1];
    }
  }

  lemma FetchFailsKeeps(h: Hunts, interval: nat)
    requires RequestsOk(h) && Enabled(h, FetchFails)
    ensures RequestsOk(Next(h, FetchFails, interval))
  {
    var row := h.place.row;
    if row.request.Some? {
      assert h.issued[row.seen - 1] in h.issued;
      assert h.issued[row.seen - 1] <= h.issued[|h.issued| - 1];
    }
  }

  lemma EndCleanKeeps(h: Hunts, interval: nat)
    requires RequestsOk(h) && Enabled(h, EndClean)
    ensures RequestsOk(Next(h, EndClean, interval))
  {}

  predicate SameLedger(h: Hunts, h': Hunts) {
    h'.issued == h.issued && h'.tried == h.tried && h'.requested == h.requested && h'.attempted == h.attempted
  }

  /** A step before the worker that neither issues nor attempts a request. */
  lemma ReadingKeeps(h: Hunts, x: Step, interval: nat)
    requires RequestsOk(h) && Enabled(h, x)
    requires x.Tick? || x.Push? || x.ColdRead? || x.Fetched? || x.Refused? || x.Create?
    ensures RequestsOk(Next(h, x, interval))
  {
    assert SameLedger(h, Next(h, x, interval));
  }

  /** Its attempts come and go without settling one. */
  lemma AttemptsKeep(h: Hunts, x: Step, interval: nat)
    requires RequestsOk(h) && Enabled(h, x)
    requires x.Resume? || x.Suspend? || x.EndUnclean? || x.Drop? || x.Crash?
    ensures RequestsOk(Next(h, x, interval))
  {
    assert SameLedger(h, Next(h, x, interval));
  }

  lemma RequestsStep(h: Hunts, x: Step, interval: nat)
    requires RequestsOk(h) && Enabled(h, x)
    ensures RequestsOk(Next(h, x, interval))
  {
    if x.Ask? { AskKeeps(h, interval); }
    else if x.Mark? { MarkKeeps(h, interval); }
    else if x.FetchFails? { FetchFailsKeeps(h, interval); }
    else if x.EndClean? { EndCleanKeeps(h, interval); }
    else if x.Resume? || x.Suspend? || x.EndUnclean? || x.Drop? || x.Crash? { AttemptsKeep(h, x, interval); }
    else { ReadingKeeps(h, x, interval); }
  }

  lemma StepKeepsInv(h: Hunts, x: Step, interval: nat)
    requires Inv(h, interval) && Enabled(h, x)
    ensures Inv(Next(h, x, interval), interval)
  {
    WatermarkStep(h, x, interval);
    ScopeStep(h, x, interval);
    RequestsStep(h, x, interval);
  }

  lemma {:induction false} RunKeepsInv(h: Hunts, xs: seq<Step>, interval: nat)
    requires Inv(h, interval) && After(h, xs, interval).Some?
    ensures Inv(After(h, xs, interval).value, interval)
    decreases |xs|
  {
    if xs != [] {
      StepKeepsInv(h, xs[0], interval);
      RunKeepsInv(Next(h, xs[0], interval), xs[1..], interval);
    }
  }

  lemma ReachableOk(h: Hunts, interval: nat)
    requires Reachable(h, interval)
    ensures Inv(h, interval)
  {
    var xs :| After(FRESH_REPO, xs, interval) == Some(h);
    RunKeepsInv(FRESH_REPO, xs, interval);
  }

  // ------------------------------------------------------------------
  // What holds in every reachable state
  // ------------------------------------------------------------------

  /** Watermark soundness: every commit from the first finished hunt's base up
      to `last_hunt_sha` lies in the range of a hunt chain that finished
      cleanly, wherever the branch moved meanwhile, and the watermark never
      names a commit that is not there. */
  lemma WatermarkSound(h: Hunts, interval: nat, p: nat)
    requires Reachable(h, interval) && h.last.Some?
    ensures h.finished != [] && h.last.value <= h.tip
    ensures h.finished[0].lo < p <= h.last.value ==> Covered(h.finished, p)
  {
    ReachableOk(h, interval);
  }

  /** A recorded full hunt was one: `last_full_hunt_at` moves only when a chain
      over the complete history finishes cleanly, or the repo's first. */
  lemma FullHuntsAreFull(h: Hunts, x: Step, interval: nat)
    requires Reachable(h, interval) && Enabled(h, x) && Next(h, x, interval).lastFull != h.lastFull
    ensures x.EndClean? && h.chain.Some?
    ensures Next(h, x, interval).finished == h.finished + [Range(h.chain.value.base, h.chain.value.pinned)]
    ensures h.chain.value.base == 0 || h.finished == []
  {
    ReachableOk(h, interval);
  }

  /** And it does move then: a clean end records its chain's end as the
      watermark, and the time of a full hunt exactly if its range was the
      complete history or the repo's first. */
  lemma CleanEndRecords(h: Hunts, interval: nat)
    requires Reachable(h, interval) && Enabled(h, EndClean)
    ensures var h' := Next(h, EndClean, interval);
      && h'.last == Some(h.chain.value.pinned)
      && h'.lastFull == (if h.chain.value.base == 0 || h.finished == [] then Some(h.now) else h.lastFull)
      && h'.chain.None? && h'.place.Idle?
  {
    ReachableOk(h, interval);
  }

  /** Any other end of an attempt - a refusal, a pause, a crash, an unclean
      end, a chain that was dropped - leaves the watermark and the full hunt's
      time alone; a pause, and a crash that left a transcript, keep the chain
      as it is. */
  lemma OtherEndsRecordNothing(h: Hunts, x: Step, interval: nat)
    requires Reachable(h, interval) && Enabled(h, x)
    requires x.Refused? || x.Suspend? || x.EndUnclean? || x.Drop? || x.Crash?
    ensures var h' := Next(h, x, interval);
      && h'.last == h.last && h'.lastFull == h.lastFull && h'.requested == h.requested && h'.attempted == h.attempted
      && (x.Suspend? ==> h'.chain == h.chain && h'.place.Idle?)
      && (x.Crash? && x.transcript && h.place.Working? ==> h'.chain == h.chain && h'.place.Idle?)
      && (x.EndUnclean? || x.Drop? ==> h'.chain.None?)
  {}

  /** A cold hunt, from reading its repo's row to the worker's start. */
  function ColdHunt(first: nat): seq<Step> {
    [ColdRead, Fetched(first), Create, Mark]
  }

  /** What it reviews: everything, if a re-hunt is asked for or the last full
      hunt is at least the interval old; else what came after the watermark;
      in a repo never hunted what came after `first`. */
  function BaseFor(h: Hunts, first: nat, interval: nat): nat {
    if h.requested.Some? || (h.lastFull.Some? && h.lastFull.value + interval <= h.now) then 0
    else if h.last.Some? then h.last.value else first
  }

  lemma ColdHuntReads(h: Hunts, first: nat, interval: nat)
    requires Enabled(h, ColdRead) && first < h.tip
    ensures var row, base := Row(h.last, h.lastFull, h.requested, |h.issued|), BaseFor(h, first, interval);
      var h1 := h.(place := Fetching(row));
      && Next(h, ColdRead, interval) == h1 && Enabled(h1, Fetched(first))
      && var h2 := Next(h1, Fetched(first), interval);
         && (h.last == Some(h.tip) && !RehuntDue(row, h.now, interval) ==> h2 == h)
         && (h.last != Some(h.tip) || RehuntDue(row, h.now, interval) ==>
               && h2 == h1.(last := h2.last, place := Gated(row, h.tip, base))
               && (RehuntDue(row, h.now, interval) ==> base == 0))
  {}

  lemma ColdHuntStarts(h: Hunts, row: Row, head: nat, base: nat, interval: nat)
    requires h.place == Gated(row, head, base)
    ensures Enabled(h, Create)
    ensures var h3 := Next(h, Create, interval);
      && Enabled(h3, Mark)
      && Next(h3, Mark, interval) == MarkAttempted(h, row.request).(
           chain := Some(Chain(base, head, base == 0, if base == 0 then row.request else None, row.seen)),
           place := Working(row.lastFull, base == 0))
  {}

  lemma StepOn(h: Hunts, x: Step, xs: seq<Step>, interval: nat)
    requires Enabled(h, x)
    ensures After(h, [x] + xs, interval) == After(Next(h, x, interval), xs, interval)
  {
    assert ([x] + xs)[0] == x && ([x] + xs)[1..] == xs;
  }

  lemma TwoOn(h: Hunts, x: Step, y: Step, xs: seq<Step>, interval: nat)
    requires Enabled(h, x) && Enabled(Next(h, x, interval), y)
    ensures After(h, [x, y] + xs, interval) == After(Next(Next(h, x, interval), y, interval), xs, interval)
  {
    StepOn(h, x, [y] + xs, interval);
    StepOn(Next(h, x, interval), y, xs, interval);
    assert [x] + ([y] + xs) == [x, y] + xs;
  }

  /** A cold hunt that is let in reviews exactly that range, up to the commit
      it fetched, and takes the request it read as attempted; it starts with
      nothing to review in one case only, a watermark at that commit. */
  lemma ColdHuntCovers(h: Hunts, first: nat, interval: nat)
    requires Reachable(h, interval) && Enabled(h, ColdRead) && first < h.tip
    ensures var base := BaseFor(h, first, interval);
      if h.last == Some(h.tip) && base != 0 then After(h, [ColdRead, Fetched(first)], interval) == Some(h)
      else
        var after := After(h, ColdHunt(first), interval);
        && after.Some? && after.value.chain.Some?
        && after.value.chain.value.base == base && after.value.chain.value.pinned == h.tip
        && (after.value.chain.value.full <==> base == 0)
        && after.value.chain.value.request == (if base == 0 then h.requested else None)
        && (h.requested.Some? ==> after.value.attempted == h.requested)
        && (h.requested.None? ==> after.value.attempted == h.attempted)
        && after.value.requested == h.requested
  {
    ReachableOk(h, interval);
    ColdHuntReads(h, first, interval);
    var row, base := Row(h.last, h.lastFull, h.requested, |h.issued|), BaseFor(h, first, interval);
    var h2 := Next(Next(h, ColdRead, interval), Fetched(first), interval);
    if h.last == Some(h.tip) && base != 0 {
      TwoOn(h, ColdRead, Fetched(first), [], interval);
      assert [ColdRead, Fetched(first)] + [] == [ColdRead, Fetched(first)];
    } else {
      ColdHuntStarts(h2, row, h.tip, base, interval);
      TwoOn(h, ColdRead, Fetched(first), [Create, Mark], interval);
      TwoOn(h2, Create, Mark, [], interval);
      assert [ColdRead, Fetched(first)] + [Create, Mark] == ColdHunt(first);
      assert [Create, Mark] + [] == [Create, Mark];
    }
  }

  /** Once a hunt has finished, a cleared watermark is only ever set again by
      a chain over the complete history. */
  lemma ClearedMeansFullPass(h: Hunts, x: Step, interval: nat)
    requires Reachable(h, interval) && Enabled(h, x) && h.last.None? && h.finished != []
    ensures Next(h, x, interval).last.None?
      || (x.EndClean? && h.chain.Some? && h.chain.value.base == 0)
  {
    ReachableOk(h, interval);
  }

  /** Requests are told apart by their value: it never repeats. */
  lemma RequestsNeverRepeat(h: Hunts, interval: nat)
    requires Reachable(h, interval)
    ensures Increasing(h.issued)
    ensures NewRequest(h) !in h.issued
  {
    ReachableOk(h, interval);
    AskKeeps(h, interval);
    var s := Next(h, Ask, interval).issued;
    forall i | 0 <= i < |h.issued| ensures h.issued[i] != NewRequest(h) {
      assert s[i] < s[|s| - 1];
    }
  }

  /** A pending request is settled exactly by the clean end of the
      full-history chain that accepted it, which had read it before its job
      existed; nothing else but a newer request takes it away. */
  lemma SettledByItsChain(h: Hunts, x: Step, interval: nat)
    requires Reachable(h, interval) && Enabled(h, x) && h.requested.Some?
    ensures Next(h, x, interval).requested.None? <==>
      x.EndClean? && h.chain.value.request == h.requested
    ensures Next(h, x, interval).requested.None? ==>
      && h.chain.Some? && h.chain.value.base == 0 && h.chain.value.full
      && h.chain.value.seen == |h.issued| && h.requested.value in h.tried
    ensures Next(h, x, interval).requested.Some? && !x.Ask? ==> Next(h, x, interval).requested == h.requested
  {
    ReachableOk(h, interval);
  }

  /** A request jumps the queue exactly until a hunt has attempted it. */
  lemma UrgentUntilAttempted(h: Hunts, interval: nat)
    requires Reachable(h, interval)
    ensures h.requested.Some? && h.requested != h.attempted <==> h.requested.Some? && h.requested.value !in h.tried
  {
    ReachableOk(h, interval);
    if h.requested.Some? && h.requested.value in h.tried {
      var a := h.attempted.value;
      assert a in h.issued && a <= h.requested.value by {
        var i :| 0 <= i < |h.issued| && h.issued[i] == a;
        assert h.issued[i] <= h.issued[|h.issued| - 1];
      }
    }
  }

  /** A request is urgent for one attempt only, even if that cannot fetch: once
      the fetch has failed, or the worker has started, the request that was
      read is no longer ahead of the rotation. */
  lemma AttemptedIsNotUrgent(h: Hunts, x: Step, interval: nat)
    requires Reachable(h, interval) && Enabled(h, x) && (x.FetchFails? || x.Mark?) && h.place.row.request.Some?
    ensures var h' := Next(h, x, interval);
      && h'.attempted == h.place.row.request && h.place.row.request.value in h'.tried
      && (h'.requested == h.place.row.request ==> h'.requested == h'.attempted)
  {}

  /** No step of the run ends the chain or gives it up: it may be suspended,
      resumed, and left behind by a crash that keeps its transcript. */
  predicate ChainSurvives(h: Hunts, xs: seq<Step>, interval: nat)
    decreases |xs|
  {
    h.chain.Some? && (xs != [] && Enabled(h, xs[0]) ==> ChainSurvives(Next(h, xs[0], interval), xs[1..], interval))
  }

  /** While a chain lives it keeps the requests it had read. */
  lemma SeenStays(h: Hunts, x: Step, interval: nat)
    requires Reachable(h, interval) && Enabled(h, x) && h.chain.Some? && Next(h, x, interval).chain.Some?
    ensures Next(h, x, interval).chain.value.seen == h.chain.value.seen
    ensures |h.issued| <= |Next(h, x, interval).issued|
    ensures h.requested.Some? ==> Next(h, x, interval).requested.Some?
  {
    ReachableOk(h, interval);
    if h.requested.Some? { SettledByItsChain(h, x, interval); }
  }

  /** A chain never settles a request made after it read its repo row, however
      the run goes on until it ends. */
  lemma {:induction false} LaterRequestOutlivesChain(h: Hunts, xs: seq<Step>, interval: nat)
    requires Reachable(h, interval) && h.chain.Some? && h.requested.Some? && h.chain.value.seen < |h.issued|
    requires ChainSurvives(h, xs, interval)
    requires After(h, xs + [EndClean], interval).Some?
    ensures After(h, xs + [EndClean], interval).value.requested.Some?
    decreases |xs|
  {
    var all := xs + [EndClean];
    if xs == [] {
      assert all == [EndClean] && all[1..] == [];
      SettledByItsChain(h, EndClean, interval);
    } else {
      assert all[0] == xs[0] && all[1..] == xs[1..] + [EndClean];
      ReachesNext(h, xs[0], interval);
      assert ChainSurvives(Next(h, xs[0], interval), xs[1..], interval);
      SeenStays(h, xs[0], interval);
      LaterRequestOutlivesChain(Next(h, xs[0], interval), xs[1..], interval);
    }
  }

  lemma {:induction false} RunsExtend(h: Hunts, xs: seq<Step>, x: Step, interval: nat)
    requires After(h, xs, interval).Some? && Enabled(After(h, xs, interval).value, x)
    ensures After(h, xs + [x], interval) == Some(Next(After(h, xs, interval).value, x, interval))
    decreases |xs|
  {
    if xs == [] {
      assert xs + [x] == [x] && [x][1..] == [];
      assert After(Next(h, x, interval), [], interval) == Some(Next(h, x, interval));
    } else {
      assert (xs + [x])[0] == xs[0] && (xs + [x])[1..] == xs[1..] + [x];
      RunsExtend(Next(h, xs[0], interval), xs[1..], x, interval);
    }
  }

  lemma ReachesNext(h: Hunts, x: Step, interval: nat)
    requires Reachable(h, interval) && Enabled(h, x)
    ensures Reachable(Next(h, x, interval), interval)
  {
    var xs :| After(FRESH_REPO, xs, interval) == Some(h);
    RunsExtend(FRESH_REPO, xs, x, interval);
  }
}
