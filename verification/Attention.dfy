/** When an open PR is flagged for an engage, and when a flag that was dealt
    with stays down (hunter-rs/src/scheduler.rs, hunter-rs/src/store.rs).
    Times are milliseconds. */
module Attention {
  import opened Domain
  import opened Strings

  /** What one sync reads from the forge: `failing` holds the names of the
      failing checks, sorted and distinct. */
  datatype PrView = PrView(
    changesRequested: bool,
    conflicting: bool,
    failing: seq<string>,
    head: string,
    activity: int,
    updated: int)

  /** The columns of `pr_state` that decide attention. A row that does not
      exist yet reads as `NO_ROW`. */
  datatype PrState = PrState(
    activity: Option<int>,
    engaged: Option<int>,
    attention: Option<string>,
    since: Option<int>,
    fingerprint: Option<string>,
    head: Option<string>,
    addressedFingerprint: Option<string>,
    addressedHead: Option<string>)

  const NO_ROW := PrState(None, None, None, None, None, None, None, None)

  function StaticParts(v: PrView): seq<string> {
    (if v.changesRequested then ["review:CHANGES_REQUESTED"] else [])
    + (if v.conflicting then ["mergeable:CONFLICTING"] else [])
    + (if v.failing != [] then ["checks:" + Join(v.failing, ",")] else [])
  }

  /** `attention_fingerprint`. */
  function Fingerprint(v: PrView): Option<string> {
    if StaticParts(v) == [] then None else Some(Join(StaticParts(v), "|"))
  }

  predicate Troubled(v: PrView) {
    v.changesRequested || v.conflicting || v.failing != []
  }

  /** The engaged watermark a sync goes by: the first one baselines it. */
  function Baseline(r: PrState, v: PrView): int {
    if r.engaged.Some? then r.engaged.value else if v.updated >= v.activity then v.updated else v.activity
  }

  predicate Suppressed(r: PrState, v: PrView) {
    && Fingerprint(v).Some? && Fingerprint(v) == r.addressedFingerprint
    && r.addressedHead == Some(v.head)
  }

  function Problems(v: PrView): seq<string> {
    (if v.changesRequested then ["changes_requested"] else [])
    + (if v.conflicting then ["conflict"] else [])
    + (if v.failing != [] then ["checks_failing"] else [])
  }

  function Reasons(r: PrState, v: PrView): seq<string> {
    (if v.activity > Baseline(r, v) then ["new_comments"] else [])
    + (if Suppressed(r, v) then [] else Problems(v))
  }

  function Flag(r: PrState, v: PrView): Option<string> {
    if Reasons(r, v) == [] then None else Some(Join(Reasons(r, v), ","))
  }

  /** One sync of an open PR. */
  function Synced(r: PrState, v: PrView, now: int): PrState {
    var flag := Flag(r, v);
    var stale := r.addressedFingerprint.Some?
      && (Fingerprint(v) != r.addressedFingerprint || r.addressedHead != Some(v.head));
    PrState(
      Some(v.activity),
      Some(Baseline(r, v)),
      flag,
      if flag == r.attention then r.since else if flag.Some? then Some(now) else None,
      Fingerprint(v),
      Some(v.head),
      if stale then None else r.addressedFingerprint,
      if stale then None else r.addressedHead)
  }

  /** `set_attention_aside`. */
  function SetAside(r: PrState, now: int): PrState {
    r.(engaged := if r.activity.Some? then r.activity else Some(now),
       addressedFingerprint := r.fingerprint, addressedHead := r.head,
       attention := None, since := None)
  }

  /** A finished engage, `mark_pr_engaged`. */
  function Engaged(r: PrState, pushed: bool, replied: bool, now: int): PrState {
    r.(engaged := Some(if replied then now + 3_000 else if r.activity.Some? then r.activity.value else now),
       addressedFingerprint := if pushed then None else r.fingerprint,
       addressedHead := if pushed then None else r.head)
  }

  // ------------------------------------------------------------------
  // What a fingerprint tells
  // ------------------------------------------------------------------

  /** The same standing problems: the same checks fail, as far as their names
      can be told apart once they are joined by commas. */
  predicate SameProblems(v: PrView, w: PrView) {
    && v.changesRequested == w.changesRequested && v.conflicting == w.conflicting
    && Pieces(v.failing, ',') == Pieces(w.failing, ',')
  }

  /** `part` in front of `rest`. */
  function Before(part: string, there: bool, rest: string): string {
    if !there then rest else if rest == "" then part else part + "|" + rest
  }

  const REVIEW := "review:CHANGES_REQUESTED"
  const MERGEABLE := "mergeable:CONFLICTING"
  const CHECKS := "checks:"

  function ChecksText(v: PrView): string {
    if v.failing == [] then "" else CHECKS + Join(v.failing, ",")
  }

  lemma FingerprintText(v: PrView)
    ensures Join(StaticParts(v), "|")
      == Before(REVIEW, v.changesRequested, Before(MERGEABLE, v.conflicting, ChecksText(v)))
  {
    var m := if v.conflicting then [MERGEABLE] else [];
    var c := if v.failing != [] then [ChecksText(v)] else [];
    if v.failing != [] { assert ChecksText(v)[0] == 'c'; }
    assert StaticParts(v) == (if v.changesRequested then [REVIEW] else []) + m + c;
    assert m + c == [] ==> StaticParts(v) == if v.changesRequested then [REVIEW] else [];
    if m != [] && c != [] { JoinOneMore(MERGEABLE, c, "|"); }
    assert Join(m + c, "|") == Before(MERGEABLE, v.conflicting, ChecksText(v));
    if v.changesRequested && m + c != [] {
      JoinOneMore(REVIEW, m + c, "|");
      assert [REVIEW] + (m + c) == StaticParts(v);
    } else if !v.changesRequested {
      assert StaticParts(v) == m + c;
    }
  }

  /** Whether a part is in front can be told from the first character. */
  lemma BeforeStarts(part: string, there: bool, rest: string)
    requires part != "" && (rest != "" ==> rest[0] != part[0])
    ensures there <==> Before(part, there, rest) != "" && Before(part, there, rest)[0] == part[0]
    ensures there ==> Before(part, there, rest)[|part|..] == if rest == "" then "" else "|" + rest
    ensures !there ==> Before(part, there, rest) == rest
  {}

  lemma BeforeAlike(part: string, on1: bool, rest1: string, on2: bool, rest2: string)
    requires part != "" && (rest1 != "" ==> rest1[0] != part[0]) && (rest2 != "" ==> rest2[0] != part[0])
    ensures Before(part, on1, rest1) == Before(part, on2, rest2) <==> on1 == on2 && rest1 == rest2
  {
    BeforeStarts(part, on1, rest1);
    BeforeStarts(part, on2, rest2);
    assert rest1 != "" ==> ("|" + rest1)[1..] == rest1;
    assert rest2 != "" ==> ("|" + rest2)[1..] == rest2;
  }

  lemma ChecksAlike(v: PrView, w: PrView)
    ensures ChecksText(v) == ChecksText(w) <==> Pieces(v.failing, ',') == Pieces(w.failing, ',')
  {
    SomePieces(v.failing, ',');
    SomePieces(w.failing, ',');
    if v.failing != [] && w.failing != [] {
      JoinedAlike(v.failing, w.failing, ',');
      assert ChecksText(v)[|CHECKS|..] == Join(v.failing, ",");
      assert ChecksText(w)[|CHECKS|..] == Join(w.failing, ",");
    }
  }

  /** The text from the second part on. */
  function LowerText(v: PrView): string {
    Before(MERGEABLE, v.conflicting, ChecksText(v))
  }

  lemma FirstCharacters(v: PrView)
    ensures ChecksText(v) != "" ==> ChecksText(v)[0] == 'c'
    ensures ChecksText(v) == "" <==> v.failing == []
    ensures LowerText(v) != "" ==> LowerText(v)[0] == 'm' || LowerText(v)[0] == 'c'
    ensures LowerText(v) == "" <==> !v.conflicting && v.failing == []
    ensures MERGEABLE[0] == 'm' && REVIEW[0] == 'r'
  {}

  lemma TextAlike(v: PrView, w: PrView)
    ensures Join(StaticParts(v), "|") == Join(StaticParts(w), "|") <==> SameProblems(v, w)
    ensures Join(StaticParts(v), "|") == "" <==> !Troubled(v)
  {
    FingerprintText(v);
    FingerprintText(w);
    FirstCharacters(v);
    FirstCharacters(w);
    ChecksAlike(v, w);
    BeforeAlike(MERGEABLE, v.conflicting, ChecksText(v), w.conflicting, ChecksText(w));
    BeforeAlike(REVIEW, v.changesRequested, LowerText(v), w.changesRequested, LowerText(w));
  }

  /** Two views have the same fingerprint exactly if they have the same
      problems. */
  lemma FingerprintExact(v: PrView, w: PrView)
    ensures Fingerprint(v) == Fingerprint(w) <==> SameProblems(v, w)
  {
    TextAlike(v, w);
    TextAlike(w, v);
  }

  /** For check names without a comma that means the very same checks. */
  lemma PlainNamesTold(v: PrView, w: PrView)
    requires (forall n | n in v.failing :: ',' !in n) && (forall n | n in w.failing :: ',' !in n)
    ensures SameProblems(v, w) <==>
      && v.changesRequested == w.changesRequested && v.conflicting == w.conflicting && v.failing == w.failing
  {
    PlainPieces(v.failing, ',');
    PlainPieces(w.failing, ',');
  }

  // ------------------------------------------------------------------
  // When a sync flags
  // ------------------------------------------------------------------

  lemma FingerprintIffTroubled(v: PrView)
    ensures Fingerprint(v).Some? <==> Troubled(v)
  {}

  /** A sync flags exactly on activity past the watermark, or on a standing
      problem that was not addressed in this very form at this very head. */
  lemma FlagsExactly(r: PrState, v: PrView, now: int)
    ensures Synced(r, v, now).attention.Some? <==>
      || v.activity > Baseline(r, v)
      || (Troubled(v) && !(r.addressedFingerprint == Fingerprint(v) && r.addressedHead == Some(v.head)))
  {
    FingerprintIffTroubled(v);
  }

  lemma ReasonMembers(r: PrState, v: PrView)
    ensures "new_comments" in Reasons(r, v) <==> v.activity > Baseline(r, v)
    ensures "changes_requested" in Reasons(r, v) <==> v.changesRequested && !Suppressed(r, v)
    ensures "conflict" in Reasons(r, v) <==> v.conflicting && !Suppressed(r, v)
    ensures "checks_failing" in Reasons(r, v) <==> v.failing != [] && !Suppressed(r, v)
  {
    assert "new_comments"[0] != "conflict"[0] && "checks_failing"[1] == "changes_requested"[1];
    assert |"new_comments"| == 12 && |"changes_requested"| == 17 && |"conflict"| == 8 && |"checks_failing"| == 14;
  }

  lemma ReasonNamesPlain()
    ensures ',' !in "new_comments" && ',' !in "changes_requested" && ',' !in "conflict" && ',' !in "checks_failing"
  {}

  lemma ReasonsPlain(r: PrState, v: PrView)
    ensures forall p | p in Reasons(r, v) :: ',' !in p && p != ""
  {
    ReasonNamesPlain();
  }

  lemma FlagTells(r1: PrState, v1: PrView, r2: PrState, v2: PrView)
    ensures Flag(r1, v1) == Flag(r2, v2) <==> Reasons(r1, v1) == Reasons(r2, v2)
  {
    ReasonsPlain(r1, v1);
    ReasonsPlain(r2, v2);
    PlainPieces(Reasons(r1, v1), ',');
    PlainPieces(Reasons(r2, v2), ',');
    if Reasons(r1, v1) != [] && Reasons(r2, v2) != [] { JoinedAlike(Reasons(r1, v1), Reasons(r2, v2), ','); }
  }

  /** The reason of a flag says what raised it: newer activity, and which of
      the three problems stands unaddressed. */
  lemma ReasonTells(r1: PrState, v1: PrView, r2: PrState, v2: PrView)
    ensures Flag(r1, v1) == Flag(r2, v2) <==>
      && (v1.activity > Baseline(r1, v1) <==> v2.activity > Baseline(r2, v2))
      && (v1.changesRequested && !Suppressed(r1, v1) <==> v2.changesRequested && !Suppressed(r2, v2))
      && (v1.conflicting && !Suppressed(r1, v1) <==> v2.conflicting && !Suppressed(r2, v2))
      && (v1.failing != [] && !Suppressed(r1, v1) <==> v2.failing != [] && !Suppressed(r2, v2))
  {
    ReasonMembers(r1, v1);
    ReasonMembers(r2, v2);
    FlagTells(r1, v1, r2, v2);
  }

  /** Our own chatter when the PR was made is no news. */
  lemma FirstSyncIgnoresChatter(v: PrView, now: int)
    ensures Synced(NO_ROW, v, now).attention.Some? <==> Troubled(v)
  {
    FingerprintIffTroubled(v);
  }

  // ------------------------------------------------------------------
  // Quiet for good
  // ------------------------------------------------------------------

  /** The same static situation and head, and no activity past `activity`. */
  predicate SameSituation(fingerprint: Option<string>, head: string, activity: int, v: PrView) {
    Fingerprint(v) == fingerprint && v.head == head && v.activity <= activity
  }

  /** A row whose standing problem counts as addressed. */
  predicate Settled(r: PrState, fingerprint: Option<string>, head: string, activity: int) {
    && r.engaged.Some? && activity <= r.engaged.value
    && (fingerprint.Some? ==> r.addressedFingerprint == fingerprint && r.addressedHead == Some(head))
  }

  /** Check names with commas in them can hide one another: a PR set aside for
      one check stays unflagged when two others fail in its place. */
  lemma CommasHideChecks()
    ensures var v, w := PrView(false, false, ["a,b"], "h", 0, 0), PrView(false, false, ["a", "b"], "h", 0, 0);
      v.failing != w.failing && Synced(SetAside(Synced(NO_ROW, v, 0), 1), w, 2).attention.None?
  {
    var v, w := PrView(false, false, ["a,b"], "h", 0, 0), PrView(false, false, ["a", "b"], "h", 0, 0);
    assert ["a,b"][..0] == [] && ["a", "b"][..1] == ["a"] && ["a"][..0] == [];
    SplitAt("a", ',', "b");
    assert "a" + [','] + "b" == "a,b";
    PlainPieces(["a", "b"], ',');
    SplitNone("b", ',');
    assert Pieces(["a,b"], ',') == ["a", "b"];
    FingerprintExact(v, w);
    FlagsExactly(SetAside(Synced(NO_ROW, v, 0), 1), w, 2);
  }

  /** A problem that went away and came back is news, even in the same form at
      the same head. */
  lemma ReturningProblemFlags(r: PrState, calm: PrView, back: PrView, t1: int, t2: int)
    requires !Troubled(calm) && Troubled(back)
    ensures Synced(Synced(r, calm, t1), back, t2).attention.Some?
  {
    FingerprintIffTroubled(calm);
    FingerprintIffTroubled(back);
    FlagsExactly(Synced(r, calm, t1), back, t2);
  }

  // ------------------------------------------------------------------
  // Everything that happens to a row
  // ------------------------------------------------------------------

  /** A sync, a given-up engage chain, or a finished engage. */
  datatype Event =
    | Seen(view: PrView, at: int)
    | Aside(at: int)
    | Engage(pushed: bool, replied: bool, at: int)

  /** The two updates change no row that is not there. */
  function Happens(r: PrState, e: Event): PrState {
    match e
    case Seen(v, at) => Synced(r, v, at)
    case Aside(at) => if r == NO_ROW then r else SetAside(r, at)
    case Engage(pushed, replied, at) => if r == NO_ROW then r else Engaged(r, pushed, replied, at)
  }

  function AllHappen(r: PrState, es: seq<Event>): PrState
    decreases |es|
  {
    if es == [] then r else AllHappen(Happens(r, es[0]), es[1..])
  }

  lemma {:induction false} EventsCompose(r: PrState, a: seq<Event>, b: seq<Event>)
    ensures AllHappen(r, a + b) == AllHappen(AllHappen(r, a), b)
    decreases |a|
  {
    if a == [] {
      assert a + b == b;
    } else {
      assert (a + b)[0] == a[0] && (a + b)[1..] == a[1..] + b;
      EventsCompose(Happens(r, a[0]), a[1..], b);
    }
  }

  lemma OneHappens(r: PrState, e: Event)
    ensures AllHappen(r, [e]) == Happens(r, e)
  {
    assert [e][1..] == [];
  }

  /** Nothing new: syncs of the situation of `v`, and ways of dealing with it
      that push nothing - and, with `silent`, reply nothing either. A reply is
      not dated before the activity it answers. */
  predicate Uneventful(v: PrView, silent: bool, e: Event) {
    match e
    case Seen(w, _) => SameProblems(w, v) && w.head == v.head && w.activity == v.activity
    case Aside(_) => true
    case Engage(pushed, replied, at) => !pushed && (replied ==> !silent && at + 3_000 >= v.activity)
  }

  /** The row holds the situation of `v`, and it is dealt with. */
  predicate HoldsSettled(r: PrState, v: PrView) {
    && r.fingerprint == Fingerprint(v) && r.head == Some(v.head) && r.activity == Some(v.activity)
    && r.addressedHead == Some(v.head) && r.addressedFingerprint == Fingerprint(v)
    && r.engaged.Some? && v.activity <= r.engaged.value
  }

  lemma UneventfulStep(r: PrState, v: PrView, silent: bool, e: Event)
    requires HoldsSettled(r, v) && Uneventful(v, silent, e)
    ensures HoldsSettled(Happens(r, e), v)
    ensures silent && r.engaged == Some(v.activity) ==> Happens(r, e).engaged == Some(v.activity)
    ensures e.Seen? || e.Aside? ==> Happens(r, e).attention.None?
    ensures e.Engage? ==> Happens(r, e).attention == r.attention
  {
    if e.Seen? {
      FingerprintExact(e.view, v);
      FingerprintIffTroubled(v);
      FingerprintIffTroubled(e.view);
      FlagsExactly(r, e.view, e.at);
    }
  }

  lemma {:induction false} UneventfulRun(r: PrState, v: PrView, silent: bool, es: seq<Event>)
    requires HoldsSettled(r, v) && forall e | e in es :: Uneventful(v, silent, e)
    ensures HoldsSettled(AllHappen(r, es), v)
    ensures silent && r.engaged == Some(v.activity) ==> AllHappen(r, es).engaged == Some(v.activity)
    ensures r.attention.None? || (exists e | e in es :: !e.Engage?) ==> AllHappen(r, es).attention.None?
    decreases |es|
  {
    if es != [] {
      UneventfulStep(r, v, silent, es[0]);
      UneventfulRun(Happens(r, es[0]), v, silent, es[1..]);
      assert forall e | e in es && !e.Engage? :: e == es[0] || e in es[1..];
    }
  }

  /** Set aside, or engaged without a push. */
  predicate DealtWith(v: PrView, silent: bool, e: Event) {
    !e.Seen? && Uneventful(v, silent, e)
  }

  lemma DealingSettles(r: PrState, v: PrView, synced: int, silent: bool, deal: Event)
    requires DealtWith(v, silent, deal)
    ensures HoldsSettled(Happens(Synced(r, v, synced), deal), v)
    ensures silent ==> Happens(Synced(r, v, synced), deal).engaged == Some(v.activity)
  {}

  /** Once dealt with, a flagged PR stays unflagged through every mixture of
      syncs of that situation, give-ups and engages without a push, from the
      first sync or give-up on. */
  lemma DealtWithStaysQuiet(r: PrState, v: PrView, synced: int, deal: Event, es: seq<Event>)
    requires DealtWith(v, false, deal) && forall e | e in es :: Uneventful(v, false, e)
    requires deal.Aside? || exists e | e in es :: !e.Engage?
    ensures AllHappen(Synced(r, v, synced), [deal] + es).attention.None?
  {
    var r1 := Synced(r, v, synced);
    DealingSettles(r, v, synced, false, deal);
    UneventfulRun(Happens(r1, deal), v, false, es);
    EventsCompose(r1, [deal], es);
    OneHappens(r1, deal);
  }

  /** And after any such mixture in which nothing was replied, the next sync
      flags it again exactly when it brings newer activity, or a standing
      problem in another form or at another head. */
  lemma NewsFlagsAgain(r: PrState, v: PrView, synced: int, deal: Event, es: seq<Event>, news: PrView, at: int)
    requires DealtWith(v, true, deal) && forall e | e in es :: Uneventful(v, true, e)
    ensures AllHappen(Synced(r, v, synced), [deal] + es + [Seen(news, at)]).attention.Some? <==>
      || news.activity > v.activity
      || (Troubled(news) && (!SameProblems(news, v) || news.head != v.head))
  {
    var r1 := Synced(r, v, synced);
    DealingSettles(r, v, synced, true, deal);
    UneventfulRun(Happens(r1, deal), v, true, es);
    EventsCompose(r1, [deal], es);
    OneHappens(r1, deal);
    var r2 := AllHappen(r1, [deal] + es);
    EventsCompose(r1, [deal] + es, [Seen(news, at)]);
    OneHappens(r2, Seen(news, at));
    FlagsExactly(r2, news, at);
    FingerprintIffTroubled(news);
    FingerprintExact(news, v);
  }

  /** A settled row stays unflagged through any number of syncs of its
      situation, comments that were since taken back included. */
  lemma {:induction false} SettledStaysQuiet(
      r: PrState, es: seq<Event>, fingerprint: Option<string>, head: string, activity: int)
    requires Settled(r, fingerprint, head, activity)
    requires forall e | e in es :: e.Seen? && SameSituation(fingerprint, head, activity, e.view)
    ensures Settled(AllHappen(r, es), fingerprint, head, activity)
    ensures AllHappen(r, es).engaged == r.engaged
    ensures es != [] ==> AllHappen(r, es).attention.None?
    decreases |es|
  {
    if es != [] {
      var v := es[0].view;
      assert es[0].Seen? && SameSituation(fingerprint, head, activity, v);
      FingerprintIffTroubled(v);
      FlagsExactly(r, v, es[0].at);
      SettledStaysQuiet(Happens(r, es[0]), es[1..], fingerprint, head, activity);
    }
  }

  // ------------------------------------------------------------------
  // The sync after an engage
  // ------------------------------------------------------------------

  predicate SameView(v: PrView, w: PrView) {
    SameProblems(w, v) && w.head == v.head && w.activity == v.activity
  }

  /** With nothing done about a PR, the next sync of its situation flags it
      exactly as the last one did. */
  lemma UnansweredFlagsAgain(r: PrState, v: PrView, synced: int, again: PrView, at: int)
    requires SameView(v, again)
    ensures Synced(Synced(r, v, synced), again, at).attention.Some? <==> Synced(r, v, synced).attention.Some?
  {
    FingerprintExact(again, v);
    FingerprintIffTroubled(v);
    FingerprintIffTroubled(again);
    FlagsExactly(r, v, synced);
    FlagsExactly(Synced(r, v, synced), again, at);
  }

  /** After a finished engage it flags exactly on activity past what the
      engage read - past its own reply, if it wrote one - or on a standing
      problem: any one after a push, else one in another form or at another
      head. */
  lemma AnsweredFlags(r: PrState, v: PrView, synced: int, pushed: bool, replied: bool, done: int, news: PrView, at: int)
    ensures Synced(Engaged(Synced(r, v, synced), pushed, replied, done), news, at).attention.Some? <==>
      || news.activity > (if replied then done + 3_000 else v.activity)
      || (Troubled(news) && (pushed || !SameProblems(news, v) || news.head != v.head))
  {
    FingerprintIffTroubled(v);
    FingerprintIffTroubled(news);
    FingerprintExact(news, v);
    FlagsExactly(Engaged(Synced(r, v, synced), pushed, replied, done), news, at);
  }

  // ------------------------------------------------------------------
  // attention_since
  // ------------------------------------------------------------------

  /** `attention_since` dates the current reason. */
  predicate SinceDatesReason(r: PrState, history: seq<(Option<string>, int)>) {
    if history == [] then r.attention.None? && r.since.None?
    else
      && r.attention == history[|history| - 1].0
      && (r.attention.None? ==> r.since.None?)
      && (r.attention.Some? ==> RunStart(history) < |history| && r.since == Some(history[RunStart(history)].1))
  }

  /** Where the last reason in a history began. */
  function RunStart(history: seq<(Option<string>, int)>): (i: nat)
    requires history != []
    ensures i < |history|
  {
    if |history| == 1 || history[|history| - 2].0 != history[|history| - 1].0 then |history| - 1
    else RunStart(history[..|history| - 1])
  }

  /** The reason that stands after each event, with the event's time. */
  function ReasonLog(r: PrState, es: seq<Event>): (log: seq<(Option<string>, int)>)
    ensures |log| == |es|
  {
    if es == [] then []
    else ReasonLog(r, es[..|es| - 1]) + [(AllHappen(r, es).attention, es[|es| - 1].at)]
  }

  /** What one event does to the reason and its date. */
  lemma SinceStep(r: PrState, e: Event)
    requires r.attention.None? ==> r.since.None?
    ensures Happens(r, e).attention == r.attention ==> Happens(r, e).since == r.since
    ensures Happens(r, e).attention != r.attention ==>
      Happens(r, e).since == if Happens(r, e).attention.Some? then Some(e.at) else None
  {}

  /** Through every run of syncs, give-ups and engages the date is that of the
      event at which the standing reason first appeared: it changes only when
      the reason does. */
  lemma {:induction false} SinceFollowsReason(es: seq<Event>)
    ensures SinceDatesReason(AllHappen(NO_ROW, es), ReasonLog(NO_ROW, es))
    decreases |es|
  {
    if es != [] {
      var init, last := es[..|es| - 1], es[|es| - 1];
      SinceFollowsReason(init);
      assert es == init + [last];
      EventsCompose(NO_ROW, init, [last]);
      var r := AllHappen(NO_ROW, init);
      OneHappens(r, last);
      SinceStep(r, last);
      var log, log1 := ReasonLog(NO_ROW, init), ReasonLog(NO_ROW, es);
      assert log1[..|log1| - 1] == log;
    }
  }

  // ------------------------------------------------------------------
  // The table
  // ------------------------------------------------------------------

  /** `pr_state`, written in place. */
  class PrTable {
    var rows: map<nat, PrState>

    constructor ()
      ensures rows == map[]
    {
      rows := map[];
    }

    function Row(f: nat): PrState
      reads this
    {
      if f in rows then rows[f] else NO_ROW
    }

    /** The reasons, pushed one after the other. */
    method AddProblems(v: PrView, before: seq<string>) returns (reasons: seq<string>)
      ensures reasons == before + Problems(v)
    {
      reasons := before;
      if v.changesRequested { reasons := reasons + ["changes_requested"]; }
      if v.conflicting { reasons := reasons + ["conflict"]; }
      if v.failing != [] { reasons := reasons + ["checks_failing"]; }
    }

    method FlagFor(r: PrState, v: PrView) returns (flag: Option<string>)
      ensures flag == Flag(r, v)
    {
      var reasons: seq<string> := [];
      if v.activity > Baseline(r, v) { reasons := ["new_comments"]; }
      var suppressed := Suppressed(r, v);
      if !suppressed { reasons := AddProblems(v, reasons); }
      flag := if reasons == [] then None else Some(Join(reasons, ","));
    }

    /** `sync_prs` on one open PR, and the three writes of `sync_pr_open`. */
    method SyncOpen(f: nat, v: PrView, now: int)
      modifies this
      ensures rows == old(rows)[f := Synced(old(Row(f)), v, now)]
    {
      var r := Row(f);
      var flag := FlagFor(r, v);
      var fingerprint := Fingerprint(v);
      var row := r.(activity := Some(v.activity), engaged := Some(Baseline(r, v)), attention := flag,
                    fingerprint := fingerprint, head := Some(v.head));
      if flag != r.attention {
        row := row.(since := if flag.Some? then Some(now) else None);
      }
      if r.addressedFingerprint.Some? && (fingerprint != r.addressedFingerprint || r.addressedHead != Some(v.head)) {
        row := row.(addressedFingerprint := None, addressedHead := None);
      }
      rows := rows[f := row];
    }

    method SetAttentionAside(f: nat, now: int)
      modifies this
      ensures rows == if f in old(rows) then old(rows)[f := SetAside(old(rows)[f], now)] else old(rows)
      ensures f in rows && rows[f].head.Some? && rows[f].activity.Some? ==>
        rows[f].attention.None?
        && Settled(rows[f], rows[f].fingerprint, rows[f].head.value, rows[f].activity.value)
    {
      if f in rows { rows := rows[f := SetAside(rows[f], now)]; }
    }

    method MarkEngaged(f: nat, pushed: bool, replied: bool, now: int)
      modifies this
      ensures rows == if f in old(rows) then old(rows)[f := Engaged(old(rows)[f], pushed, replied, now)] else old(rows)
      ensures f in rows && pushed ==> rows[f].addressedFingerprint.None? && rows[f].addressedHead.None?
      ensures f in rows && !pushed && rows[f].head.Some? && rows[f].activity.Some?
              && (replied ==> now + 3_000 >= rows[f].activity.value) ==>
        Settled(rows[f], rows[f].fingerprint, rows[f].head.value, rows[f].activity.value)
    {
      if f in rows { rows := rows[f := Engaged(rows[f], pushed, replied, now)]; }
    }
  }
}
