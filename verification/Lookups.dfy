/** Who may steer a PR: the lookup cache and the feedback screen
    (hunter-rs/src/forge.rs). */
module Lookups {
  import opened Domain
  import opened Strings

  /** `LOOKUP_TTL`, in milliseconds. */
  const LOOKUP_TTL: int := 15 * 60_000

  // ------------------------------------------------------------------
  // The cache
  // ------------------------------------------------------------------

  datatype Answer = Answer(yes: bool, at: int)

  /** One `record_all`. */
  datatype Batch = Batch(answers: seq<(string, bool)>, at: int)

  predicate IsFresh(a: Answer, now: int) {
    // The source's subtraction saturates at zero.
    (if now >= a.at then now - a.at else 0) < LOOKUP_TTL
  }

  /** The last answer of a batch for `key`. */
  function LastOf(answers: seq<(string, bool)>, key: string): Option<bool> {
    if answers == [] then None
    else if answers[|answers| - 1].0 == key then Some(answers[|answers| - 1].1)
    else LastOf(answers[..|answers| - 1], key)
  }

  /** What a log that is never purged remembers for `key`. */
  function Remembered(log: seq<Batch>, key: string): Option<Answer> {
    if log == [] then None
    else
      var b := log[|log| - 1];
      var last := LastOf(b.answers, key);
      if last.Some? then Some(Answer(last.value, b.at)) else Remembered(log[..|log| - 1], key)
  }

  /** What such a log answers at `now`. */
  function Answered(log: seq<Batch>, key: string, now: int): Option<bool> {
    var a := Remembered(log, key);
    if a.Some? && IsFresh(a.value, now) then Some(a.value.yes) else None
  }

  predicate Chronological(log: seq<Batch>) {
    forall i, j | 0 <= i < j < |log| :: log[i].at <= log[j].at
  }

  predicate NotBefore(log: seq<Batch>, now: int) {
    log != [] ==> log[|log| - 1].at <= now
  }

  lemma {:induction false} RememberedInTime(log: seq<Batch>, key: string)
    requires Chronological(log) && Remembered(log, key).Some?
    ensures Remembered(log, key).value.at <= log[|log| - 1].at
  {
    if LastOf(log[|log| - 1].answers, key).None? {
      RememberedInTime(log[..|log| - 1], key);
    }
  }

  /** What expired once stays expired. */
  lemma ExpiryLasts(a: Answer, t: int, now: int)
    requires a.at <= t <= now && !IsFresh(a, t)
    ensures !IsFresh(a, now)
  {}

  /** The cache, with the log it stands for. */
  class LookupCache {
    var entries: map<string, Answer>
    ghost var log: seq<Batch>

    /** Every entry is what the log remembers, and what the log remembers and
        the cache has dropped had expired by the last batch. */
    ghost predicate Valid()
      reads this
    {
      && Chronological(log)
      && (forall key | key in entries :: Remembered(log, key) == Some(entries[key]))
      && (forall key | key !in entries && Remembered(log, key).Some? ::
            log != [] && !IsFresh(Remembered(log, key).value, log[|log| - 1].at))
    }

    constructor ()
      ensures Valid() && entries == map[] && log == []
    {
      entries, log := map[], [];
    }

    /** As long as time does not run backwards, the purged cache answers
        exactly as the log would: with the last answer recorded, while that is
        less than the time to live ago. */
    method Fresh(key: string, now: int) returns (answer: Option<bool>)
      requires Valid() && NotBefore(log, now)
      ensures answer.Some? <==> Remembered(log, key).Some? && now < Remembered(log, key).value.at + LOOKUP_TTL
      ensures answer.Some? ==> answer.value == Remembered(log, key).value.yes
      ensures answer == Answered(log, key, now)
    {
      if Remembered(log, key).Some? { RememberedInTime(log, key); }
      if key in entries {
        if IsFresh(entries[key], now) { answer := Some(entries[key].yes); } else { answer := None; }
      } else {
        answer := None;
        if Remembered(log, key).Some? {
          RememberedInTime(log, key);
          ExpiryLasts(Remembered(log, key).value, log[|log| - 1].at, now);
        }
      }
    }

    /** A batch first drops what has expired, once, then adds its answers. */
    method RecordAll(answers: seq<(string, bool)>, now: int)
      requires Valid() && NotBefore(log, now)
      modifies this
      ensures Valid() && log == old(log) + [Batch(answers, now)]
      ensures forall key | key in entries :: IsFresh(entries[key], now)
    {
      var kept := map key | key in entries && IsFresh(entries[key], now) :: entries[key];
      var i := 0;
      entries := kept;
      while i < |answers|
        invariant 0 <= i <= |answers| && log == old(log)
        invariant forall key :: key in entries <==> key in kept || LastOf(answers[..i], key).Some?
        invariant forall key | key in entries ::
          entries[key] == if LastOf(answers[..i], key).Some? then Answer(LastOf(answers[..i], key).value, now)
            else kept[key]
      {
        assert answers[..i + 1][..i] == answers[..i];
        entries := entries[answers[i].0 := Answer(answers[i].1, now)];
        i := i + 1;
      }
      assert answers[..i] == answers;
      log := log + [Batch(answers, now)];
      assert log[..|log| - 1] == old(log);
      forall key | key !in entries && Remembered(log, key).Some?
        ensures !IsFresh(Remembered(log, key).value, now)
      {
        if key !in old(entries) {
          RememberedInTime(old(log), key);
          ExpiryLasts(Remembered(log, key).value, old(log)[|old(log)| - 1].at, now);
        }
      }
    }
  }

  // ------------------------------------------------------------------
  // The screen
  // ------------------------------------------------------------------

  datatype Voice = Unheard | Bot | Maintainer

  datatype Item = Item(id: string, author: Option<string>, body: string, voice: Voice)

  /** The questions the screen asks; `None` is a lookup that failed. */
  datatype Oracle = Oracle(
    onBotList: string -> bool,
    isBot: (string, string) -> Option<bool>,
    canPush: string -> Option<bool>)

  datatype Hearing = Heard(voice: Voice) | Dropped | Unanswered

  predicate Anonymous(x: Item) {
    x.author.None? || x.author.value == ""
  }

  /** Whether the author must be asked about: neither anonymous nor a bot. */
  predicate NeedsPush(x: Item, q: Oracle) {
    !Anonymous(x)
    && !(q.onBotList(x.author.value) && (q.isBot(x.id, x.author.value).None? || q.isBot(x.id, x.author.value).value))
  }

  /** What the screen makes of one item by itself. */
  function HearingOf(x: Item, q: Oracle): Hearing {
    if Anonymous(x) then Dropped
    else
      var login := x.author.value;
      if q.onBotList(login) && q.isBot(x.id, login).None? then Unanswered
      else if q.onBotList(login) && q.isBot(x.id, login).value then Heard(Bot)
      else if q.canPush(login).None? then Unanswered
      else if q.canPush(login).value then Heard(Maintainer)
      else Dropped
  }

  /** The stateless filter: every item that is heard, in order, tagged; none
      at all when a lookup fails. */
  function Screened(items: seq<Item>, q: Oracle): Option<seq<Item>> {
    if items == [] then Some([])
    else
      var before := Screened(items[..|items| - 1], q);
      var x := items[|items| - 1];
      if before.None? then None
      else match HearingOf(x, q)
        case Unanswered => None
        case Dropped => before
        case Heard(voice) => Some(before.value + [x.(voice := voice)])
  }

  lemma {:induction false} FailureSticks(items: seq<Item>, n: nat, q: Oracle)
    requires n <= |items| && Screened(items[..n], q).None?
    ensures Screened(items, q).None?
  {
    if n < |items| {
      assert items[..|items| - 1][..n] == items[..n];
      FailureSticks(items[..|items| - 1], n, q);
    } else {
      assert items[..n] == items;
    }
  }

  function Logins(asked: seq<string>): set<string> {
    set login | login in asked
  }

  lemma OneMoreAsked(asked: seq<string>, login: string)
    ensures Logins(asked + [login]) == Logins(asked) + {login}
    ensures login in asked ==> Logins(asked) == Logins(asked) + {login}
    ensures Logins(asked) == Logins(asked) + {}
  {}

  function PushLogins(items: seq<Item>, q: Oracle): set<string> {
    set x | x in items && NeedsPush(x, q) :: x.author.value
  }

  /** One PR's feedback while it is screened: the answers so far, and the
      logins `can_push` was asked about. */
  class Screen {
    const q: Oracle
    var access: map<string, bool>
    ghost var asked: seq<string>

    ghost predicate Valid()
      reads this
    {
      && Distinct(asked)
      && (forall login | login in access :: login in asked && q.canPush(login) == Some(access[login]))
      && (forall login | login in asked :: login in access || q.canPush(login).None?)
    }

    /** No question was left without an answer. */
    ghost predicate AllAnswered()
      reads this
    {
      forall login | login in asked :: login in access
    }

    constructor (q: Oracle)
      ensures this.q == q && Valid() && asked == [] && access == map[]
    {
      this.q := q;
      access, asked := map[], [];
    }

    /** `voice_of`: a login that was answered for is not asked again. */
    method VoiceOf(x: Item) returns (h: Hearing)
      requires Valid() && AllAnswered()
      modifies this
      ensures Valid() && h == HearingOf(x, q)
      ensures !h.Unanswered? ==> AllAnswered()
      ensures Logins(asked)
        == Logins(old(asked)) + (if NeedsPush(x, q) then {x.author.value} else {})
      ensures old(asked) <= asked
    {
      if x.author.None? || x.author.value == "" { return Dropped; }
      var login := x.author.value;
      OneMoreAsked(asked, login);
      if q.onBotList(login) {
        var bot := q.isBot(x.id, login);
        if bot.None? { return Unanswered; }
        if bot.value { return Heard(Bot); }
      }
      if login !in access {
        var answer := q.canPush(login);
        asked := asked + [login];
        if answer.None? { return Unanswered; }
        access := access[login := answer.value];
      }
      h := if access[login] then Heard(Maintainer) else Dropped;
    }
  
    /** One of the PR's two lists, refilled with what is heard. */
    method ScreenList(items: seq<Item>) returns (kept: Option<seq<Item>>)
      requires Valid() && AllAnswered()
      modifies this
      ensures Valid() && kept == Screened(items, q)
      ensures kept.Some? ==>
        && AllAnswered()
        && Logins(asked) == Logins(old(asked)) + PushLogins(items, q)
      ensures old(asked) <= asked
    {
      var out: seq<Item> := [];
      var i := 0;
      while i < |items|
        invariant 0 <= i <= |items| && Valid() && Screened(items[..i], q) == Some(out)
        invariant AllAnswered()
        invariant Logins(asked) == Logins(old(asked)) + PushLogins(items[..i], q)
        invariant old(asked) <= asked
      {
        OneMoreItem(items, i, q);
        OneMoreLogin(items, i, q);
        var h := VoiceOf(items[i]);
        if h.Unanswered? { return None; }
        if h.Heard? { out := out + [items[i].(voice := h.voice)]; }
        i := i + 1;
      }
      assert items[..i] == items;
      kept := Some(out);
    }
  }

  lemma OneMoreItem(items: seq<Item>, i: nat, q: Oracle)
    requires i < |items| && Screened(items[..i], q).Some?
    ensures var out, h := Screened(items[..i], q).value, HearingOf(items[i], q);
      && (h.Unanswered? ==> Screened(items, q).None?)
      && (h.Dropped? ==> Screened(items[..i + 1], q) == Some(out))
      && (h.Heard? ==> Screened(items[..i + 1], q) == Some(out + [items[i].(voice := h.voice)]))
  {
    assert items[..i + 1][..i] == items[..i];
    if HearingOf(items[i], q).Unanswered? { FailureSticks(items, i + 1, q); }
  }

  lemma OneMoreLogin(items: seq<Item>, i: nat, q: Oracle)
    requires i < |items|
    ensures PushLogins(items[..i + 1], q)
      == PushLogins(items[..i], q) + if NeedsPush(items[i], q) then {items[i].author.value} else {}
  {
    assert items[..i + 1] == items[..i] + [items[i]];
  }

  /** A PR's two lists of feedback. */
  class Feedback {
    var comments: seq<Item>
    var reviews: seq<Item>

    /** `screen_feedback`: both lists are filtered item by item, and
        `can_push` is asked at most once about a login - exactly once about
        each that needs it. A failed lookup fails the whole screen and leaves
        none of the feedback it had taken. */
    method ScreenAll(q: Oracle) returns (ok: bool, ghost asked: seq<string>)
      modifies this
      ensures ok <==> forall x | x in old(comments) || x in old(reviews) :: !AnswerMissing(x, q)
      ensures ok ==> SteeringKept(old(comments), comments, q) && SteeringKept(old(reviews), reviews, q)
      ensures ok <==> Screened(old(comments), q).Some? && Screened(old(reviews), q).Some?
      ensures ok ==> comments == Screened(old(comments), q).value && reviews == Screened(old(reviews), q).value
      ensures !ok ==> comments == []
      ensures !ok ==> reviews == if Screened(old(comments), q).Some? then [] else old(reviews)
      ensures Distinct(asked)
      ensures ok ==> Logins(asked) == PushLogins(old(comments), q) + PushLogins(old(reviews), q)
    {
      ScreenKeepsSteering(comments, q);
      ScreenKeepsSteering(reviews, q);
      var screen := new Screen(q);
      var taken := comments;
      comments := [];
      var heard := screen.ScreenList(taken);
      if heard.None? { return false, screen.asked; }
      taken := reviews;
      reviews := [];
      var heardReviews := screen.ScreenList(taken);
      if heardReviews.None? { return false, screen.asked; }
      comments, reviews := heard.value, heardReviews.value;
      return true, screen.asked;
    }
  }

  // ------------------------------------------------------------------
  // Who is heard
  // ------------------------------------------------------------------

  predicate HasAuthor(x: Item) {
    x.author.Some? && x.author.value != ""
  }

  /** An author on the bot list whom the forge confirms to be a bot. */
  predicate ByListedBot(x: Item, q: Oracle) {
    HasAuthor(x) && q.onBotList(x.author.value) && q.isBot(x.id, x.author.value) == Some(true)
  }

  predicate ByPusher(x: Item, q: Oracle) {
    HasAuthor(x) && q.canPush(x.author.value) == Some(true)
  }

  /** An answer about this item's author that its screening needs and that was
      not given. A confirmed bot needs no push access. */
  predicate AnswerMissing(x: Item, q: Oracle) {
    && HasAuthor(x)
    && (|| (q.onBotList(x.author.value) && q.isBot(x.id, x.author.value).None?)
        || (!ByListedBot(x, q) && q.canPush(x.author.value).None?))
  }

  /** `out` are the items `from` of a list, in its order: exactly those by a
      listed bot, heard as a bot, and those by someone who can push, heard as
      a maintainer, who are no listed bot. */
  predicate KeptAt(items: seq<Item>, out: seq<Item>, from: seq<nat>, q: Oracle) {
    && |from| == |out|
    && (forall a, b | 0 <= a < b < |from| :: from[a] < from[b])
    && (forall a | 0 <= a < |from| ::
          && from[a] < |items|
          && out[a] == items[from[a]].(voice := if ByListedBot(items[from[a]], q) then Bot else Maintainer))
    && (forall i | 0 <= i < |items| :: i in from <==> ByListedBot(items[i], q) || ByPusher(items[i], q))
  }

  ghost predicate SteeringKept(items: seq<Item>, out: seq<Item>, q: Oracle) {
    exists from: seq<nat> :: KeptAt(items, out, from, q)
  }

  /** What the screen makes of one item, by who wrote it. */
  lemma HearingMeans(x: Item, q: Oracle)
    ensures HearingOf(x, q).Unanswered? <==> AnswerMissing(x, q)
    ensures HearingOf(x, q) == Heard(Bot) <==> ByListedBot(x, q)
    ensures HearingOf(x, q) == Heard(Maintainer) <==> ByPusher(x, q) && !ByListedBot(x, q) && !AnswerMissing(x, q)
    ensures HearingOf(x, q) != Heard(Unheard)
  {}

  /** What the screen keeps: the items that are heard when taken alone, each
      with its own voice, in their order. */
  lemma {:induction false} ScreenKeepsHeard(items: seq<Item>, q: Oracle) returns (from: seq<nat>)
    requires Screened(items, q).Some?
    ensures var out := Screened(items, q).value;
      && |from| == |out|
      && (forall a, b | 0 <= a < b < |from| :: from[a] < from[b])
      && (forall a | 0 <= a < |from| ::
            from[a] < |items| && HearingOf(items[from[a]], q) == Heard(out[a].voice)
            && out[a] == items[from[a]].(voice := out[a].voice))
      && (forall i | 0 <= i < |items| && HearingOf(items[i], q).Heard? :: i in from)
  {
    from := [];
    if items != [] {
      from := ScreenKeepsHeard(items[..|items| - 1], q);
      if HearingOf(items[|items| - 1], q).Heard? { from := from + [|items| - 1]; }
    }
  }

  lemma {:induction false} ScreenFails(items: seq<Item>, q: Oracle)
    ensures Screened(items, q).None? <==> exists x | x in items :: AnswerMissing(x, q)
  {
    if items != [] {
      var init, x := items[..|items| - 1], items[|items| - 1];
      assert items == init + [x];
      ScreenFails(init, q);
      HearingMeans(x, q);
      if AnswerMissing(x, q) { assert x in items; }
    }
  }

  /** Strangers are not heard: what is kept of a list is what listed bots and
      people with push access wrote, in its order, each with its voice; and
      the list is given up exactly if an answer some item needs is missing. */
  lemma ScreenKeepsSteering(items: seq<Item>, q: Oracle)
    ensures Screened(items, q).None? <==> exists x | x in items :: AnswerMissing(x, q)
    ensures Screened(items, q).Some? ==> SteeringKept(items, Screened(items, q).value, q)
  {
    ScreenFails(items, q);
    if Screened(items, q).Some? {
      var from := ScreenKeepsHeard(items, q);
      forall i | 0 <= i < |items| ensures i in from <==> ByListedBot(items[i], q) || ByPusher(items[i], q) {
        HearingMeans(items[i], q);
        assert items[i] in items;
      }
      forall a | 0 <= a < |from| ensures Screened(items, q).value[a].voice
          == if ByListedBot(items[from[a]], q) then Bot else Maintainer {
        HearingMeans(items[from[a]], q);
      }
      assert KeptAt(items, Screened(items, q).value, from, q);
    }
  }
}
