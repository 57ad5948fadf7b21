/** Prompts from templates, and the fence around a diff
    (hunter-rs/src/playbooks.rs). */
module Render {
  import opened Domain
  import opened Strings

  // ------------------------------------------------------------------
  // render
  // ------------------------------------------------------------------

  datatype Rendered = Ok(text: string) | Unterminated(snippet: string) | Unfilled(key: string)

  /** The first place where `c` stands twice. */
  function FindPair(s: string, c: char): (i: Option<nat>)
    ensures i.Some? ==> i.value + 1 < |s| && s[i.value] == c && s[i.value + 1] == c
    ensures i.Some? ==> forall k | 0 <= k < i.value :: !(s[k] == c && s[k + 1] == c)
    ensures i.None? ==> forall k | 0 <= k < |s| - 1 :: !(s[k] == c && s[k + 1] == c)
  {
    if |s| < 2 then None
    else if s[0] == c && s[1] == c then Some(0)
    else
      var rest := FindPair(s[1..], c);
      if rest.Some? then Some(rest.value + 1) else None
  }

  function Snippet(s: string): string {
    if |s| <= 60 then s else s[..60]
  }

  /** What is written before a rendering; a failure stays one. */
  function After(out: string, r: Rendered): Rendered {
    if r.Ok? then Ok(out + r.text) else r
  }

  /** `render`, from the front. */
  function Rendering(rest: string, slots: map<string, string>): Rendered
    decreases |rest|
  {
    var open := FindPair(rest, '{');
    if open.None? then Ok(rest)
    else
      var after := rest[open.value + 2..];
      var close := FindPair(after, '}');
      if close.None? then Unterminated(Snippet(rest[open.value..]))
      else
        var key := after[..close.value];
        if key !in slots then Unfilled(key)
        else After(rest[..open.value] + slots[key], Rendering(after[close.value + 2..], slots))
  }

  lemma AfterAfter(a: string, b: string, r: Rendered)
    ensures After(a, After(b, r)) == After(a + b, r)
  {
    if r.Ok? { assert a + (b + r.text) == a + b + r.text; }
  }

  /** The source's loop. */
  method Substitute(template: string, slots: map<string, string>) returns (r: Rendered)
    ensures r == Rendering(template, slots)
  {
    var out := "";
    var rest := template;
    var open := FindPair(rest, '{');
    assert Rendering(template, slots).Ok? ==> "" + Rendering(template, slots).text == Rendering(template, slots).text;
    while open.Some?
      invariant open == FindPair(rest, '{')
      invariant After(out, Rendering(rest, slots)) == Rendering(template, slots)
      decreases |rest|
    {
      var after := rest[open.value + 2..];
      var close := FindPair(after, '}');
      if close.None? { return Unterminated(Snippet(rest[open.value..])); }
      var key := after[..close.value];
      if key !in slots { return Unfilled(key); }
      var filled := rest[..open.value] + slots[key];
      AfterAfter(out, filled, Rendering(after[close.value + 2..], slots));
      out := out + filled;
      rest := after[close.value + 2..];
      open := FindPair(rest, '{');
    }
    r := Ok(out + rest);
  }

  // ------------------------------------------------------------------
  // Templates as tokens
  // ------------------------------------------------------------------

  /** A template is a text, then slots each followed by a text. */
  datatype Slot = Slot(key: string, text: string)

  datatype Template = Template(lead: string, slots: seq<Slot>)

  function ShowSlots(ss: seq<Slot>): string {
    if ss == [] then "" else "{{" + ss[0].key + "}}" + ss[0].text + ShowSlots(ss[1..])
  }

  function Show(t: Template): string {
    t.lead + ShowSlots(t.slots)
  }

  /** A text that no slot mark begins in, also where one follows it. */
  predicate IsText(text: string, slotFollows: bool) {
    FindPair(if slotFollows then text + "{{" else text, '{') == if slotFollows then Some(|text|) else None
  }

  /** A key runs to the first end mark. */
  predicate IsKey(key: string) {
    FindPair(key + "}}", '}') == Some(|key|)
  }

  predicate SlotsOk(ss: seq<Slot>) {
    forall i | 0 <= i < |ss| :: IsKey(ss[i].key) && IsText(ss[i].text, i < |ss| - 1)
  }

  predicate TemplateOk(t: Template) {
    IsText(t.lead, t.slots != []) && SlotsOk(t.slots)
  }

  /** Each slot replaced by its value, and nothing else touched. */
  function FillSlots(ss: seq<Slot>, slots: map<string, string>): string
    requires forall i | 0 <= i < |ss| :: ss[i].key in slots
  {
    if ss == [] then "" else slots[ss[0].key] + (ss[0].text + FillSlots(ss[1..], slots))
  }

  predicate AllFilled(ss: seq<Slot>, slots: map<string, string>) {
    forall i | 0 <= i < |ss| :: ss[i].key in slots
  }

  function FirstUnfilled(ss: seq<Slot>, slots: map<string, string>): string
    requires !AllFilled(ss, slots)
  {
    if ss[0].key !in slots then ss[0].key else FirstUnfilled(ss[1..], slots)
  }

  /** The first pair does not move when more follows it. */
  lemma {:induction false} PairStays(s: string, tail: string, c: char)
    requires FindPair(s, c).Some?
    ensures FindPair(s + tail, c) == FindPair(s, c)
  {
    var t := s + tail;
    assert t[0] == s[0] && t[1] == s[1];
    if !(s[0] == c && s[1] == c) {
      assert t[1..] == s[1..] + tail;
      PairStays(s[1..], tail, c);
    }
  }

  function Marked(text: string, key: string, rest: string): string {
    text + ("{{" + (key + ("}}" + rest)))
  }

  /** One slot. */
  lemma RenderStep(text: string, key: string, rest: string, slots: map<string, string>)
    requires IsText(text, true) && IsKey(key)
    ensures Rendering(Marked(text, key, rest), slots) ==
      if key in slots then After(text + slots[key], Rendering(rest, slots)) else Unfilled(key)
  {
    MarkedParts(text, key, rest);
  }

  lemma MarkedParts(text: string, key: string, rest: string)
    requires IsText(text, true) && IsKey(key)
    ensures var all, after := Marked(text, key, rest), key + ("}}" + rest);
      && FindPair(all, '{') == Some(|text|) && all[..|text|] == text && all[|text| + 2..] == after
      && FindPair(after, '}') == Some(|key|) && after[..|key|] == key && after[|key| + 2..] == rest
  {
    var after := key + ("}}" + rest);
    assert Marked(text, key, rest) == (text + "{{") + after;
    PairStays(text + "{{", after, '{');
    assert after == (key + "}}") + rest;
    PairStays(key + "}}", rest, '}');
  }

  lemma ShowStep(text: string, ss: seq<Slot>)
    requires ss != []
    ensures text + ShowSlots(ss) == Marked(text, ss[0].key, ss[0].text + ShowSlots(ss[1..]))
  {
    assert ShowSlots(ss) == "{{" + (ss[0].key + ("}}" + (ss[0].text + ShowSlots(ss[1..]))));
  }

  /** From any text before it, a run of slots renders to its filling. */
  lemma {:induction false} RenderFilled(text: string, ss: seq<Slot>, slots: map<string, string>)
    requires IsText(text, ss != []) && SlotsOk(ss) && AllFilled(ss, slots)
    ensures Rendering(text + ShowSlots(ss), slots) == Ok(text + FillSlots(ss, slots))
    decreases |ss|
  {
    if ss == [] {
      assert text + "" == text;
    } else {
      ShowStep(text, ss);
      RenderStep(text, ss[0].key, ss[0].text + ShowSlots(ss[1..]), slots);
      RestSlotsOk(ss);
      RenderFilled(ss[0].text, ss[1..], slots);
      Regroup(text, slots[ss[0].key], ss[0].text + FillSlots(ss[1..], slots));
    }
  }

  lemma Regroup(a: string, b: string, c: string)
    ensures a + b + c == a + (b + c)
  {}

  /** Or it stops at the first slot without a value. */
  lemma {:induction false} RenderUnfilled(text: string, ss: seq<Slot>, slots: map<string, string>)
    requires IsText(text, ss != []) && SlotsOk(ss) && !AllFilled(ss, slots)
    ensures Rendering(text + ShowSlots(ss), slots) == Unfilled(FirstUnfilled(ss, slots))
    decreases |ss|
  {
    ShowStep(text, ss);
    RenderStep(text, ss[0].key, ss[0].text + ShowSlots(ss[1..]), slots);
    if ss[0].key in slots {
      RestSlotsOk(ss);
      assert !AllFilled(ss[1..], slots) by {
        if AllFilled(ss[1..], slots) { FilledRest(ss, slots); }
      }
      RenderUnfilled(ss[0].text, ss[1..], slots);
    }
  }

  lemma RestSlotsOk(ss: seq<Slot>)
    requires ss != [] && SlotsOk(ss)
    ensures SlotsOk(ss[1..]) && IsText(ss[0].text, ss[1..] != [])
  {
    forall i | 0 <= i < |ss[1..]| ensures IsKey(ss[1..][i].key) && IsText(ss[1..][i].text, i < |ss[1..]| - 1) {
      assert ss[1..][i] == ss[i + 1];
    }
  }

  lemma FilledRest(ss: seq<Slot>, slots: map<string, string>)
    requires ss != [] && ss[0].key in slots && AllFilled(ss[1..], slots)
    ensures AllFilled(ss, slots)
  {
    forall i | 0 <= i < |ss| ensures ss[i].key in slots {
      if i > 0 { assert ss[i] == ss[1..][i - 1]; }
    }
  }

  /** `render` substitutes the template's own slots, token by token, whatever
      the values contain. */
  lemma RenderSubstitutes(t: Template, slots: map<string, string>)
    requires TemplateOk(t)
    ensures Rendering(Show(t), slots) ==
      if AllFilled(t.slots, slots) then Ok(t.lead + FillSlots(t.slots, slots))
      else Unfilled(FirstUnfilled(t.slots, slots))
  {
    if AllFilled(t.slots, slots) {
      RenderFilled(t.lead, t.slots, slots);
    } else {
      RenderUnfilled(t.lead, t.slots, slots);
    }
  }

  lemma ConsSlotsOk(slot: Slot, ss: seq<Slot>)
    requires IsKey(slot.key) && IsText(slot.text, ss != []) && SlotsOk(ss)
    ensures SlotsOk([slot] + ss)
  {
    var all := [slot] + ss;
    assert all[0] == slot && |all| == |ss| + 1;
    forall i | 0 <= i < |all| ensures IsKey(all[i].key) && IsText(all[i].text, i < |all| - 1) {
      if i > 0 {
        assert all[i] == ss[i - 1] && (i < |all| - 1 <==> i - 1 < |ss| - 1);
      }
    }
  }

  lemma CutPair(s: string, c: char) returns (before: string, after: string)
    requires FindPair(s, c).Some?
    ensures s == before + ([c, c] + after) && FindPair(before + [c, c], c) == Some(|before|)
    ensures before == s[..FindPair(s, c).value] && after == s[FindPair(s, c).value + 2..]
  {
    var i := FindPair(s, c).value;
    before, after := s[..i], s[i + 2..];
    FirstPairBefore(s, i, c);
    assert before + [c, c] == s[..i + 2];
  }

  /** The first slot of a string. */
  lemma CutSlot(s: string) returns (text: string, key: string, rest: string)
    requires FindPair(s, '{').Some? && FindPair(s[FindPair(s, '{').value + 2..], '}').Some?
    ensures s == Marked(text, key, rest) && IsText(text, true) && IsKey(key) && |rest| < |s|
  {
    var after;
    text, after := CutPair(s, '{');
    key, rest := CutPair(after, '}');
    assert "{{" == ['{', '{'] && "}}" == ['}', '}'];
  }

  /** Every string is such a template, unless a slot in it is left open. */
  lemma {:induction false} TemplateOf(s: string) returns (t: Option<Template>)
    ensures t.Some? ==> TemplateOk(t.value) && Show(t.value) == s
    ensures t.None? ==> forall slots :: !Rendering(s, slots).Ok?
    decreases |s|
  {
    var open := FindPair(s, '{');
    if open.None? {
      t := Some(Template(s, []));
      assert s + "" == s;
    } else if FindPair(s[open.value + 2..], '}').None? {
      t := None;
    } else {
      var text, key, rest := CutSlot(s);
      var u := TemplateOf(rest);
      if u.None? {
        t := None;
        forall slots ensures !Rendering(s, slots).Ok? {
          RenderStep(text, key, rest, slots);
        }
      } else {
        var ss := [Slot(key, u.value.lead)] + u.value.slots;
        ConsSlotsOk(Slot(key, u.value.lead), u.value.slots);
        ShowStep(text, ss);
        assert ss[1..] == u.value.slots;
        t := Some(Template(text, ss));
      }
    }
  }

  lemma {:induction false} FirstPairBefore(s: string, i: nat, c: char)
    requires FindPair(s, c) == Some(i)
    ensures FindPair(s[..i + 2], c) == Some(i)
  {
    if i > 0 {
      assert s[..i + 2][1..] == s[1..][..i + 1];
      FirstPairBefore(s[1..], i - 1, c);
    }
  }

  // ------------------------------------------------------------------
  // The fence
  // ------------------------------------------------------------------

  const PR_DIFF_CAP_CHARS: nat := 40_000

  const TICK: char := '`'

  /** The backticks that end `s`. */
  function TailRun(s: string): (n: nat)
    ensures n <= |s| && forall k | |s| - n <= k < |s| :: s[k] == TICK
    ensures n < |s| ==> s[|s| - n - 1] != TICK
  {
    if s == "" || s[|s| - 1] != TICK then 0 else TailRun(s[..|s| - 1]) + 1
  }

  /** The longest run of backticks. */
  function LongestRun(s: string): nat {
    if s == "" then 0
    else
      var before := LongestRun(s[..|s| - 1]);
      if TailRun(s) > before then TailRun(s) else before
  }

  predicate AllTicks(s: string) {
    forall k | 0 <= k < |s| :: s[k] == TICK
  }

  /** No stretch of backticks is longer, and one is as long. */
  lemma {:induction false} LongestRunExact(s: string)
    ensures forall i, j | 0 <= i <= j <= |s| && AllTicks(s[i..j]) :: j - i <= LongestRun(s)
    ensures exists i, j | 0 <= i <= j <= |s| :: AllTicks(s[i..j]) && j - i == LongestRun(s)
  {
    if s == "" {
      assert AllTicks(s[0..0]);
    } else {
      var init := s[..|s| - 1];
      LongestRunExact(init);
      forall i, j | 0 <= i <= j <= |s| && AllTicks(s[i..j]) ensures j - i <= LongestRun(s) {
        if j < |s| {
          assert s[i..j] == init[i..j];
        } else {
          assert forall k | i <= k < |s| :: s[i..j][k - i] == s[k];
        }
      }
      if LongestRun(s) == LongestRun(init) {
        var i, j :| 0 <= i <= j <= |init| && AllTicks(init[i..j]) && j - i == LongestRun(init);
        assert s[i..j] == init[i..j];
      } else {
        assert AllTicks(s[|s| - TailRun(s)..|s|]);
      }
    }
  }

  function Ticks(n: nat): (s: string)
    ensures |s| == n && AllTicks(s)
  {
    if n == 0 then "" else Ticks(n - 1) + [TICK]
  }

  function Decimal(n: nat): string {
    if n < 10 then ['0' + n as char] else Decimal(n / 10) + ['0' + (n % 10) as char]
  }

  /** `capped_diff`. */
  function CappedDiff(diff: string): string {
    if forall k | 0 <= k < |diff| :: IsSpace(diff[k]) then "(empty diff)"
    else if |diff| <= PR_DIFF_CAP_CHARS then diff
    else
      diff[..PR_DIFF_CAP_CHARS] + "\n[diff truncated here: " + Decimal(|diff| - PR_DIFF_CAP_CHARS)
      + " more characters not shown]"
  }

  function Fence(body: string): string {
    Ticks((if LongestRun(body) > 2 then LongestRun(body) else 2) + 1)
  }

  /** The lines between the fences. */
  function Body(diff: string): string {
    var body := CappedDiff(diff);
    if body != "" && body[|body| - 1] == '\n' then body else body + "\n"
  }

  /** `fenced_diff`. */
  function FencedDiff(diff: string): string {
    var fence := Fence(CappedDiff(diff));
    fence + "diff\n" + Body(diff) + fence
  }

  lemma NotInside(body: string, lines: string, fence: string, p: nat)
    requires p < |lines| && lines[|lines| - 1] == '\n' && (lines == body || lines == body + "\n")
    requires AllTicks(fence) && |fence| > LongestRun(body)
    ensures p + |fence| <= |lines + fence| && (lines + fence)[p..p + |fence|] != fence
  {
    var all, n := lines + fence, |fence|;
    var here := all[p..p + n];
    if p + n > |lines| - 1 {
      assert here[|lines| - 1 - p] == '\n' && fence[|lines| - 1 - p] == TICK;
    } else {
      LongestRunExact(body);
      assert here == body[p..p + n];
    }
  }

  /** The fence is a code fence that does not occur in what it encloses: the
      block ends at its last line and nowhere before, whatever the diff holds
      (CommonMark, section 4.5). */
  lemma FenceEncloses(diff: string, p: nat)
    requires p <= |Body(diff)|
    ensures var fence := Fence(CappedDiff(diff));
      && |fence| >= 3 && AllTicks(fence)
      && FencedDiff(diff) == fence + "diff\n" + Body(diff) + fence
      && Body(diff)[|Body(diff)| - 1] == '\n'
      && ((Body(diff) + fence)[p..p + |fence|] == fence <==> p == |Body(diff)|)
  {
    var fence := Fence(CappedDiff(diff));
    if p < |Body(diff)| { NotInside(CappedDiff(diff), Body(diff), fence, p); }
  }

  /** A diff within the cap is shown whole, a longer one up to the cap. */
  lemma CapShowsPrefix(diff: string)
    requires exists k | 0 <= k < |diff| :: !IsSpace(diff[k])
    ensures |diff| <= PR_DIFF_CAP_CHARS ==> CappedDiff(diff) == diff
    ensures |diff| > PR_DIFF_CAP_CHARS ==>
      && |CappedDiff(diff)| > PR_DIFF_CAP_CHARS
      && CappedDiff(diff)[..PR_DIFF_CAP_CHARS] == diff[..PR_DIFF_CAP_CHARS]
  {}
}
