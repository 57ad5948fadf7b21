/** What a rejection was judged against, and when it lapses
    (hunter-rs/src/suppression.rs). */
module Suppression {
  import opened Domain
  import opened Strings

  const MAX_ANCHOR_FILES: nat := 12

  /** A row of `verdict_anchors`: the commit the verdict was given at and the
      files it watches. */
  datatype Anchor = Anchor(sha: nat, files: seq<string>)

  // ------------------------------------------------------------------
  // repo_path
  // ------------------------------------------------------------------

  predicate IsTick(c: char) {
    c == '`'
  }

  predicate LocationChar(c: char) {
    IsDigit(c) || c == '-'
  }

  /** `42`, `42-50`: what may follow a colon and is no part of the path. */
  predicate IsLocation(s: string) {
    s != "" && forall c | c in s :: LocationChar(c)
  }

  /** Where the last location of `s` starts. */
  function LocationAt(s: string): (i: Option<nat>)
    ensures i.Some? ==> i.value < |s|
  {
    var i := LastIndex(s, ':');
    if i.Some? && IsLocation(s[i.value + 1..]) then i else None
  }

  function StripLocations(s: string): string
    decreases |s|
  {
    var i := LocationAt(s);
    if i.Some? then StripLocations(s[..i.value]) else s
  }

  function StripDot(s: string): string {
    if |s| >= 2 && s[..2] == "./" then s[2..] else s
  }

  /** A path that stays within the repository. */
  predicate Inside(path: string) {
    && path != "" && path[0] != '/'
    && (forall c | c in path :: !IsSpace(c))
    && ".." !in Split(path, '/')
  }

  function RepoPath(raw: string): (path: Option<string>)
    ensures path.Some? ==> Inside(path.value)
  {
    var trimmed := Trim(Trim(Trim(raw, IsSpace), IsTick), IsSpace);
    var path := StripDot(StripLocations(trimmed));
    if Inside(path) then Some(path) else None
  }

  /** The source's loop over the locations. */
  method FindRepoPath(raw: string) returns (path: Option<string>)
    ensures path == RepoPath(raw)
  {
    var rest := Trim(Trim(Trim(raw, IsSpace), IsTick), IsSpace);
    var i := LastIndex(rest, ':');
    while i.Some? && IsLocation(rest[i.value + 1..])
      invariant i == LastIndex(rest, ':')
      invariant StripDot(StripLocations(rest))
        == StripDot(StripLocations(Trim(Trim(Trim(raw, IsSpace), IsTick), IsSpace)))
      decreases |rest|
    {
      rest := rest[..i.value];
      i := LastIndex(rest, ':');
    }
    rest := StripDot(rest);
    path := if Inside(rest) then Some(rest) else None;
  }

  // ------------------------------------------------------------------
  // Decoration is no part of the path
  // ------------------------------------------------------------------

  /** A path with nothing around it that the parser would take off. */
  predicate Plain(p: string) {
    && Inside(p) && !IsTick(p[0]) && !IsTick(p[|p| - 1])
    && StripDot(p) == p && LocationAt(p).None?
  }

  function Locations(ls: seq<string>): string {
    if ls == [] then "" else Locations(ls[..|ls| - 1]) + ":" + ls[|ls| - 1]
  }

  lemma {:induction false} LocationsOff(p: string, ls: seq<string>)
    requires LocationAt(p).None? && forall l | l in ls :: IsLocation(l)
    ensures StripLocations(p + Locations(ls)) == p
    decreases |ls|
  {
    if ls == [] {
      assert p + "" == p;
    } else {
      var init, l := ls[..|ls| - 1], ls[|ls| - 1];
      var head := p + Locations(init);
      assert l in ls;
      assert p + Locations(ls) == head + [':'] + l;
      LastIndexAt(head, ':', l);
      assert (head + [':'] + l)[|head| + 1..] == l && (head + [':'] + l)[..|head|] == head;
      LocationsOff(p, init);
    }
  }

  lemma {:induction false} LocationsKeepEnds(p: string, ls: seq<string>)
    requires p != "" && forall l | l in ls :: IsLocation(l)
    ensures var q := p + Locations(ls);
      && q[0] == p[0]
      && (q[|q| - 1] == p[|p| - 1] || LocationChar(q[|q| - 1]))
      && (forall c | c in Locations(ls) :: LocationChar(c) || c == ':')
    decreases |ls|
  {
    if ls != [] {
      LocationsKeepEnds(p, ls[..|ls| - 1]);
      assert ls[|ls| - 1] in ls;
    }
  }

  /** A `./` in front moves the colons, not what follows them. */
  lemma DotKeepsLocation(p: string)
    requires LocationAt(p).None?
    ensures LocationAt("./" + p).None?
  {
    var q := "./" + p;
    if LastIndex(p, ':').Some? {
      var i := LastIndex(p, ':').value;
      LastIndexSplits(p, ':');
      assert q == ("./" + p[..i]) + [':'] + p[i + 1..];
      LastIndexAt("./" + p[..i], ':', p[i + 1..]);
      assert q[i + 3..] == p[i + 1..];
    } else {
      LastIndexAbsent(p, ':');
      LastIndexNone(q, ':');
    }
  }

  lemma {:induction false} LastIndexSplits(s: string, c: char)
    requires LastIndex(s, c).Some?
    ensures var i := LastIndex(s, c).value; s == s[..i] + [c] + s[i + 1..] && c !in s[i + 1..]
  {
    if s[|s| - 1] != c {
      var init := s[..|s| - 1];
      LastIndexSplits(init, c);
      var i := LastIndex(s, c).value;
      assert s[i + 1..] == init[i + 1..] + [s[|s| - 1]];
    }
  }

  lemma {:induction false} LastIndexAbsent(s: string, c: char)
    requires LastIndex(s, c).None?
    ensures c !in s
  {
    if s != "" { LastIndexAbsent(s[..|s| - 1], c); }
  }

  function Dotted(p: string, dot: bool): string {
    if dot then "./" + p else p
  }

  lemma LocationsAre(ls: seq<string>)
    requires forall l | l in ls :: l != "" && forall c | c in l :: '0' <= c <= '9' || c == '-'
    ensures forall l | l in ls :: IsLocation(l)
  {}

  /** However a worker decorates a path - blanks, backticks, a `./`, line
      numbers - the path itself is what is watched. */
  lemma DecorationOff(p: string, dot: bool, ls: seq<string>, before: string, ticks: string, after: string)
    requires Plain(p) && (forall l | l in ls :: l != "" && forall c | c in l :: '0' <= c <= '9' || c == '-')
    requires (forall c | c in before :: IsSpace(c)) && (forall c | c in after :: IsSpace(c))
    requires forall c | c in ticks :: IsTick(c)
    ensures RepoPath(before + (ticks + (Dotted(p, dot) + Locations(ls)) + ticks) + after) == Some(p)
  {
    LocationsAre(ls);
    BodyOff(p, dot, ls);
    QuotesOff(before, ticks, Dotted(p, dot) + Locations(ls), after);
  }

  /** The path with a `./` and locations, and what its ends look like. */
  lemma BodyOff(p: string, dot: bool, ls: seq<string>)
    requires Plain(p) && forall l | l in ls :: IsLocation(l)
    ensures var q := Dotted(p, dot) + Locations(ls);
      && StripDot(StripLocations(q)) == p
      && q != "" && !IsSpace(q[0]) && !IsSpace(q[|q| - 1]) && !IsTick(q[0]) && !IsTick(q[|q| - 1])
  {
    var d := Dotted(p, dot);
    if dot { DotKeepsLocation(p); }
    LocationsKeepEnds(d, ls);
    assert d[|d| - 1] == p[|p| - 1] && p[0] in p && p[|p| - 1] in p;
    LocationsOff(d, ls);
    if dot { assert d[..2] == "./" && d[2..] == p; }
  }

  lemma QuotesOff(before: string, ticks: string, q: string, after: string)
    requires (forall c | c in before :: IsSpace(c)) && (forall c | c in after :: IsSpace(c))
    requires forall c | c in ticks :: IsTick(c)
    requires q != "" && !IsSpace(q[0]) && !IsSpace(q[|q| - 1]) && !IsTick(q[0]) && !IsTick(q[|q| - 1])
    ensures Trim(Trim(Trim(before + (ticks + q + ticks) + after, IsSpace), IsTick), IsSpace) == q
  {
    var quoted := ticks + q + ticks;
    QuotedEnds(ticks, q);
    TrimOff(before, quoted, after, IsSpace);
    TrimOff(ticks, q, ticks, IsTick);
    TrimOff("", q, "", IsSpace);
    assert "" + q + "" == q;
  }

  lemma QuotedEnds(ticks: string, q: string)
    requires q != "" && (forall c | c in ticks :: IsTick(c)) && !IsSpace(q[0]) && !IsSpace(q[|q| - 1])
    ensures var s := ticks + q + ticks; !IsSpace(s[0]) && !IsSpace(s[|s| - 1])
  {
    if ticks != "" { assert ticks[0] in ticks && ticks[|ticks| - 1] in ticks; }
  }

  // ------------------------------------------------------------------
  // verdict_anchor
  // ------------------------------------------------------------------

  /** What a verdict mentions: the finding's own file, then what the worker
      said it depends on. */
  function Mentions(file: Option<string>, dependsOn: seq<string>): seq<string> {
    (if file.Some? then [file.value] else []) + dependsOn
  }

  /** The paths among the first mentions, each once, as many as are kept. */
  function Watched(raws: seq<string>): (files: seq<string>)
    ensures |files| <= MAX_ANCHOR_FILES && Distinct(files)
  {
    if raws == [] then []
    else
      var files := Watched(raws[..|raws| - 1]);
      var path := RepoPath(raws[|raws| - 1]);
      if |files| < MAX_ANCHOR_FILES && path.Some? && path.value !in files then files + [path.value] else files
  }

  /** Only mentioned paths are watched, and all of them unless there are too
      many. */
  lemma {:induction false} WatchedExactly(raws: seq<string>)
    ensures forall f | f in Watched(raws) :: Inside(f) && exists r | r in raws :: RepoPath(r) == Some(f)
    ensures |Watched(raws)| < MAX_ANCHOR_FILES ==>
      forall r | r in raws && RepoPath(r).Some? :: RepoPath(r).value in Watched(raws)
  {
    if raws != [] {
      var init, last := raws[..|raws| - 1], raws[|raws| - 1];
      WatchedExactly(init);
      assert raws == init + [last];
      forall f | f in Watched(raws) ensures Inside(f) && exists r | r in raws :: RepoPath(r) == Some(f) {
        if f in Watched(init) {
          var r :| r in init && RepoPath(r) == Some(f);
          assert r in raws;
        } else {
          assert RepoPath(last) == Some(f) && last in raws;
        }
      }
    }
  }

  /** The finding's own file comes first. */
  lemma {:induction false} FirstMentionWatched(raws: seq<string>)
    requires raws != [] && RepoPath(raws[0]).Some?
    ensures Watched(raws) != [] && Watched(raws)[0] == RepoPath(raws[0]).value
  {
    if |raws| > 1 {
      FirstMentionWatched(raws[..|raws| - 1]);
    } else {
      assert raws[..0] == [];
    }
  }

  lemma {:induction false} FullStaysFull(raws: seq<string>, n: nat)
    requires n <= |raws| && |Watched(raws[..n])| == MAX_ANCHOR_FILES
    ensures Watched(raws) == Watched(raws[..n])
  {
    if n < |raws| {
      assert raws[..|raws| - 1][..n] == raws[..n];
      FullStaysFull(raws[..|raws| - 1], n);
    } else {
      assert raws[..n] == raws;
    }
  }

  /** The source's loop, which stops when it has enough. */
  method WatchFiles(raws: seq<string>) returns (files: seq<string>)
    ensures files == Watched(raws)
  {
    files := [];
    for i := 0 to |raws|
      invariant files == Watched(raws[..i])
    {
      if |files| == MAX_ANCHOR_FILES {
        FullStaysFull(raws, i);
        return;
      }
      assert raws[..i + 1][..i] == raws[..i];
      var path := FindRepoPath(raws[i]);
      if path.Some? && path.value !in files { files := files + [path.value]; }
    }
    assert raws[..|raws|] == raws;
  }

  /** `verdict_anchor`: only a rejection is anchored. */
  function VerdictAnchor(s: FindingStatus, sha: nat, file: Option<string>, dependsOn: seq<string>): Option<Anchor> {
    if s.Rejected? then Some(Anchor(sha, Watched(Mentions(file, dependsOn)))) else None
  }

  // ------------------------------------------------------------------
  // changed_since
  // ------------------------------------------------------------------

  /** What git says about the code between two commits: which watched paths
      it touches, or that it cannot tell. */
  datatype Diff = Unreadable | Touched(paths: set<string>)

  /** Whether the code a verdict rests on changed. */
  predicate Lapsed(a: Anchor, diff: Diff) {
    a.files != [] && (diff.Unreadable? || exists f | f in a.files :: f in diff.paths)
  }

  /** A diff that touches what a rejection mentions - however it was written
      down - takes the rejection back, and so does one git cannot give; a diff
      that touches none of it leaves it. Of more than twelve paths the first
      twelve are watched. */
  lemma MentionsAreWatched(raws: seq<string>, sha: nat, diff: Diff)
    ensures diff.Touched? && Lapsed(Anchor(sha, Watched(raws)), diff) ==>
      exists r | r in raws :: RepoPath(r).Some? && RepoPath(r).value in diff.paths
    ensures diff.Touched? && |Watched(raws)| < MAX_ANCHOR_FILES
            && (exists r | r in raws :: RepoPath(r).Some? && RepoPath(r).value in diff.paths) ==>
      Lapsed(Anchor(sha, Watched(raws)), diff)
    ensures diff.Unreadable? ==>
      (Lapsed(Anchor(sha, Watched(raws)), diff) <==> exists r | r in raws :: RepoPath(r).Some?)
  {
    WatchedExactly(raws);
    var files := Watched(raws);
    if files != [] {
      assert files[0] in files;
      var r :| r in raws && RepoPath(r) == Some(files[0]);
    }
    if diff.Touched? && Lapsed(Anchor(sha, files), diff) {
      var f :| f in files && f in diff.paths;
      var r :| r in raws && RepoPath(r) == Some(f);
    }
  }

  /** Only a rejection is anchored: to its commit, watching the finding's own
      file first and then what the worker says the verdict rests on. */
  lemma OwnFileIsWatched(s: FindingStatus, sha: nat, file: string, dependsOn: seq<string>)
    ensures VerdictAnchor(s, sha, Some(file), dependsOn).Some? <==> s.Rejected?
    ensures s.Rejected? ==>
      var a := VerdictAnchor(s, sha, Some(file), dependsOn).value;
      && a.sha == sha
      && (RepoPath(file).Some? ==> a.files != [] && a.files[0] == RepoPath(file).value)
      && (|a.files| < MAX_ANCHOR_FILES ==>
            forall d | d in dependsOn && RepoPath(d).Some? :: RepoPath(d).value in a.files)
  {
    var raws := Mentions(Some(file), dependsOn);
    assert raws[0] == file && forall d | d in dependsOn :: d in raws;
    WatchedExactly(raws);
    if RepoPath(file).Some? { FirstMentionWatched(raws); }
  }

  // ------------------------------------------------------------------
  // A path that stays inside
  // ------------------------------------------------------------------

  /** How deep below the repository a path leads, component by component. */
  function Below(parts: seq<string>): int {
    if parts == [] then 0
    else
      var last := parts[|parts| - 1];
      Below(parts[..|parts| - 1]) + if last == ".." then -1 else if last == "" || last == "." then 0 else 1
  }

  /** A watched path is relative, and none of its components leads out of the
      repository. */
  lemma {:induction false} NeverClimbsOut(path: string, n: nat)
    requires Inside(path) && n <= |Split(path, '/')|
    ensures path[0] != '/' && Below(Split(path, '/')[..n]) >= 0
    decreases n
  {
    if n > 0 {
      var parts := Split(path, '/');
      assert parts[..n][..n - 1] == parts[..n - 1] && parts[n - 1] in parts;
      NeverClimbsOut(path, n - 1);
    }
  }
}
