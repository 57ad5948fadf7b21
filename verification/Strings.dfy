/** The string operations of Rust's standard library that the program parses
    with, and what they make of joined strings. */
module Strings {
  import opened Domain

  function LastIndex(s: string, c: char): (i: Option<nat>)
    ensures i.Some? ==> i.value < |s| && s[i.value] == c
  {
    if s == "" then None
    else if s[|s| - 1] == c then Some(|s| - 1)
    else LastIndex(s[..|s| - 1], c)
  }

  function FirstIndex(s: string, c: char): (i: Option<nat>)
    ensures i.Some? ==> i.value < |s| && s[i.value] == c
  {
    if s == "" then None
    else if s[0] == c then Some(0)
    else
      var rest := FirstIndex(s[1..], c);
      if rest.Some? then Some(rest.value + 1) else None
  }

  /** `split(c)`. */
  function Split(s: string, c: char): (parts: seq<string>)
    ensures |parts| > 0
    decreases |s|
  {
    var i := FirstIndex(s, c);
    if i.None? then [s] else [s[..i.value]] + Split(s[i.value + 1..], c)
  }

  /** `splitn(2, c)`. */
  function SplitOnce(s: string, c: char): (parts: seq<string>)
    ensures 1 <= |parts| <= 2
  {
    var i := FirstIndex(s, c);
    if i.None? then [s] else [s[..i.value], s[i.value + 1..]]
  }

  predicate IsDigit(c: char) {
    '0' <= c <= '9'
  }

  /** Rust's `char::is_whitespace`. */
  predicate IsSpace(c: char) {
    var n := c as int;
    || 9 <= n <= 13 || n == 0x20 || n == 0x85 || n == 0xA0 || n == 0x1680 || 0x2000 <= n <= 0x200A
    || n == 0x2028 || n == 0x2029 || n == 0x202F || n == 0x205F || n == 0x3000
  }

  predicate Distinct(s: seq<string>) {
    forall i, j | 0 <= i < j < |s| :: s[i] != s[j]
  }

  // ------------------------------------------------------------------
  // Splitting what was joined
  // ------------------------------------------------------------------

  lemma {:induction false} LastIndexNone(s: string, c: char)
    requires c !in s
    ensures LastIndex(s, c).None?
  {
    if s != "" { LastIndexNone(s[..|s| - 1], c); }
  }

  lemma {:induction false} LastIndexAt(a: string, c: char, b: string)
    requires c !in b
    ensures LastIndex(a + [c] + b, c) == Some(|a|)
  {
    var s := a + [c] + b;
    if b != "" {
      assert s[..|s| - 1] == a + [c] + b[..|b| - 1];
      LastIndexAt(a, c, b[..|b| - 1]);
    }
  }

  lemma {:induction false} FirstIndexNone(s: string, c: char)
    requires c !in s
    ensures FirstIndex(s, c).None?
  {
    if s != "" { FirstIndexNone(s[1..], c); }
  }

  lemma {:induction false} FirstIndexAt(a: string, c: char, b: string)
    requires c !in a
    ensures FirstIndex(a + [c] + b, c) == Some(|a|)
  {
    var s := a + [c] + b;
    if a != "" {
      assert s[0] == a[0] && s[1..] == a[1..] + [c] + b;
      FirstIndexAt(a[1..], c, b);
    }
  }

  lemma SplitNone(s: string, c: char)
    requires c !in s
    ensures Split(s, c) == [s] && SplitOnce(s, c) == [s]
  {
    FirstIndexNone(s, c);
  }

  lemma SplitAt(a: string, c: char, b: string)
    requires c !in a
    ensures Split(a + [c] + b, c) == [a] + Split(b, c)
    ensures SplitOnce(a + [c] + b, c) == [a, b]
  {
    var s := a + [c] + b;
    FirstIndexAt(a, c, b);
    assert s[..|a|] == a && s[|a| + 1..] == b;
  }

  /** `trim_start_matches` and `trim_end_matches`. */
  function TrimStart(s: string, drop: char -> bool): string {
    if s != "" && drop(s[0]) then TrimStart(s[1..], drop) else s
  }

  function TrimEnd(s: string, drop: char -> bool): string {
    if s != "" && drop(s[|s| - 1]) then TrimEnd(s[..|s| - 1], drop) else s
  }

  function Trim(s: string, drop: char -> bool): string {
    TrimEnd(TrimStart(s, drop), drop)
  }

  lemma {:induction false} TrimStartOff(a: string, s: string, drop: char -> bool)
    requires (forall c | c in a :: drop(c)) && (s == "" || !drop(s[0]))
    ensures TrimStart(a + s, drop) == s
  {
    if a == "" {
      assert a + s == s;
    } else {
      assert (a + s)[0] == a[0] && (a + s)[1..] == a[1..] + s;
      TrimStartOff(a[1..], s, drop);
    }
  }

  lemma {:induction false} TrimEndOff(s: string, b: string, drop: char -> bool)
    requires (forall c | c in b :: drop(c)) && (s == "" || !drop(s[|s| - 1]))
    ensures TrimEnd(s + b, drop) == s
  {
    if b == "" {
      assert s + b == s;
    } else {
      var t := s + b;
      assert t[|t| - 1] == b[|b| - 1] && t[..|t| - 1] == s + b[..|b| - 1];
      TrimEndOff(s, b[..|b| - 1], drop);
    }
  }

  /** Trimming takes off exactly what was put around a string whose ends are
      not trimmed. */
  lemma TrimOff(a: string, s: string, b: string, drop: char -> bool)
    requires (forall c | c in a :: drop(c)) && (forall c | c in b :: drop(c))
    requires s != "" && !drop(s[0]) && !drop(s[|s| - 1])
    ensures Trim(a + s + b, drop) == s
  {
    assert a + s + b == a + (s + b) && (s + b)[0] == s[0];
    TrimStartOff(a, s + b, drop);
    TrimEndOff(s, b, drop);
  }

  // ------------------------------------------------------------------
  // Joining
  // ------------------------------------------------------------------

  /** `join`. */
  function Join(parts: seq<string>, separator: string): string {
    if parts == [] then ""
    else if |parts| == 1 then parts[0]
    else Join(parts[..|parts| - 1], separator) + separator + parts[|parts| - 1]
  }

  lemma {:induction false} SplitConcat(a: string, c: char, b: string)
    ensures Split(a + [c] + b, c) == Split(a, c) + Split(b, c)
    decreases |a|
  {
    var i := FirstIndex(a, c);
    if i.None? {
      FirstIndexAbsent(a, c);
      SplitAt(a, c, b);
    } else {
      FirstIndexSplits(a, c);
      var x, y := a[..i.value], a[i.value + 1..];
      assert a + [c] + b == x + [c] + (y + [c] + b);
      SplitAt(x, c, y + [c] + b);
      SplitAt(x, c, y);
      SplitConcat(y, c, b);
    }
  }

  lemma {:induction false} FirstIndexAbsent(s: string, c: char)
    requires FirstIndex(s, c).None?
    ensures c !in s
  {
    if s != "" { FirstIndexAbsent(s[1..], c); }
  }

  lemma {:induction false} FirstIndexSplits(s: string, c: char)
    requires FirstIndex(s, c).Some?
    ensures var i := FirstIndex(s, c).value; s == s[..i] + [c] + s[i + 1..] && c !in s[..i]
  {
    if s[0] != c {
      FirstIndexSplits(s[1..], c);
      var i := FirstIndex(s, c).value;
      assert s[..i] == [s[0]] + s[1..][..i - 1] && s[i + 1..] == s[1..][i..];
    }
  }

  /** The pieces between the separators, of a whole list. */
  function Pieces(parts: seq<string>, c: char): seq<string> {
    if parts == [] then [] else Pieces(parts[..|parts| - 1], c) + Split(parts[|parts| - 1], c)
  }

  lemma {:induction false} SplitJoined(parts: seq<string>, c: char)
    requires parts != []
    ensures Split(Join(parts, [c]), c) == Pieces(parts, c)
  {
    if |parts| == 1 {
      assert parts[..0] == [];
    } else {
      var init, last := parts[..|parts| - 1], parts[|parts| - 1];
      SplitJoined(init, c);
      SplitConcat(Join(init, [c]), c, last);
    }
  }

  lemma {:induction false} JoinOneMore(first: string, rest: seq<string>, separator: string)
    requires rest != []
    ensures Join([first] + rest, separator) == first + separator + Join(rest, separator)
  {
    var all := [first] + rest;
    if |rest| == 1 {
      assert all[..1] == [first];
    } else {
      assert all[..|all| - 1] == [first] + rest[..|rest| - 1];
      JoinOneMore(first, rest[..|rest| - 1], separator);
    }
  }

  lemma {:induction false} JoinSplit(s: string, c: char)
    ensures Join(Split(s, c), [c]) == s
    decreases |s|
  {
    var i := FirstIndex(s, c);
    if i.Some? {
      FirstIndexSplits(s, c);
      JoinSplit(s[i.value + 1..], c);
      JoinOneMore(s[..i.value], Split(s[i.value + 1..], c), [c]);
    }
  }

  /** Joined lists are the same text exactly if they have the same pieces. */
  lemma JoinedAlike(a: seq<string>, b: seq<string>, c: char)
    requires a != [] && b != []
    ensures Join(a, [c]) == Join(b, [c]) <==> Pieces(a, c) == Pieces(b, c)
  {
    SplitJoined(a, c);
    SplitJoined(b, c);
    JoinSplit(Join(a, [c]), c);
    JoinSplit(Join(b, [c]), c);
  }

  lemma {:induction false} SomePieces(parts: seq<string>, c: char)
    ensures Pieces(parts, c) == [] <==> parts == []
  {}

  /** Parts without the separator are their own pieces. */
  lemma {:induction false} PlainPieces(parts: seq<string>, c: char)
    requires forall p | p in parts :: c !in p
    ensures Pieces(parts, c) == parts
  {
    if parts != [] {
      var init, last := parts[..|parts| - 1], parts[|parts| - 1];
      assert last in parts && parts == init + [last];
      PlainPieces(init, c);
      SplitNone(last, c);
    }
  }
}
