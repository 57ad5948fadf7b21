/** Whose turn it is: the finding that selection turns to first
    (hunter-rs/src/scheduler.rs). */
module SelectionOrder {
  import opened Domain
  import opened Tables
  import opened Selection
  import S = SelectSteps

  /** The finding tiers, first to last. */
  function Rank(kind: JobKind): nat
    requires IsFindingKind(kind)
  {
    match kind
    case Engage => 0
    case Harvest => 1
    case Recheck => 2
    case Fix => 3
  }

  /** The finding `f` is in this tier, in the repo that is asked for, and, if
      only overridden ones are looked at, overridden. */
  predicate Stands(t: Tables, env: Env, ahead: bool, kind: JobKind, f: nat) {
    && IsFindingKind(kind) && S.InTier(t, kind, f) && Forced(env.force, t.findings[f].repo)
    && (ahead ==> f in env.overridden)
  }

  /** `f` is not after `g` in their tier: flagged PRs by how long their reason
      has stood and closed ones by their last sync, the newer id of two equal
      ones; rechecks and fixes by age, the newest of the overridden ones. */
  predicate NotAfter(env: Env, ahead: bool, kind: JobKind, f: nat, g: nat)
    requires IsFindingKind(kind)
  {
    match kind
    case Engage => ByTime(env.attentionKey, f, g)
    case Harvest => ByTime(env.syncedAt, f, g)
    case Recheck => if ahead then f >= g else f <= g
    case Fix => if ahead then f >= g else f <= g
  }

  predicate ByTime(key: nat -> Option<int>, f: nat, g: nat) {
    Earlier(key(f), key(g)) || (key(f) == key(g) && f >= g)
  }

  /** First of all that stand: by tier, then within the tier. */
  ghost predicate IsFirst(t: Tables, env: Env, ahead: bool, kind: JobKind, f: nat) {
    && Stands(t, env, ahead, kind, f)
    && forall k, g | Stands(t, env, ahead, k, g) ::
        Rank(kind) < Rank(k) || (k == kind && NotAfter(env, ahead, kind, f, g))
  }

  predicate Descends(items: seq<nat>) {
    forall a, b | 0 <= a < b < |items| :: items[a] > items[b]
  }

  lemma DescendsFrom(first: nat, rest: seq<nat>)
    requires Descends(rest) && forall f | f in rest :: f < first
    ensures Descends([first] + rest)
  {
    var all := [first] + rest;
    forall a, b | 0 <= a < b < |all| ensures all[a] > all[b] {
      assert all[b] == rest[b - 1] && rest[b - 1] in rest;
      if a > 0 { assert all[a] == rest[a - 1]; }
    }
  }

  lemma {:induction false} ItemsDescend(t: Tables, kind: JobKind, force: Option<nat>, n: nat)
    ensures Descends(ItemsBelow(t, kind, force, n))
  {
    if n > 0 {
      ItemsDescend(t, kind, force, n - 1);
      DescendsFrom(n - 1, ItemsBelow(t, kind, force, n - 1));
    }
  }

  lemma {:induction false} OverriddenDescend(items: seq<nat>, overridden: set<nat>)
    requires Descends(items)
    ensures Descends(Overridden(items, overridden))
  {
    if items != [] {
      var rest := items[1..];
      forall a, b | 0 <= a < b < |rest| ensures rest[a] > rest[b] {
        assert rest[a] == items[a + 1] && rest[b] == items[b + 1];
      }
      OverriddenDescend(rest, overridden);
      forall f | f in Overridden(rest, overridden) ensures f < items[0] {
        var a :| 0 <= a < |rest| && rest[a] == f;
        assert items[a + 1] == f;
      }
      DescendsFrom(items[0], Overridden(rest, overridden));
    }
  }

  /** Of those with the earliest key the first in the list, which is the
      newest. */
  lemma {:induction false} OldestByTime(items: seq<nat>, key: nat -> Option<int>)
    requires items != [] && Descends(items)
    ensures forall g | g in items :: ByTime(key, Oldest(items, key), g)
  {
    if |items| > 1 {
      var rest, last := items[..|items| - 1], items[|items| - 1];
      assert items == rest + [last];
      OldestByTime(rest, key);
      var best := Oldest(rest, key);
      forall g | g in items ensures ByTime(key, Oldest(items, key), g) {
        if g != last { assert g in rest && ByTime(key, best, g); } else { assert best in rest && best > last; }
      }
    }
  }

  lemma TierPickIsFirst(t: Tables, env: Env, kind: JobKind, ahead: bool)
    requires IsFindingKind(kind)
    ensures var p := TierPick(t, env, kind, ahead);
      && (p.Some? ==> Stands(t, env, ahead, kind, p.value))
      && (forall g | Stands(t, env, ahead, kind, g) :: p.Some? && NotAfter(env, ahead, kind, p.value, g))
  {
    var all := Items(t, kind, env.force);
    var items := if ahead then Overridden(all, env.overridden) else all;
    ItemsDescend(t, kind, env.force, Bound(t.findings.Keys));
    OverriddenDescend(all, env.overridden);
    forall g: nat ensures g in items <==> Stands(t, env, ahead, kind, g) {}
    if items != [] {
      assert items[0] in items && items[|items| - 1] in items;
      if kind.Engage? { OldestByTime(items, env.attentionKey); }
      if kind.Harvest? { OldestByTime(items, env.syncedAt); }
    }
  }

  lemma {:induction false} FirstInIsFirst(t: Tables, env: Env, ahead: bool, n: nat)
    requires n <= |TIERS|
    ensures var p := FirstIn(t, env, ahead, n);
      && (p.Some? ==> Stands(t, env, ahead, p.value.0, p.value.1) && Rank(p.value.0) >= n)
      && (forall k, g | Stands(t, env, ahead, k, g) && Rank(k) >= n ::
            && p.Some?
            && (Rank(p.value.0) < Rank(k)
                || (k == p.value.0 && NotAfter(env, ahead, p.value.0, p.value.1, g))))
    decreases |TIERS| - n
  {
    if n < |TIERS| {
      assert IsFindingKind(TIERS[n]) && Rank(TIERS[n]) == n;
      TierPickIsFirst(t, env, TIERS[n], ahead);
      FirstInIsFirst(t, env, ahead, n + 1);
      forall k | IsFindingKind(k) && Rank(k) == n ensures k == TIERS[n] {}
    }
  }

  lemma OneFirst(t: Tables, env: Env, ahead: bool, k: JobKind, f: nat, m: JobKind, g: nat)
    requires IsFirst(t, env, ahead, k, f) && IsFirst(t, env, ahead, m, g)
    ensures k == m && f == g
  {}

  ghost predicate AnyOverridden(t: Tables, env: Env) {
    exists k, f :: Stands(t, env, true, k, f)
  }

  /** Selection turns first to exactly this finding: if any that waits is
      overridden, the first of the overridden ones, else the first of all. */
  lemma FirstItemExact(t: Tables, env: Env, kind: JobKind, f: nat)
    ensures FirstItem(t, env) == Some((kind, f)) <==> IsFirst(t, env, AnyOverridden(t, env), kind, f)
  {
    FirstInIsFirst(t, env, true, 0);
    FirstInIsFirst(t, env, false, 0);
    var ahead := AnyOverridden(t, env);
    assert ahead <==> FirstIn(t, env, true, 0).Some?;
    var p := FirstIn(t, env, ahead, 0);
    assert FirstItem(t, env) == p;
    if p.Some? {
      assert IsFirst(t, env, ahead, p.value.0, p.value.1);
      if IsFirst(t, env, ahead, kind, f) { OneFirst(t, env, ahead, kind, f, p.value.0, p.value.1); }
    }
  }
}
