/** The identical-failure streaks of fixes, rechecks and harvests
    (`record_*_attempt` / `clear_*_attempts`, hunter-rs/src/store.rs), beside
    the history of attempts they summarise. */
module Streaks {
  import opened Domain

  /** `MAX_CONSECUTIVE_SAME_FAILURE`. */
  const MAX_SAME_FAILURE: nat := 3

  /** How one attempt at a finding's work ended. `Cleared` is an outcome that
      settles the work or leaves its tier. */
  datatype Attempt = Fails(key: string) | Pauses | Denies | Cleared

  /** The two columns, and the history they stand for. */
  datatype Streak = Streak(count: nat, last: Option<string>, log: seq<Attempt>)

  const FRESH := Streak(0, None, [])

  function Fail(s: Streak, key: string): Streak {
    Streak(if s.last == Some(key) then s.count + 1 else 1, Some(key), s.log + [Fails(key)])
  }

  function Clear(s: Streak): Streak {
    Streak(0, None, s.log + [Cleared])
  }

  function Pause(s: Streak): Streak {
    s.(log := s.log + [Pauses])
  }

  function Deny(s: Streak): Streak {
    s.(log := s.log + [Denies])
  }

  /** The key of the newest failure since the last clear. */
  function NewestKey(log: seq<Attempt>): Option<string> {
    if log == [] then None
    else match log[|log| - 1]
      case Fails(k) => Some(k)
      case Cleared => None
      case _ => NewestKey(log[..|log| - 1])
  }

  /** How many failures with `key` end the history: no other failure and no
      clear between them, whatever pauses and denials there are. */
  function TrailingRun(log: seq<Attempt>, key: string): nat {
    if log == [] then 0
    else match log[|log| - 1]
      case Fails(k) => if k == key then TrailingRun(log[..|log| - 1], key) + 1 else 0
      case Cleared => 0
      case _ => TrailingRun(log[..|log| - 1], key)
  }

  /** The columns say what the history says. */
  predicate Faithful(s: Streak) {
    && s.last == NewestKey(s.log)
    && s.count == (if s.last.Some? then TrailingRun(s.log, s.last.value) else 0)
  }

  /** A failure that is not the newest one has no trailing run. */
  lemma {:induction false} OtherKeysRestart(log: seq<Attempt>, key: string)
    requires NewestKey(log) != Some(key)
    ensures TrailingRun(log, key) == 0
  {
    if log != [] && (log[|log| - 1].Pauses? || log[|log| - 1].Denies?) {
      OtherKeysRestart(log[..|log| - 1], key);
    }
  }

  /** Every write keeps the columns equal to the trailing run of the
      history; a pause or a denial changes neither. */
  lemma StreakFollowsHistory(s: Streak, key: string)
    requires Faithful(s)
    ensures Faithful(Fail(s, key)) && Faithful(Clear(s)) && Faithful(Pause(s)) && Faithful(Deny(s))
    ensures Pause(s).count == Deny(s).count == s.count && Pause(s).last == Deny(s).last == s.last
  {
    assert (s.log + [Fails(key)])[..|s.log|] == s.log;
    assert (s.log + [Pauses])[..|s.log|] == s.log;
    assert (s.log + [Denies])[..|s.log|] == s.log;
    assert (s.log + [Cleared])[..|s.log|] == s.log;
    if s.last != Some(key) { OtherKeysRestart(s.log, key); }
  }
}
