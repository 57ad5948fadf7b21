/** Runs of the whole system: every interleaving of scheduler, operator,
    sync, sweep, recovery and crash. */
module Runs {
  import opened Domain
  import opened World
  import O = OperatorSteps
  import D = DaemonSteps
  import S = SelectSteps
  import E = ExecSteps
  import ExecProofs
  import OutcomeProofs

  datatype Step =
    | Outside(o: O.OutsideStep)
    | Daemon(d: D.DaemonStep)
    | Select(s: S.SelectStep)
    | Start(a: E.StartStep)
    | Outcome(b: E.OutcomeStep)

  predicate Enabled(w: World, x: Step) {
    match x
    case Outside(o) => O.Enabled(w, o)
    case Daemon(d) => D.Enabled(w, d)
    case Select(s) => S.Enabled(w, s)
    case Start(a) => E.StartEnabled(w, a)
    case Outcome(b) => E.OutcomeEnabled(w, b)
  }

  function Next(w: World, x: Step): World
    requires Enabled(w, x)
  {
    match x
    case Outside(o) => O.Next(w, o)
    case Daemon(d) => D.Next(w, d)
    case Select(s) => S.Next(w, s)
    case Start(a) => E.StartNext(w, a)
    case Outcome(b) => E.OutcomeNext(w, b)
  }

  /** Where a run ends; `None` when one of its steps cannot be taken. */
  function After(w: World, xs: seq<Step>): Option<World>
    decreases |xs|
  {
    if xs == [] then Some(w)
    else if Enabled(w, xs[0]) then After(Next(w, xs[0]), xs[1..])
    else None
  }

  ghost predicate Reachable(w: World) {
    exists xs: seq<Step> :: After(START, xs) == Some(w)
  }

  lemma StepKeepsInv(w: World, x: Step)
    requires Inv(w) && Enabled(w, x)
    ensures Inv(Next(w, x))
  {
    match x
    case Outside(o) => O.KeepsInv(w, o);
    case Daemon(d) => D.KeepsInv(w, d);
    case Select(s) => S.KeepsInv(w, s);
    case Start(a) => ExecProofs.StartKeepsInv(w, a);
    case Outcome(b) => OutcomeProofs.OutcomeKeepsInv(w, b);
  }

  lemma {:induction false} RunKeepsInv(w: World, xs: seq<Step>)
    requires Inv(w) && After(w, xs).Some?
    ensures Inv(After(w, xs).value)
    decreases |xs|
  {
    if xs != [] {
      StepKeepsInv(w, xs[0]);
      RunKeepsInv(Next(w, xs[0]), xs[1..]);
    }
  }

  /** The invariant holds in every reachable state. */
  lemma ReachableOk(w: World)
    requires Reachable(w)
    ensures Inv(w)
  {
    var xs :| After(START, xs) == Some(w);
    StartOk();
    RunKeepsInv(START, xs);
  }

  lemma {:induction false} RunsCompose(w: World, xs: seq<Step>, ys: seq<Step>)
    requires After(w, xs).Some?
    ensures After(w, xs + ys) == After(After(w, xs).value, ys)
    decreases |xs|
  {
    if xs == [] {
      assert xs + ys == ys;
    } else {
      assert (xs + ys)[0] == xs[0] && (xs + ys)[1..] == xs[1..] + ys;
      RunsCompose(Next(w, xs[0]), xs[1..], ys);
    }
  }

  /** A run, then another. */
  lemma RunThenRun(w: World, xs: seq<Step>, w1: World, ys: seq<Step>, w2: World)
    requires After(w, xs) == Some(w1) && After(w1, ys) == Some(w2)
    ensures After(w, xs + ys) == Some(w2)
  {
    RunsCompose(w, xs, ys);
  }

  lemma ReachableOn(w: World, xs: seq<Step>)
    requires Reachable(w) && After(w, xs).Some?
    ensures Reachable(After(w, xs).value)
  {
    var before :| After(START, before) == Some(w);
    RunsCompose(START, before, xs);
  }

  lemma StepReaches(w: World, x: Step)
    requires Reachable(w) && Enabled(w, x)
    ensures Reachable(Next(w, x))
  {
    var w' := Next(w, x);
    assert [x][1..] == [] && After(w', []) == Some(w');
    assert After(w, [x]) == Some(w');
    ReachableOn(w, [x]);
  }

  /** One step, then a run. */
  lemma StepThen(w: World, x: Step, xs: seq<Step>)
    requires Enabled(w, x)
    ensures After(w, [x] + xs) == After(Next(w, x), xs)
  {
    assert ([x] + xs)[0] == x && ([x] + xs)[1..] == xs;
  }

  /** A run, then one step. */
  lemma RunThenStep(w: World, xs: seq<Step>, x: Step)
    requires After(w, xs).Some? && Enabled(After(w, xs).value, x)
    ensures After(w, xs + [x]) == Some(Next(After(w, xs).value, x))
  {
    RunsCompose(w, xs, [x]);
    var w1 := After(w, xs).value;
    assert [x][1..] == [];
    assert After(Next(w1, x), []) == Some(Next(w1, x));
  }
}
