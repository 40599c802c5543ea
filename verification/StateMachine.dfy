/** State machines given by an initial predicate and a step relation. */
module StateMachine {

  datatype Machine<!S> = Machine(init: S -> bool, step: (S, S) -> bool)

  /** The states of a run, from the first to the last. */
  ghost predicate IsRun<S(!new)>(m: Machine<S>, run: seq<S>) {
    && |run| > 0 && m.init(run[0])
    && forall i :: 0 < i < |run| ==> m.step(run[i - 1], run[i])
  }

  /** Some run ends in `s`. */
  ghost predicate Reachable<S(!new)>(m: Machine<S>, s: S) {
    exists run :: IsRun(m, run) && run[|run| - 1] == s
  }

  /** What holds at the start and is kept by every step holds in every reachable state. */
  lemma InvariantHolds<S(!new)>(m: Machine<S>, inv: S -> bool, s: S)
    requires forall t :: m.init(t) ==> inv(t)
    requires forall t, t' :: inv(t) && m.step(t, t') ==> inv(t')
    requires Reachable(m, s)
    ensures inv(s)
  {
    var run :| IsRun(m, run) && run[|run| - 1] == s;
    for i := 1 to |run|
      invariant inv(run[i - 1])
    {
    }
  }

  lemma OneMore<S(!new)>(m: Machine<S>, s: S, s': S)
    requires Reachable(m, s) && m.step(s, s')
    ensures Reachable(m, s')
  {
    var run :| IsRun(m, run) && run[|run| - 1] == s;
    var longer := run + [s'];
    forall i | 0 < i < |longer| ensures m.step(longer[i - 1], longer[i]) {
      if i < |run| {
        assert longer[i - 1] == run[i - 1] && longer[i] == run[i];
      }
    }
    assert IsRun(m, longer) && longer[|longer| - 1] == s';
  }

  lemma StartReachable<S(!new)>(m: Machine<S>, s: S)
    requires m.init(s)
    ensures Reachable(m, s)
  {
    assert IsRun(m, [s]) && [s][|[s]| - 1] == s;
  }
}
