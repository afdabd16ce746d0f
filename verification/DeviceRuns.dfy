/** Building runs of the device flow step by step, every step subject to a condition. */
module DeviceRuns {
  import opened Prelude
  import opened DeviceFlow

  /** A condition on each step of a run, given the state it is taken in. */
  type Condition = (State, Action) -> bool

  ghost predicate Always(cfg: Config, st: State, run: seq<Action>, ok: Condition)
    requires ValidRun(cfg, st, run)
    decreases |run|
  {
    run == [] || (ok(st, run[0]) && Always(cfg, Apply(cfg, st, run[0]), run[1..], ok))
  }

  ghost predicate Reaches(cfg: Config, st: State, t: State, ok: Condition) {
    exists run :: ValidRun(cfg, st, run) && Always(cfg, st, run, ok) && After(cfg, st, run) == t
  }

  lemma ReachesSelf(cfg: Config, st: State, ok: Condition)
    ensures Reaches(cfg, st, st, ok)
  {
    assert ValidRun(cfg, st, []) && Always(cfg, st, [], ok) && After(cfg, st, []) == st;
  }

  lemma {:induction false} ExtendRun(cfg: Config, st: State, run: seq<Action>, a: Action, ok: Condition)
    requires ValidRun(cfg, st, run) && Always(cfg, st, run, ok)
    requires Enabled(After(cfg, st, run), a) && ok(After(cfg, st, run), a)
    ensures ValidRun(cfg, st, run + [a]) && Always(cfg, st, run + [a], ok)
    ensures After(cfg, st, run + [a]) == Apply(cfg, After(cfg, st, run), a)
    decreases |run|
  {
    if run == [] {
      assert run + [a] == [a];
      assert ValidRun(cfg, Apply(cfg, st, a), [a][1..]);
    } else {
      ExtendRun(cfg, Apply(cfg, st, run[0]), run[1..], a, ok);
      assert (run + [a])[1..] == run[1..] + [a];
    }
  }

  /** One more step, to the state `u`. */
  lemma ReachesNext(cfg: Config, st: State, t: State, a: Action, u: State, ok: Condition)
    requires Reaches(cfg, st, t, ok) && Enabled(t, a) && ok(t, a) && Apply(cfg, t, a) == u
    ensures Reaches(cfg, st, u, ok)
  {
    var run :| ValidRun(cfg, st, run) && Always(cfg, st, run, ok) && After(cfg, st, run) == t;
    ExtendRun(cfg, st, run, a, ok);
  }
}
