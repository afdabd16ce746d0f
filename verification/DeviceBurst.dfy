/** Runs that put as many requests of one IP into a window as the bound for overlapping creates allows. */
module DeviceBurst {
  import opened Prelude
  import opened DeviceCreate
  import opened DeviceWindow
  import DeviceFlow

  const NAME: string := "ada"
  const FROM: string := "10.0.0.1"
  const REQUEST: Entry := Entry(NAME, FROM, None, DeviceFlow.Open, 0)
  const NOBODY: State := State(0, [], map[])

  ghost predicate Reaches(cfg: Config, t: State, k: nat) {
    exists run :: ValidSteps(cfg, NOBODY, run) && Overlap(cfg, NOBODY, run, Ip(FROM), k) && End(cfg, NOBODY, run) == t
  }

  lemma {:induction false} ExtendRun(cfg: Config, st: State, run: seq<Step>, s: Step, k: nat)
    requires ValidSteps(cfg, st, run) && Overlap(cfg, st, run, Ip(FROM), k) && CanStep(End(cfg, st, run), s)
    requires |Between(cfg, Run(cfg, End(cfg, st, run), s), Ip(FROM))| <= k
    ensures ValidSteps(cfg, st, run + [s]) && Overlap(cfg, st, run + [s], Ip(FROM), k)
    ensures End(cfg, st, run + [s]) == Run(cfg, End(cfg, st, run), s)
    decreases |run|
  {
    if run == [] {
      assert run + [s] == [s];
      assert ValidSteps(cfg, Run(cfg, st, s), [s][1..]);
    } else {
      ExtendRun(cfg, Run(cfg, st, run[0]), run[1..], s, k);
      assert (run + [s])[1..] == run[1..] + [s];
    }
  }

  lemma Next(cfg: Config, t: State, k: nat, s: Step, u: State)
    requires Reaches(cfg, t, k) && CanStep(t, s) && Run(cfg, t, s) == u && |Between(cfg, u, Ip(FROM))| <= k
    ensures Reaches(cfg, u, k)
  {
    var run :| ValidSteps(cfg, NOBODY, run) && Overlap(cfg, NOBODY, run, Ip(FROM), k) && End(cfg, NOBODY, run) == t;
    ExtendRun(cfg, NOBODY, run, s, k);
  }

  /** At time 0: `n` requests stored, the calls from `first` on about to store theirs, all earlier ones done. */
  ghost predicate Scene(t: State, n: nat, first: Pid, j: nat) {
    && t.now == 0 && t.rows == seq(n, _ => REQUEST)
    && (forall p :: p in t.calls ==> p < first + j)
    && (forall p :: p in t.calls && p < first ==> t.calls[p] == Done)
    && (forall p: Pid :: first <= p < first + j ==>
          p in t.calls && t.calls[p].Inserting? && t.calls[p].username == NAME && t.calls[p].ip == FROM)
  }

  lemma {:induction false} CountSame(n: nat, f: Entry -> bool)
    ensures f(REQUEST) ==> Count(seq(n, _ => REQUEST), f) == n
  {
    if n == 0 {
    } else {
      assert seq(n, _ => REQUEST)[..n - 1] == seq(n - 1, _ => REQUEST);
      CountSame(n - 1, f);
    }
  }

  lemma FewBetween(cfg: Config, t: State, first: Pid, j: nat, k: nat)
    requires j <= k && forall p :: p in t.calls && !(first <= p < first + j) ==> Passed(cfg, t.calls[p], Ip(FROM)).None?
    ensures |Between(cfg, t, Ip(FROM))| <= k
  {
    SubsetSize(Between(cfg, t, Ip(FROM)), Interval(first, j));
  }

  /** One more call begins and counts its IP's requests. */
  lemma CountsIp(cfg: Config, t: State, n: nat, first: Pid, j: nat, k: nat)
    requires Reaches(cfg, t, k) && Scene(t, n, first, j) && j < k && cfg.createWindow > 0
    ensures Reaches(cfg, t.Goto(first + j, Counting(NAME, FROM, -cfg.createWindow, Some(Seen(n, n)), None)), k)
  {
    var p, start := first + j, -cfg.createWindow;
    CountSame(n, CreatedAfter(Ip(FROM), start));
    var begun := t.Goto(p, Counting(NAME, FROM, start, None, None));
    FewBetween(cfg, begun, first, j, k);
    Next(cfg, t, k, Begin(p, NAME, FROM), begun);
    var half := t.Goto(p, Counting(NAME, FROM, start, Some(Seen(n, n)), None));
    assert begun.Goto(p, half.calls[p]) == half;
    FewBetween(cfg, half, first, j + 1, k);
    Next(cfg, begun, k, CountIp(p), half);
  }

  /** It counts its username's requests too, and is ready to insert. */
  lemma Joins(cfg: Config, t: State, n: nat, first: Pid, j: nat, k: nat) returns (u: State)
    requires Reaches(cfg, t, k) && Scene(t, n, first, j) && n < cfg.createLimit && j < k && cfg.createWindow > 0
    ensures Reaches(cfg, u, k) && Scene(u, n, first, j + 1)
  {
    var p, start := first + j, -cfg.createWindow;
    CountSame(n, CreatedAfter(Username(NAME), start));
    CountsIp(cfg, t, n, first, j, k);
    var half := t.Goto(p, Counting(NAME, FROM, start, Some(Seen(n, n)), None));
    u := t.Goto(p, Inserting(NAME, FROM, n, n));
    assert half.Goto(p, u.calls[p]) == u;
    FewBetween(cfg, u, first, j + 1, k);
    Next(cfg, half, k, CountUsername(p), u);
  }

  lemma {:induction false} Gathers(cfg: Config, t: State, n: nat, first: Pid, j: nat, k: nat) returns (u: State)
    requires Reaches(cfg, t, k) && Scene(t, n, first, 0) && n < cfg.createLimit && j <= k && cfg.createWindow > 0
    ensures Reaches(cfg, u, k) && Scene(u, n, first, j)
  {
    if j == 0 {
      u := t;
    } else {
      u := Gathers(cfg, t, n, first, j - 1, k);
      u := Joins(cfg, u, n, first, j - 1, k);
    }
  }

  lemma {:induction false} AllStore(cfg: Config, t: State, n: nat, first: Pid, j: nat, k: nat) returns (u: State)
    requires Reaches(cfg, t, k) && Scene(t, n, first, j) && j <= k
    ensures Reaches(cfg, u, k) && Scene(u, n + j, first + j, 0)
    decreases j
  {
    if j == 0 {
      u := t;
    } else {
      u := Stored(t, first, REQUEST);
      FewBetween(cfg, u, first, j, k);
      Next(cfg, t, k, Insert(first), u);
      assert seq(n, _ => REQUEST) + [REQUEST] == seq(n + 1, _ => REQUEST);
      u := AllStore(cfg, u, n + 1, first + 1, j - 1, k);
    }
  }

  lemma {:induction false} Fills(cfg: Config, n: nat, k: nat) returns (t: State)
    requires n < cfg.createLimit && k > 0 && cfg.createWindow > 0
    ensures Reaches(cfg, t, k) && Scene(t, n, n, 0)
  {
    if n == 0 {
      t := NOBODY;
      assert Between(cfg, NOBODY, Ip(FROM)) == {};
      assert ValidSteps(cfg, NOBODY, []) && Overlap(cfg, NOBODY, [], Ip(FROM), k) && End(cfg, NOBODY, []) == NOBODY;
    } else {
      t := Fills(cfg, n - 1, k);
      t := Gathers(cfg, t, n - 1, n - 1, 1, k);
      t := AllStore(cfg, t, n - 1, n - 1, 1, k);
    }
  }

  /** The bound is met: for every `k`, at most `k` overlapping creates put `limit - 1 + k` requests into one window. */
  lemma ConcurrentWindowIsTight(cfg: Config, k: nat)
    requires cfg.createLimit >= 1 && cfg.createWindow > 0 && k > 0
    ensures exists run ::
      && ValidSteps(cfg, NOBODY, run) && Overlap(cfg, NOBODY, run, Ip(FROM), k)
      && Count(End(cfg, NOBODY, run).rows, CreatedWithin(Ip(FROM), -1, cfg.createWindow - 1)) == cfg.createLimit - 1 + k
  {
    var n := cfg.createLimit - 1;
    var t := Fills(cfg, n, k);
    t := Gathers(cfg, t, n, n, k, k);
    t := AllStore(cfg, t, n, n, k, k);
    CountSame(n + k, CreatedWithin(Ip(FROM), -1, cfg.createWindow - 1));
  }
}
