/**
 * The failure cool-off of credential validation. Each attempt first reserves
 * itself as a provisional failure in one atomic UPDATE, and settles that
 * reservation afterwards: kept, released, or wiped by a reset. One user's row
 * under any number of concurrent attempts; a row not created yet counts as
 * zero and unlocked, as the statement that ensures it writes.
 */
module CoolOff {
  import opened Prelude

  datatype Config = Config(maxAttempts: int, lockMs: int)

  /** `failed_attempts` and `locked_until`. */
  datatype Counter = Counter(count: nat, lockedUntil: Option<Time>) {
    predicate OpenAt(now: Time) { lockedUntil.None? || lockedUntil.value <= now }
  }

  const FRESH := Counter(0, None)

  /** The reserving UPDATE: the lock is computed from the count before the increment. */
  function Reserve(cfg: Config, row: Counter, now: Time): Counter {
    if row.OpenAt(now)
    then Counter(row.count + 1, if row.count + 1 >= cfg.maxAttempts then Some(now + cfg.lockMs) else None)
    else row
  }

  function Release(row: Counter): Counter {
    Counter(Max(row.count - 1, 0), None)
  }

  /** How one GitHub validation ends. */
  datatype Outcome = CountedFailure | UncountedError | SuccessResets | SuccessOnly

  /** An attempt: reserve with the time captured at its start, validate, settle. */
  datatype Attempt = Reserving(now: Time) | Validating | Releasing | Resetting | Settled | Refused {
    predicate Outstanding() { Validating? || Releasing? || Resetting? }
  }

  /**
   * How the run's reservations went: won, kept as failures, released, ended in
   * a reset; failures kept since the last reset; reservations won against an
   * expired lock; and the latest time a reservation was won with.
   */
  datatype Tally = Tally(
    won: nat, kept: nat, released: nat, resets: nat, keptSinceReset: nat, expiredWins: nat, lastNow: Time)

  datatype State = State(row: Counter, attempts: map<Pid, Attempt>, tally: Tally) {
    function Goto(pid: Pid, a: Attempt): State { this.(attempts := attempts[pid := a]) }
  }

  datatype Action = Start(pid: Pid, now: Time) | Run(pid: Pid, outcome: Outcome)

  predicate Enabled(st: State, a: Action) {
    match a
    case Start(pid, _) => pid !in st.attempts
    case Run(pid, _) => pid in st.attempts && !st.attempts[pid].Settled? && !st.attempts[pid].Refused?
  }

  function Apply(cfg: Config, st: State, a: Action): State
    requires Enabled(st, a)
  {
    match a
    case Start(pid, now) => st.Goto(pid, Reserving(now))
    case Run(pid, outcome) =>
      match st.attempts[pid]
      case Reserving(now) => if st.row.OpenAt(now) then Win(cfg, st, pid, now) else st.Goto(pid, Refused)
      case Validating => AfterValidation(st, pid, outcome)
      case Releasing =>
        st.(row := Release(st.row), tally := st.tally.(released := st.tally.released + 1)).Goto(pid, Settled)
      case Resetting =>
        st.(row := FRESH, tally := st.tally.(resets := st.tally.resets + 1, keptSinceReset := 0)).Goto(pid, Settled)
  }

  function Win(cfg: Config, st: State, pid: Pid, now: Time): State {
    var expired := if st.row.lockedUntil.Some? then 1 else 0;
    var t := st.tally.(won := st.tally.won + 1, expiredWins := st.tally.expiredWins + expired, lastNow := now);
    st.(row := Reserve(cfg, st.row, now), tally := t).Goto(pid, Validating)
  }

  /** `attempt` and `settleFailure`: a counted failure keeps the reservation without a statement. */
  function AfterValidation(st: State, pid: Pid, outcome: Outcome): State {
    match outcome
    case CountedFailure =>
      st.(tally := st.tally.(kept := st.tally.kept + 1, keptSinceReset := st.tally.keptSinceReset + 1))
        .Goto(pid, Settled)
    case UncountedError => st.Goto(pid, Releasing)
    case SuccessOnly => st.Goto(pid, Releasing)
    case SuccessResets => st.Goto(pid, Resetting)
  }

  predicate ValidRun(cfg: Config, st: State, run: seq<Action>)
    decreases |run|
  {
    run == [] || (Enabled(st, run[0]) && ValidRun(cfg, Apply(cfg, st, run[0]), run[1..]))
  }

  function After(cfg: Config, st: State, run: seq<Action>): State
    requires ValidRun(cfg, st, run)
    decreases |run|
  {
    if run == [] then st else After(cfg, Apply(cfg, st, run[0]), run[1..])
  }

  ghost function Outstanding(st: State): set<Pid> {
    set pid | pid in st.attempts && st.attempts[pid].Outstanding()
  }

  /** Count 0, unlocked, nothing outstanding. */
  predicate Init(st: State, t0: Time) {
    st == State(FRESH, map[], Tally(0, 0, 0, 0, 0, 0, t0))
  }

  /** How a step changes what is outstanding. */
  lemma OutstandingChange(cfg: Config, st: State, a: Action)
    requires Enabled(st, a)
    ensures var st' := Apply(cfg, st, a);
      |Outstanding(st')| == |Outstanding(st)|
        + (st'.tally.won - st.tally.won) - (st'.tally.kept - st.tally.kept)
        - (st'.tally.released - st.tally.released) - (st'.tally.resets - st.tally.resets)
  {
    var st' := Apply(cfg, st, a);
    assert Outstanding(st') == Outstanding(st.Goto(a.pid, st'.attempts[a.pid]));
    GotoOutstanding(st, a.pid, st'.attempts[a.pid]);
  }

  lemma GotoOutstanding(st: State, pid: Pid, a: Attempt)
    ensures |Outstanding(st.Goto(pid, a))| == |Outstanding(st)|
      + (if a.Outstanding() then 1 else 0) - (if pid in Outstanding(st) then 1 else 0)
  {
    var others := Outstanding(st) - {pid};
    assert Outstanding(st.Goto(pid, a)) == if a.Outstanding() then others + {pid} else others;
    assert Outstanding(st) == if pid in Outstanding(st) then others + {pid} else others;
  }

  /** What holds in every reachable state, resets included. */
  ghost predicate Inv(cfg: Config, st: State) {
    && st.tally.won == |Outstanding(st)| + st.tally.kept + st.tally.released + st.tally.resets
    && (st.row.lockedUntil.Some? ==> st.row.count >= cfg.maxAttempts)
    && st.row.count <= st.tally.keptSinceReset + |Outstanding(st)|
  }

  lemma StepKeeps(cfg: Config, st: State, a: Action)
    requires Inv(cfg, st) && Enabled(st, a)
    ensures Inv(cfg, Apply(cfg, st, a))
  {
    OutstandingChange(cfg, st, a);
  }

  lemma {:induction false} RunKeeps(cfg: Config, st: State, run: seq<Action>)
    requires Inv(cfg, st) && ValidRun(cfg, st, run)
    ensures Inv(cfg, After(cfg, st, run))
    decreases |run|
  {
    if run == [] {
    } else {
      StepKeeps(cfg, st, run[0]);
      RunKeeps(cfg, Apply(cfg, st, run[0]), run[1..]);
    }
  }

  /**
   * In every reachable state: each reservation won is outstanding or settled
   * exactly once; a lock implies the threshold was reached; and the count is
   * covered by failures kept since the last reset and outstanding attempts.
   */
  lemma ReservationsAccounted(cfg: Config, init: State, t0: Time, run: seq<Action>)
    requires Init(init, t0) && ValidRun(cfg, init, run)
    ensures var st := After(cfg, init, run);
      && st.tally.won == |Outstanding(st)| + st.tally.kept + st.tally.released + st.tally.resets
      && (st.row.lockedUntil.Some? ==> st.row.count >= cfg.maxAttempts)
      && st.row.count <= st.tally.keptSinceReset + |Outstanding(st)|
  {
    assert Outstanding(init) == {};
    RunKeeps(cfg, init, run);
  }

  /** No reset runs while another reservation is outstanding. */
  ghost predicate ResetsAlone(cfg: Config, st: State, run: seq<Action>)
    requires ValidRun(cfg, st, run)
    decreases |run|
  {
    run != [] ==>
    && (run[0].Run? && st.attempts[run[0].pid].Resetting? ==> Outstanding(st) == {run[0].pid})
    && ResetsAlone(cfg, Apply(cfg, st, run[0]), run[1..])
  }

  ghost predicate Exact(st: State) {
    st.row.count == st.tally.keptSinceReset + |Outstanding(st)|
  }

  /** With no overlapping reset, the count is exactly the failures kept plus the outstanding attempts. */
  lemma {:induction false} CountIsExact(cfg: Config, st: State, run: seq<Action>)
    requires Exact(st) && ValidRun(cfg, st, run) && ResetsAlone(cfg, st, run)
    ensures Exact(After(cfg, st, run))
    decreases |run|
  {
    if run == [] {
    } else {
      OutstandingChange(cfg, st, run[0]);
      if run[0].Run? && st.attempts[run[0].pid].Releasing? {
        assert run[0].pid in Outstanding(st);
      }
      CountIsExact(cfg, Apply(cfg, st, run[0]), run[1..]);
    }
  }

  /** No validation of the run succeeds with a stored credential. */
  predicate NoReset(run: seq<Action>) {
    forall i :: 0 <= i < |run| && run[i].Run? ==> run[i].outcome != SuccessResets
  }

  /** The burst invariant: the count is bounded by the threshold plus the locks that ran out. */
  ghost predicate Burst(cfg: Config, st: State) {
    && (forall pid :: pid in st.attempts ==> !st.attempts[pid].Resetting?)
    && st.row.count == st.tally.kept + |Outstanding(st)|
    && (st.row.lockedUntil.Some? ==> cfg.maxAttempts <= st.row.count <= cfg.maxAttempts + st.tally.expiredWins)
    && (st.row.lockedUntil.None? ==> st.row.count < cfg.maxAttempts + st.tally.expiredWins)
  }

  lemma BurstStep(cfg: Config, st: State, a: Action)
    requires Burst(cfg, st) && Enabled(st, a) && NoReset([a])
    ensures Burst(cfg, Apply(cfg, st, a))
  {
    OutstandingChange(cfg, st, a);
    assert [a][0] == a;
    if a.Run? && st.attempts[a.pid].Releasing? {
      assert a.pid in Outstanding(st);
    }
  }

  lemma {:induction false} BurstRun(cfg: Config, st: State, run: seq<Action>)
    requires Burst(cfg, st) && ValidRun(cfg, st, run) && NoReset(run)
    ensures Burst(cfg, After(cfg, st, run))
    decreases |run|
  {
    if run == [] {
    } else {
      BurstStep(cfg, st, run[0]);
      BurstRun(cfg, Apply(cfg, st, run[0]), run[1..]);
    }
  }

  /**
   * In every interleaving without a success, kept failures plus outstanding
   * validations never exceed the threshold by more than the number of
   * reservations won against a lock that had run out.
   */
  lemma BoundedByExpiredLocks(cfg: Config, init: State, t0: Time, run: seq<Action>)
    requires cfg.maxAttempts >= 1 && Init(init, t0) && ValidRun(cfg, init, run) && NoReset(run)
    ensures var st := After(cfg, init, run);
      st.tally.kept + |Outstanding(st)| <= cfg.maxAttempts + st.tally.expiredWins
  {
    assert Outstanding(init) == {};
    BurstRun(cfg, init, run);
  }

  /** Every attempt of the run starts in `[t0, t0 + lockMs)`: before any lock set in it can run out. */
  predicate WithinOneLock(cfg: Config, t0: Time, run: seq<Action>) {
    forall i :: 0 <= i < |run| && run[i].Start? ==> t0 <= run[i].now < t0 + cfg.lockMs
  }

  ghost predicate NoExpiry(cfg: Config, st: State, t0: Time) {
    && st.tally.expiredWins == 0
    && (forall pid :: pid in st.attempts && st.attempts[pid].Reserving? ==>
          t0 <= st.attempts[pid].now < t0 + cfg.lockMs)
    && (st.row.lockedUntil.Some? ==> st.row.lockedUntil.value >= t0 + cfg.lockMs)
  }

  lemma {:induction false} NoLockExpires(cfg: Config, st: State, t0: Time, run: seq<Action>)
    requires NoExpiry(cfg, st, t0) && ValidRun(cfg, st, run) && WithinOneLock(cfg, t0, run)
    ensures After(cfg, st, run).tally.expiredWins == 0
    decreases |run|
  {
    if run == [] {
    } else {
      var st' := Apply(cfg, st, run[0]);
      assert NoExpiry(cfg, st', t0);
      forall i | 0 <= i < |run[1..]| && run[1..][i].Start? ensures t0 <= run[1..][i].now < t0 + cfg.lockMs {
        assert run[1..][i] == run[i + 1];
      }
      NoLockExpires(cfg, st', t0, run[1..]);
    }
  }

  /** A parallel burst has at most `maxAttempts` validations that failed or are still pending. */
  lemma BurstBound(cfg: Config, init: State, t0: Time, run: seq<Action>)
    requires cfg.maxAttempts >= 1 && Init(init, t0) && ValidRun(cfg, init, run) && NoReset(run) &&
      WithinOneLock(cfg, t0, run)
    ensures var st := After(cfg, init, run); st.tally.kept + |Outstanding(st)| <= cfg.maxAttempts
  {
    BoundedByExpiredLocks(cfg, init, t0, run);
    NoLockExpires(cfg, init, t0, run);
  }

  lemma {:induction false} NoResetSettles(cfg: Config, st: State, run: seq<Action>)
    requires ValidRun(cfg, st, run) && NoReset(run) && st.tally.resets == 0
    requires forall pid :: pid in st.attempts ==> !st.attempts[pid].Resetting?
    ensures After(cfg, st, run).tally.resets == 0
    decreases |run|
  {
    if run == [] {
    } else {
      NoResetSettles(cfg, Apply(cfg, st, run[0]), run[1..]);
    }
  }

  /**
   * The number of GitHub calls, which the source says a burst keeps within
   * `maxAttempts`: released attempts come on top, and nothing else does.
   */
  lemma CallsBound(cfg: Config, init: State, t0: Time, run: seq<Action>)
    requires cfg.maxAttempts >= 1 && Init(init, t0) && ValidRun(cfg, init, run) && NoReset(run)
    ensures var t := After(cfg, init, run).tally; t.won <= cfg.maxAttempts + t.expiredWins + t.released
  {
    ReservationsAccounted(cfg, init, t0, run);
    BoundedByExpiredLocks(cfg, init, t0, run);
    NoResetSettles(cfg, init, run);
  }

  /** After `n` calls, each released before the next: count 0 and unlocked again. */
  ghost predicate Released(st: State, t0: Time, n: nat) {
    && st.row == FRESH && st.tally == Tally(n, 0, n, 0, 0, 0, t0)
    && forall pid :: pid in st.attempts ==> pid < n && st.attempts[pid] == Settled
  }

  function Round(pid: Pid, t0: Time): seq<Action> {
    [Start(pid, t0), Run(pid, UncountedError), Run(pid, UncountedError), Run(pid, UncountedError)]
  }

  lemma RoundReleases(cfg: Config, st: State, t0: Time, n: nat)
    requires Released(st, t0, n)
    ensures ValidRun(cfg, st, Round(n, t0)) && Released(After(cfg, st, Round(n, t0)), t0, n + 1)
  {
    var run := Round(n, t0);
    var s1 := st.Goto(n, Reserving(t0));
    var s2 := Win(cfg, s1, n, t0);
    var s3 := s2.Goto(n, Releasing);
    var s4 := s3.(row := Release(s3.row), tally := s3.tally.(released := s3.tally.released + 1)).Goto(n, Settled);
    assert Apply(cfg, st, run[0]) == s1 && Apply(cfg, s1, run[1]) == s2;
    assert Apply(cfg, s2, run[2]) == s3 && Apply(cfg, s3, run[3]) == s4;
    assert run[1..][1..] == run[2..] && run[2..][1..] == run[3..] && run[3..][1..] == [];
    assert ValidRun(cfg, s4, []) && ValidRun(cfg, s3, run[3..]) && ValidRun(cfg, s2, run[2..]) &&
      ValidRun(cfg, s1, run[1..]);
    assert After(cfg, st, run) == After(cfg, s1, run[1..]) == After(cfg, s2, run[2..]) == After(cfg, s3, run[3..])
      == s4;
  }

  lemma {:induction false} RunsConcat(cfg: Config, st: State, a: seq<Action>, b: seq<Action>)
    requires ValidRun(cfg, st, a) && ValidRun(cfg, After(cfg, st, a), b)
    ensures ValidRun(cfg, st, a + b) && After(cfg, st, a + b) == After(cfg, After(cfg, st, a), b)
    decreases |a|
  {
    if a == [] {
      assert a + b == b;
    } else {
      RunsConcat(cfg, Apply(cfg, st, a[0]), a[1..], b);
      assert (a + b)[0] == a[0] && (a + b)[1..] == a[1..] + b;
    }
  }

  /** So the documented bound fails: for every n, n calls within one instant, each given back before the next. */
  lemma {:induction false} ReleasedCallsAreUnbounded(cfg: Config, init: State, t0: Time, n: nat)
    returns (run: seq<Action>)
    requires cfg.lockMs > 0 && Init(init, t0)
    ensures ValidRun(cfg, init, run) && NoReset(run) && WithinOneLock(cfg, t0, run)
    ensures Released(After(cfg, init, run), t0, n) && After(cfg, init, run).tally.won == n
  {
    if n == 0 {
      run := [];
    } else {
      var before := ReleasedCallsAreUnbounded(cfg, init, t0, n - 1);
      RoundReleases(cfg, After(cfg, init, before), t0, n - 1);
      RunsConcat(cfg, init, before, Round(n - 1, t0));
      run := before + Round(n - 1, t0);
    }
  }

  /** After `r` released calls, `m` more attempts have reserved and are still outstanding. */
  ghost predicate Filled(cfg: Config, st: State, t0: Time, r: nat, m: nat) {
    && st.row == Counter(m, if m >= 1 && m >= cfg.maxAttempts then Some(t0 + cfg.lockMs) else None)
    && st.tally == Tally(r + m, 0, r, 0, 0, 0, t0)
    && forall pid :: pid in st.attempts ==> pid < r + m
  }

  lemma OneMoreFills(cfg: Config, st: State, t0: Time, r: nat, m: nat)
    requires Filled(cfg, st, t0, r, m) && m < cfg.maxAttempts
    ensures var run := [Start(r + m, t0), Run(r + m, CountedFailure)];
      ValidRun(cfg, st, run) && Filled(cfg, After(cfg, st, run), t0, r, m + 1)
  {
    var run := [Start(r + m, t0), Run(r + m, CountedFailure)];
    var s1 := st.Goto(r + m, Reserving(t0));
    var s2 := Win(cfg, s1, r + m, t0);
    assert Apply(cfg, st, run[0]) == s1 && Apply(cfg, s1, run[1]) == s2 && run[1..][1..] == [];
    assert ValidRun(cfg, s2, []) && ValidRun(cfg, s1, run[1..]);
    assert After(cfg, st, run) == After(cfg, s1, run[1..]) == s2;
  }

  /** The bound on calls is met: `r` released attempts and `maxAttempts` more calls, within one lock period. */
  lemma {:induction false} CallsBoundIsTight(cfg: Config, init: State, t0: Time, r: nat, m: nat)
    returns (run: seq<Action>)
    requires cfg.maxAttempts >= 1 && cfg.lockMs > 0 && Init(init, t0) && m <= cfg.maxAttempts
    ensures ValidRun(cfg, init, run) && NoReset(run) && WithinOneLock(cfg, t0, run)
    ensures Filled(cfg, After(cfg, init, run), t0, r, m)
    ensures var t := After(cfg, init, run).tally; t.released == r && t.won == m + r && t.expiredWins == 0
  {
    if m == 0 {
      run := ReleasedCallsAreUnbounded(cfg, init, t0, r);
    } else {
      var before := CallsBoundIsTight(cfg, init, t0, r, m - 1);
      var more := [Start(r + m - 1, t0), Run(r + m - 1, CountedFailure)];
      OneMoreFills(cfg, After(cfg, init, before), t0, r, m - 1);
      RunsConcat(cfg, init, before, more);
      run := before + more;
    }
  }

  /** Runs with `r` released attempts, none successful, before a lock can run out, make at most `maxAttempts` calls. */
  ghost predicate DocumentedBound(cfg: Config, r: nat) {
    forall init, t0, run ::
      && Init(init, t0) && ValidRun(cfg, init, run) && NoReset(run) && WithinOneLock(cfg, t0, run)
      && After(cfg, init, run).tally.released == r
      ==> After(cfg, init, run).tally.won <= cfg.maxAttempts
  }

  /** The source's bound on GitHub calls holds exactly when no attempt is released. */
  lemma DocumentedBoundIff(cfg: Config, r: nat)
    requires cfg.maxAttempts >= 1 && cfg.lockMs > 0
    ensures DocumentedBound(cfg, r) <==> r == 0
  {
    if r == 0 {
      forall init, t0, run |
        && Init(init, t0) && ValidRun(cfg, init, run) && NoReset(run) && WithinOneLock(cfg, t0, run)
        && After(cfg, init, run).tally.released == r
        ensures After(cfg, init, run).tally.won <= cfg.maxAttempts
      {
        CallsBound(cfg, init, t0, run);
        NoLockExpires(cfg, init, t0, run);
      }
    } else {
      var init := State(FRESH, map[], Tally(0, 0, 0, 0, 0, 0, 0));
      var run := CallsBoundIsTight(cfg, init, 0, r, cfg.maxAttempts);
      assert Init(init, 0) && After(cfg, init, run).tally.won > cfg.maxAttempts;
    }
  }

  /** Reservations are won in the order of the times they carry. */
  ghost predicate InOrder(cfg: Config, st: State, run: seq<Action>)
    requires ValidRun(cfg, st, run)
    decreases |run|
  {
    run != [] ==>
    && (run[0].Run? && st.attempts[run[0].pid].Reserving? && st.row.OpenAt(st.attempts[run[0].pid].now) ==>
          st.tally.lastNow <= st.attempts[run[0].pid].now)
    && InOrder(cfg, Apply(cfg, st, run[0]), run[1..])
  }

  /** Each expired lock took `lockMs` to run out, and the next one starts no earlier. */
  ghost predicate LocksTakeTime(cfg: Config, st: State, t0: Time) {
    var e, ms := st.tally.expiredWins, cfg.lockMs;
    && t0 + e * ms <= st.tally.lastNow
    && (st.row.lockedUntil.Some? ==> st.row.lockedUntil.value >= t0 + e * ms + ms)
  }

  lemma LockStep(cfg: Config, st: State, t0: Time, a: Action)
    requires LocksTakeTime(cfg, st, t0) && Enabled(st, a)
    requires a.Run? && st.attempts[a.pid].Reserving? && st.row.OpenAt(st.attempts[a.pid].now) ==>
      st.tally.lastNow <= st.attempts[a.pid].now
    ensures LocksTakeTime(cfg, Apply(cfg, st, a), t0)
  {
    assert (st.tally.expiredWins + 1) * cfg.lockMs == st.tally.expiredWins * cfg.lockMs + cfg.lockMs;
  }

  lemma {:induction false} ExpiriesTakeTime(cfg: Config, st: State, t0: Time, run: seq<Action>)
    requires LocksTakeTime(cfg, st, t0) && ValidRun(cfg, st, run) && InOrder(cfg, st, run)
    ensures LocksTakeTime(cfg, After(cfg, st, run), t0)
    decreases |run|
  {
    if run == [] {
    } else {
      LockStep(cfg, st, t0, run[0]);
      ExpiriesTakeTime(cfg, Apply(cfg, st, run[0]), t0, run[1..]);
    }
  }

  /**
   * A rate limit over any length of time: beyond the first `maxAttempts`,
   * every further failing or pending validation costs a full lock period.
   */
  lemma RateLimit(cfg: Config, init: State, t0: Time, run: seq<Action>)
    requires cfg.maxAttempts >= 1 && cfg.lockMs >= 0
    requires Init(init, t0) && ValidRun(cfg, init, run) && NoReset(run) && InOrder(cfg, init, run)
    ensures var st := After(cfg, init, run);
      (st.tally.kept + |Outstanding(st)| - cfg.maxAttempts) * cfg.lockMs <= st.tally.lastNow - t0
  {
    var st := After(cfg, init, run);
    BoundedByExpiredLocks(cfg, init, t0, run);
    ExpiriesTakeTime(cfg, init, t0, run);
    MulMonotone(st.tally.kept + |Outstanding(st)| - cfg.maxAttempts, st.tally.expiredWins, cfg.lockMs);
  }

  lemma MulMonotone(a: int, b: int, c: int)
    requires a <= b && c >= 0
    ensures a * c <= b * c
  {
  }

  /** The attempt's next statement, if it has one. */
  function Advance(cfg: Config, st: State, pid: Pid, outcome: Outcome): State {
    if Enabled(st, Run(pid, outcome)) then Apply(cfg, st, Run(pid, outcome)) else st
  }

  /** The counter before and after one attempt that nothing interrupts. */
  ghost predicate Attempted(cfg: Config, was: Counter, row: Counter, now: Time, outcome: Outcome) {
    if !was.OpenAt(now) then row == was
    else match outcome
      case CountedFailure =>
        && row.count == was.count + 1
        && row.lockedUntil == if was.count + 1 >= cfg.maxAttempts then Some(now + cfg.lockMs) else None
      case UncountedError => row == Counter(was.count, None)
      case SuccessOnly => row == Counter(was.count, None)
      case SuccessResets => row.count == 0 && row.lockedUntil.None?
  }

  /**
   * An uninterrupted attempt is refused exactly while the lock runs; otherwise
   * it counts a failure, gives its reservation back, or resets the counter.
   */
  lemma UninterruptedAttempt(cfg: Config, st: State, pid: Pid, now: Time, outcome: Outcome)
    requires Enabled(st, Start(pid, now))
    ensures var came := Apply(cfg, st, Start(pid, now));
      var end := Advance(cfg, Advance(cfg, Advance(cfg, came, pid, outcome), pid, outcome), pid, outcome);
      && Attempted(cfg, st.row, end.row, now, outcome)
      && pid in end.attempts && end.attempts[pid] == if st.row.OpenAt(now) then Settled else Refused
  {
    var came := Apply(cfg, st, Start(pid, now));
    var reserved := Advance(cfg, came, pid, outcome);
    if st.row.OpenAt(now) {
      assert reserved == Win(cfg, came, pid, now);
      assert Advance(cfg, reserved, pid, outcome) == AfterValidation(reserved, pid, outcome);
    } else {
      assert reserved == came.Goto(pid, Refused);
    }
  }

  /** The guard over its row, one attempt at a time. */
  class Guard {
    const cfg: Config
    var row: Counter

    constructor (cfg: Config)
      ensures this.cfg == cfg && row == FRESH
    {
      this.cfg := cfg;
      row := FRESH;
    }

    method ReserveAttempt(now: Time) returns (ok: bool)
      modifies this
      ensures ok <==> old(row).OpenAt(now)
      ensures row == Reserve(cfg, old(row), now)
    {
      ok := row.lockedUntil.None? || row.lockedUntil.value <= now;
      if ok {
        var locked := if row.count + 1 >= cfg.maxAttempts then Some(now + cfg.lockMs) else None;
        row := Counter(row.count + 1, locked);
      }
    }

    method ReleaseAttempt()
      modifies this
      ensures row == Release(old(row))
    {
      row := Counter(if row.count > 0 then row.count - 1 else 0, None);
    }

    method ResetCounter()
      modifies this
      ensures row == FRESH
    {
      row := FRESH;
    }

    /**
     * One validation under the cool-off. Alone, only a counted failure leaves
     * a mark: an uncounted end restores the count (and clears the lock).
     */
    method RunAttempt(now: Time, outcome: Outcome) returns (admitted: bool)
      modifies this
      ensures admitted <==> old(row).OpenAt(now)
      ensures Attempted(cfg, old(row), row, now, outcome)
    {
      admitted := ReserveAttempt(now);
      if !admitted { return; }
      match outcome
      case CountedFailure =>
      case UncountedError => ReleaseAttempt();
      case SuccessOnly => ReleaseAttempt();
      case SuccessResets => ResetCounter();
    }
  }
}
