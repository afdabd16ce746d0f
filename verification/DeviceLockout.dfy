/**
 * The authorize lockout: a wrong password is counted from the number of
 * attempts its call had read, so parallel wrong passwords can share a count.
 */
module DeviceLockout {
  import opened Prelude
  import opened DeviceFlow
  import opened DeviceRuns
  import opened DeviceOverrun

  /** A failure is registered over a count other than the one its call read. */
  predicate StaleGuess(st: State, a: Action, id: RowId) {
    && a.Step? && a.p in st.calls && st.calls[a.p].RegisterFailure? && st.calls[a.p].id == id
    && id in st.rows && st.rows[id].failedAttempts != st.calls[a.p].attempts
  }

  predicate NoStaleGuess(cfg: Config, st: State, run: seq<Action>, id: RowId)
    requires ValidRun(cfg, st, run)
    decreases |run|
  {
    run == [] || (!StaleGuess(st, run[0], id) && NoStaleGuess(cfg, Apply(cfg, st, run[0]), run[1..], id))
  }

  /** The stored count is the number of wrong passwords since the last approval. */
  predicate Counted(st: State, id: RowId) {
    id in st.rows ==> st.rows[id].failedAttempts == st.rows[id].guesses
  }

  predicate CountedThroughout(cfg: Config, st: State, run: seq<Action>, id: RowId)
    requires ValidRun(cfg, st, run)
    decreases |run|
  {
    Counted(st, id) && (run != [] ==> CountedThroughout(cfg, Apply(cfg, st, run[0]), run[1..], id))
  }

  /** Locked exactly when the last registered failure reached the threshold. */
  predicate LockFits(cfg: Config, st: State, id: RowId) {
    id in st.rows ==>
      (st.rows[id].lockedUntil.Some? <==>
        st.rows[id].failedAttempts > 0 && st.rows[id].failedAttempts >= cfg.maxAttempts)
  }

  lemma StepCounts(cfg: Config, st: State, a: Action, id: RowId)
    requires Enabled(st, a) && Counted(st, id) && LockFits(cfg, st, id) && (id in st.rows ==> id < st.nextId)
    ensures Counted(Apply(cfg, st, a), id) <==> !StaleGuess(st, a, id)
    ensures LockFits(cfg, Apply(cfg, st, a), id) && (id in Apply(cfg, st, a).rows ==> id < Apply(cfg, st, a).nextId)
  {
  }

  /**
   * Every wrong password is counted, and the request is locked from the
   * threshold on, if and only if no failure was registered over a count that
   * differs from the one its call read.
   */
  lemma {:induction false} CountedIff(cfg: Config, st: State, run: seq<Action>, id: RowId)
    requires ValidRun(cfg, st, run) && Counted(st, id) && LockFits(cfg, st, id) && (id in st.rows ==> id < st.nextId)
    ensures CountedThroughout(cfg, st, run, id) <==> NoStaleGuess(cfg, st, run, id)
    ensures CountedThroughout(cfg, st, run, id) && id in After(cfg, st, run).rows ==>
      var row := After(cfg, st, run).rows[id];
      row.lockedUntil.Some? <==> row.guesses > 0 && row.guesses >= cfg.maxAttempts
    decreases |run|
  {
    if run == [] {
    } else {
      var next := Apply(cfg, st, run[0]);
      StepCounts(cfg, st, run[0], id);
      if Counted(next, id) {
        CountedIff(cfg, next, run[1..], id);
      }
    }
  }

  // ---- Parallel wrong passwords share one count ----

  /** An authorize call that has failed the password check and has yet to register it. */
  lemma SceneGuess(cfg: Config, st: State, t: State, p: Pid) returns (u: State)
    requires Reaches(cfg, st, t, ANYTHING) && Scene(t, NEW_ROW) && p !in t.calls
    ensures Reaches(cfg, st, u, ANYTHING) && Scene(u, NEW_ROW) && u.calls == t.calls[p := RegisterFailure(0, 0)]
  {
    u := SceneBegin(cfg, st, t, p, NEW_ROW, AuthorizeLookup(0, OWNER));
    assert u.Put(0, NEW_ROW) == u;
    u := SceneStep(cfg, st, u, p, WRONG, NEW_ROW, NEW_ROW, AuthorizePassword(0, OWNER, false, 0));
    assert u.Put(0, NEW_ROW) == u;
    u := SceneStep(cfg, st, u, p, WRONG, NEW_ROW, NEW_ROW, RegisterFailure(0, 0));
  }

  ghost predicate Guessing(t: State, lo: nat, hi: nat) {
    forall p: Pid :: lo <= p < hi ==> p in t.calls && t.calls[p] == RegisterFailure(0, 0)
  }

  lemma {:induction false} GuessesGather(cfg: Config, st: State, t: State, n: nat) returns (u: State)
    requires Reaches(cfg, st, t, ANYTHING) && Scene(t, NEW_ROW) && UnusedFrom(t, 1)
    ensures Reaches(cfg, st, u, ANYTHING) && Scene(u, NEW_ROW) && Guessing(u, 1, n + 1) && UnusedFrom(u, n + 1)
  {
    if n == 0 {
      u := t;
    } else {
      u := GuessesGather(cfg, st, t, n - 1);
      u := SceneGuess(cfg, st, u, n);
    }
  }

  lemma {:induction false} GuessesLand(cfg: Config, st: State, t: State, n: nat, k: nat) returns (u: State, row: Row)
    requires Reaches(cfg, st, t, ANYTHING) && Scene(t, NEW_ROW) && Guessing(t, 1, n + 1) && k <= n &&
      cfg.maxAttempts >= 2
    ensures Reaches(cfg, st, u, ANYTHING) && Scene(u, row) && Guessing(u, k + 1, n + 1)
    ensures row.guesses == k && row.failedAttempts == (if k == 0 then 0 else 1) && row.status == Open
  {
    if k == 0 {
      u, row := t, NEW_ROW;
    } else {
      u, row := GuessesLand(cfg, st, t, n, k - 1);
      u := SceneStep(cfg, st, u, k, WRONG, row, Guessed(cfg, row, 0, 0), Finished);
      row := Guessed(cfg, row, 0, 0);
    }
  }

  /** For every n, n wrong passwords that all read the request before the first was registered count as one. */
  lemma ParallelGuessesCountOnce(cfg: Config, n: nat)
    requires cfg.maxAttempts >= 2 && n >= 1
    ensures exists run ::
      && ValidRun(cfg, NOBODY, run) && 0 in After(cfg, NOBODY, run).rows
      && var row := After(cfg, NOBODY, run).rows[0];
         row.guesses == n && row.failedAttempts == 1 && row.lockedUntil == None && row.status == Open
  {
    var t := SceneOpens(cfg);
    t := GuessesGather(cfg, NOBODY, t, n);
    var u, row := GuessesLand(cfg, NOBODY, t, n, n);
    var run :| ValidRun(cfg, NOBODY, run) && After(cfg, NOBODY, run) == u;
    assert 0 in After(cfg, NOBODY, run).rows && u.rows[0] == row;
  }
}
