/** Runs that mint as many sessions from one authorization request as it received approval writes. */
module DeviceOverrun {
  import opened Prelude
  import opened DeviceFlow
  import opened DeviceRuns

  const ANYTHING: Condition := (_, _) => true

  const RIGHT: Choice := Choice(true, None)
  const WRONG: Choice := Choice(false, None)

  /** The call runs one statement and the state becomes `u`. */
  lemma ReachesStep(cfg: Config, st: State, t: State, p: Pid, c: Choice, u: State)
    requires Reaches(cfg, st, t, ANYTHING) && Enabled(t, Step(p, c)) && RunStep(cfg, t, p, c) == u
    ensures Reaches(cfg, st, u, ANYTHING)
  {
    ReachesNext(cfg, st, t, Step(p, c), u, ANYTHING);
  }

  const OWNER: UserId := 7
  const DRAFT: Draft := Draft(Some(OWNER), false, 1)
  const NEW_ROW: Row := NewRow(DRAFT, 0)

  /** A state of the scenario: one request, row 0, of an approved owner, at time 0. */
  ghost predicate Scene(t: State, row: Row) {
    && t.now == 0 && t.users == map[OWNER := StandingApproved] && t.rows == map[0 := row]
    && row.userId == Some(OWNER) && row.expiresAt == 1 && row.lockedUntil == None
  }

  /** The call runs one statement of the scenario: it moves on, the row becomes `row2`. */
  lemma SceneStep(cfg: Config, st: State, t: State, p: Pid, c: Choice, row: Row, row2: Row, next: Call)
    returns (u: State)
    requires Reaches(cfg, st, t, ANYTHING) && Scene(t, row) && Scene(t.(rows := map[0 := row2]), row2)
    requires p in t.calls && !t.calls[p].Finished? && !t.calls[p].FindOldest?
    requires RunStep(cfg, t, p, c) == t.Put(0, row2).Goto(p, next)
    ensures Reaches(cfg, st, u, ANYTHING) && Scene(u, row2) && u.calls == t.calls[p := next]
  {
    u := t.Put(0, row2).Goto(p, next);
    ReachesStep(cfg, st, t, p, c, u);
    assert t.rows[0 := row2] == map[0 := row2];
  }

  lemma SceneBegin(cfg: Config, st: State, t: State, p: Pid, row: Row, call: Call) returns (u: State)
    requires Reaches(cfg, st, t, ANYTHING) && Scene(t, row) && p !in t.calls &&
      (call.PollLookup? || call.AuthorizeLookup? || call.DenyLookup?)
    ensures Reaches(cfg, st, u, ANYTHING) && Scene(u, row) && u.calls == t.calls[p := call]
  {
    u := t.Goto(p, call);
    ReachesNext(cfg, st, t, Begin(p, call), u, ANYTHING);
  }

  lemma SceneClaims(cfg: Config, st: State, t: State, p: Pid, row: Row) returns (u: State)
    requires Reaches(cfg, st, t, ANYTHING) && Scene(t, row) && p !in t.calls && row.status == Approved
    ensures Reaches(cfg, st, u, ANYTHING) && Scene(u, Won(row, 0))
    ensures u.calls == t.calls[p := ClaimUser(0, Some(OWNER), row.keepSignedIn)]
  {
    var won := Won(row, 0);
    u := SceneBegin(cfg, st, t, p, row, PollLookup(0, true));
    assert u.Put(0, row) == u;
    u := SceneStep(cfg, st, u, p, RIGHT, row, row, Claim(0, Some(OWNER), row.keepSignedIn));
    u := SceneStep(cfg, st, u, p, RIGHT, row, won, ClaimUser(0, Some(OWNER), row.keepSignedIn));
  }

  lemma SceneMints(cfg: Config, st: State, t: State, p: Pid, row: Row) returns (u: State)
    requires Reaches(cfg, st, t, ANYTHING) && Scene(t, row) && p in t.calls &&
      t.calls[p] == ClaimUser(0, Some(OWNER), row.keepSignedIn)
    ensures Reaches(cfg, st, u, ANYTHING) && Scene(u, row.(minted := row.minted + [Session(OWNER, row.keepSignedIn)]))
    ensures u.calls == t.calls[p := Finished]
  {
    assert t.Put(0, row) == t;
    u := SceneStep(cfg, st, t, p, RIGHT, row, row, Mint(0, OWNER, row.keepSignedIn));
    u := SceneStep(cfg, st, u, p, RIGHT, row, row.(minted := row.minted + [Session(OWNER, row.keepSignedIn)]),
      Finished);
  }

  /** An authorize call that has checked the password and has yet to write. */
  lemma SceneWaits(cfg: Config, st: State, t: State, p: Pid, row: Row) returns (u: State)
    requires Reaches(cfg, st, t, ANYTHING) && Scene(t, row) && p !in t.calls && row.status == Open
    ensures Reaches(cfg, st, u, ANYTHING) && Scene(u, row) && u.calls == t.calls[p := ApproveWrite(0, OWNER)]
  {
    u := SceneBegin(cfg, st, t, p, row, AuthorizeLookup(0, OWNER));
    assert u.Put(0, row) == u;
    u := SceneStep(cfg, st, u, p, RIGHT, row, row, AuthorizePassword(0, OWNER, false, row.failedAttempts));
    assert u.Put(0, row) == u;
    u := SceneStep(cfg, st, u, p, RIGHT, row, row, ApproveWrite(0, OWNER));
  }

  ghost predicate Waiting(t: State, lo: nat, hi: nat) {
    && (forall p: Pid :: lo <= p < hi ==> p in t.calls && t.calls[p] == ApproveWrite(0, OWNER))
  }

  ghost predicate UnusedFrom(t: State, q: Pid) {
    forall p :: p in t.calls ==> p < q
  }

  /** Any number of authorize calls can have read the open request before the first one writes. */
  lemma {:induction false} SceneGathers(cfg: Config, st: State, t: State, n: nat) returns (u: State)
    requires Reaches(cfg, st, t, ANYTHING) && Scene(t, NEW_ROW) && UnusedFrom(t, 1)
    ensures Reaches(cfg, st, u, ANYTHING) && Scene(u, NEW_ROW) && Waiting(u, 1, n + 1) && UnusedFrom(u, n + 1)
  {
    if n == 0 {
      u := t;
    } else {
      var v := SceneGathers(cfg, st, t, n - 1);
      u := SceneWaits(cfg, st, v, n, NEW_ROW);
    }
  }

  ghost predicate Spent(row: Row, k: nat) {
    row.approvals == k && row.claims == k && |row.minted| == k
  }

  /** One waiting call writes its approval, over whatever came before, and a new poll claims it. */
  lemma SceneRound(cfg: Config, st: State, t: State, p: Pid, q: Pid, row: Row) returns (u: State, next: Row)
    requires Reaches(cfg, st, t, ANYTHING) && Scene(t, row) && p in t.calls && t.calls[p] == ApproveWrite(0, OWNER) &&
      q !in t.calls
    ensures Reaches(cfg, st, u, ANYTHING) && Scene(u, next) && u.calls == t.calls[p := Finished][q := Finished]
    ensures next.approvals == row.approvals + 1 && next.claims == row.claims + 1 && |next.minted| == |row.minted| + 1
  {
    var approved := ApprovedBy(row, OWNER);
    u := SceneStep(cfg, st, t, p, RIGHT, row, approved, Finished);
    u := SceneClaims(cfg, st, u, q, approved);
    next := Won(approved, 0);
    u := SceneMints(cfg, st, u, q, next);
    next := next.(minted := row.minted + [Session(OWNER, row.keepSignedIn)]);
  }

  /** Each waiting call in turn. */
  lemma {:induction false} SceneSpends(cfg: Config, st: State, t: State, n: nat, k: nat) returns (u: State, row: Row)
    requires Reaches(cfg, st, t, ANYTHING) && Scene(t, NEW_ROW) && Waiting(t, 1, n + 1) && UnusedFrom(t, n + 1) &&
      k <= n
    ensures Reaches(cfg, st, u, ANYTHING) && Scene(u, row) && Spent(row, k) && Waiting(u, k + 1, n + 1) &&
      UnusedFrom(u, n + k + 1)
  {
    if k == 0 {
      u, row := t, NEW_ROW;
    } else {
      u, row := SceneSpends(cfg, st, t, n, k - 1);
      u, row := SceneRound(cfg, st, u, k, n + k, row);
    }
  }

  const NOBODY: State := State(0, map[OWNER := StandingApproved], map[], 0, map[])

  lemma SceneCounts(cfg: Config) returns (t: State)
    ensures Reaches(cfg, NOBODY, t, ANYTHING) && t == NOBODY.Goto(0, InsertRequest(DRAFT))
  {
    var draft := DRAFT;
    var first := NOBODY.Goto(0, CountOpen(draft));
    ReachesSelf(cfg, NOBODY, ANYTHING);
    ReachesNext(cfg, NOBODY, NOBODY, Create(0, draft), first, ANYTHING);
    assert OpenOf(first.rows, OWNER) == {};
    t := NOBODY.Goto(0, InsertRequest(draft));
    if 0 >= cfg.maxOpenPerUser {
      var second := NOBODY.Goto(0, FindOldest(draft));
      assert first.Goto(0, FindOldest(draft)) == second && second.Goto(0, InsertRequest(draft)) == t;
      ReachesStep(cfg, NOBODY, first, 0, RIGHT, second);
      ReachesStep(cfg, NOBODY, second, 0, RIGHT, t);
    } else {
      assert first.Goto(0, InsertRequest(draft)) == t;
      ReachesStep(cfg, NOBODY, first, 0, RIGHT, t);
    }
  }

  lemma SceneOpens(cfg: Config) returns (t: State)
    ensures Reaches(cfg, NOBODY, t, ANYTHING) && Scene(t, NEW_ROW) && UnusedFrom(t, 1)
  {
    var u := SceneCounts(cfg);
    t := u.(rows := map[0 := NEW_ROW], nextId := 1).Goto(0, Finished);
    assert u.rows[0 := NEW_ROW] == map[0 := NEW_ROW];
    ReachesStep(cfg, NOBODY, u, 0, RIGHT, t);
  }

  /**
   * The bound by approval writes is the best there is: for every n, n
   * authorize calls that read the request before any of them wrote let one
   * request mint n sessions.
   */
  lemma StaleApprovalsMintAgain(cfg: Config, n: nat)
    ensures exists run, id ::
      && ValidRun(cfg, NOBODY, run) && id in After(cfg, NOBODY, run).rows
      && |After(cfg, NOBODY, run).rows[id].minted| == After(cfg, NOBODY, run).rows[id].approvals == n
  {
    var t := SceneOpens(cfg);
    var u := SceneGathers(cfg, NOBODY, t, n);
    var v, row := SceneSpends(cfg, NOBODY, u, n, n);
    var run :| ValidRun(cfg, NOBODY, run) && After(cfg, NOBODY, run) == v;
    assert 0 in After(cfg, NOBODY, run).rows && v.rows[0] == row;
  }

  /** A deny call that read the open request and has yet to write. */
  lemma SceneDenies(cfg: Config, st: State, t: State, p: Pid, row: Row) returns (u: State)
    requires Reaches(cfg, st, t, ANYTHING) && Scene(t, row) && p !in t.calls && row.status == Open
    ensures Reaches(cfg, st, u, ANYTHING) && Scene(u, row) && u.calls == t.calls[p := DenyWrite(0)]
  {
    u := SceneBegin(cfg, st, t, p, row, DenyLookup(0, OWNER));
    assert u.Put(0, row) == u;
    u := SceneStep(cfg, st, u, p, RIGHT, row, row, DenyWrite(0));
  }

  /** A deny that read the request before it was approved and claimed leaves a denied request with a session. */
  lemma StaleDenialAfterMint(cfg: Config)
    ensures exists run ::
      && ValidRun(cfg, NOBODY, run) && 0 in After(cfg, NOBODY, run).rows
      && After(cfg, NOBODY, run).rows[0].status == Denied && |After(cfg, NOBODY, run).rows[0].minted| == 1
  {
    var t := SceneOpens(cfg);
    t := SceneDenies(cfg, NOBODY, t, 1, NEW_ROW);
    t := SceneWaits(cfg, NOBODY, t, 2, NEW_ROW);
    var row;
    t, row := SceneRound(cfg, NOBODY, t, 2, 3, NEW_ROW);
    t := SceneStep(cfg, NOBODY, t, 1, RIGHT, row, row.(status := Denied), Finished);
    var run :| ValidRun(cfg, NOBODY, run) && After(cfg, NOBODY, run) == t;
    assert 0 in After(cfg, NOBODY, run).rows && t.rows[0] == row.(status := Denied);
  }
}
