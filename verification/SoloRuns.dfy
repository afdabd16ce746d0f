/**
 * The two views of the Auth module agree: a request of the interleaved
 * protocol that nobody interrupts leaves the tables exactly as the atomic
 * operation of `AuthService` does.
 */
module SoloRuns {
  import opened Prelude
  import opened RefreshTokens
  import opened SessionProtocol
  import opened AuthService

  function DbOf(st: State): Db {
    Db(st.users, st.tokens, st.nextRow, st.defaultUser)
  }

  function DrawsOf(c: Choice): Fresh {
    Fresh(c.uuid, c.hash, c.ttl)
  }

  function Repeat(pid: Pid, c: Choice, n: nat): seq<Action> {
    if n == 0 then [] else [Run(pid, c)] + Repeat(pid, c, n - 1)
  }

  /** The request, stepping alone and drawing from the one choice, finishes in `end`. */
  ghost predicate Alone(st: State, pid: Pid, c: Choice, end: State) {
    && pid in end.procs && end.procs[pid] == Finished
    && exists n: nat :: ValidRun(st, Repeat(pid, c, n)) && After(st, Repeat(pid, c, n)) == end
  }

  lemma AloneDone(st: State, pid: Pid, c: Choice)
    requires pid in st.procs && st.procs[pid] == Finished
    ensures Alone(st, pid, c, st)
  {
    assert ValidRun(st, Repeat(pid, c, 0)) && After(st, Repeat(pid, c, 0)) == st;
  }

  lemma AloneNext(st: State, pid: Pid, c: Choice, next: State, end: State)
    requires Enabled(st, Run(pid, c)) && RunStep(st, pid, c) == next && Alone(next, pid, c, end)
    ensures Alone(st, pid, c, end)
  {
    var n: nat :| ValidRun(next, Repeat(pid, c, n)) && After(next, Repeat(pid, c, n)) == end;
    var run := Repeat(pid, c, n + 1);
    assert run[0] == Run(pid, c) && run[1..] == Repeat(pid, c, n);
    assert ValidRun(st, run) && After(st, run) == end;
  }

  /** A request that steps alone has one end. */
  lemma AloneEndsOnce(st: State, pid: Pid, c: Choice, a: State, b: State)
    requires Alone(st, pid, c, a) && Alone(st, pid, c, b)
    ensures a == b
  {
    var m: nat :| ValidRun(st, Repeat(pid, c, m)) && After(st, Repeat(pid, c, m)) == a;
    var n: nat :| ValidRun(st, Repeat(pid, c, n)) && After(st, Repeat(pid, c, n)) == b;
    SameLength(st, pid, c, m, n);
  }

  lemma {:induction false} SameLength(st: State, pid: Pid, c: Choice, m: nat, n: nat)
    requires ValidRun(st, Repeat(pid, c, m)) && ValidRun(st, Repeat(pid, c, n))
    requires pid in After(st, Repeat(pid, c, m)).procs && After(st, Repeat(pid, c, m)).procs[pid] == Finished
    requires pid in After(st, Repeat(pid, c, n)).procs && After(st, Repeat(pid, c, n)).procs[pid] == Finished
    ensures m == n
    decreases m
  {
    if m == 0 || n == 0 {
    } else {
      assert Repeat(pid, c, m)[1..] == Repeat(pid, c, m - 1) && Repeat(pid, c, n)[1..] == Repeat(pid, c, n - 1);
      SameLength(Apply(st, Run(pid, c)), pid, c, m - 1, n - 1);
    }
  }

  // ---- The statements ----

  /** What a mint's two statements make of the database. */
  function Minted(db: Db, m: Mint, now: Time): Db {
    var startedAt := if m.startedAt.Some? then m.startedAt.value else now;
    var row := Row(Token(m.tokenHash, m.userId, now, m.expiresAt, m.keepSignedIn, m.session, startedAt), Unrevoked);
    db.(tokens := PruneExpired(db.tokens, m.userId, now)[db.nextRow := row], nextRow := db.nextRow + 1)
  }

  lemma MintIsLogin(db: Db, now: Time, c: Choice, u: UserId, keep: bool)
    ensures Minted(db, Mint(u, keep, c.uuid, None, c.hash, now + c.ttl), now)
      == Issue(db, now, u, keep, None, DrawsOf(c), true).0
  {
  }

  lemma MintIsRotation(db: Db, now: Time, c: Choice, token: Token)
    ensures Minted(db, RotationMint(token, c.hash, now + c.ttl), now)
      == Issue(db, now, token.userId, token.keepSignedIn, Some(token), DrawsOf(c), true).0
  {
  }

  /** Prune and insert: the two statements of `issueTokens`. */
  lemma AloneMint(st: State, pid: Pid, c: Choice, m: Mint) returns (end: State)
    requires pid in st.procs && c.uuid !in st.sessions && c.ttl > 0 && m.session != c.uuid
    requires st.procs[pid] == Prune(m)
    ensures Alone(st, pid, c, end) && DbOf(end) == Minted(DbOf(st), m, st.now)
  {
    var pruned := st.(tokens := PruneExpired(st.tokens, m.userId, st.now)).Goto(pid, Insert(m));
    end := pruned.InsertRow(pid, m);
    AloneDone(end, pid, c);
    MintSteps(pruned, pid, c);
    AloneNext(pruned, pid, c, end, end);
    MintSteps(st, pid, c);
    AloneNext(st, pid, c, pruned, end);
  }

  /** Logout, revoke and every other single UPDATE. */
  lemma AloneUpdate(st: State, pid: Pid, c: Choice, w: Where, reason: Reason) returns (end: State)
    requires pid in st.procs && c.uuid !in st.sessions && c.ttl > 0
    requires st.procs[pid] == Revoking(w, reason, None)
      || (st.procs[pid].Replaying? && w == OfUser(st.procs[pid].userId) && reason == ReplayDetected)
    ensures Alone(st, pid, c, end) && DbOf(end) == RevokeIn(DbOf(st), w, st.now, reason)
  {
    end := st.Revoke(w, reason).Goto(pid, Finished);
    AloneDone(end, pid, c);
    RevokeSteps(st, pid, c);
    AloneNext(st, pid, c, end, end);
  }

  /** A statement that only reads. */
  lemma AloneRead(st: State, pid: Pid, c: Choice, r: Request, end: State)
    requires Enabled(st, Run(pid, c)) && OnlyReads(st.procs[pid]) && r == AfterRead(st, st.procs[pid], c.found)
    requires Alone(st.Goto(pid, r), pid, c, end)
    ensures Alone(st, pid, c, end)
  {
    AloneNext(st, pid, c, st.Goto(pid, r), end);
  }

  // ---- Refresh ----

  lemma RotationWon(st: State, pid: Pid, c: Choice, id: RowId)
    requires id in st.tokens && st.tokens[id].Live() && Enabled(st, Run(pid, c))
    requires st.procs[pid] == Rotate(id, st.tokens[id])
    ensures var won := RunStep(st, pid, c);
      && won.procs[pid] == Prune(RotationMint(st.tokens[id].token, c.hash, st.now + c.ttl))
      && won.sessions == st.sessions && won.now == st.now
      && DbOf(won) == RevokeIn(DbOf(st), ById(id), st.now, Rotated)
  {
    RotateSteps(st, pid, c);
  }

  lemma AloneRotation(st: State, pid: Pid, c: Choice, id: RowId) returns (end: State)
    requires id in st.tokens && st.tokens[id].Live()
    requires pid in st.procs && st.procs[pid] == Rotate(id, st.tokens[id])
    requires c.uuid !in st.sessions && c.ttl > 0 && st.tokens[id].token.sessionUuid in st.sessions
    ensures Alone(st, pid, c, end)
    ensures DbOf(end) == Issue(RevokeIn(DbOf(st), ById(id), st.now, Rotated), st.now,
      st.tokens[id].token.userId, st.tokens[id].token.keepSignedIn, Some(st.tokens[id].token), DrawsOf(c), true).0
  {
    var won := RunStep(st, pid, c);
    RotationWon(st, pid, c, id);
    end := AloneRotated(won, pid, c, st.tokens[id].token);
    AloneNext(st, pid, c, won, end);
  }

  lemma AloneRotated(st: State, pid: Pid, c: Choice, token: Token) returns (end: State)
    requires pid in st.procs && st.procs[pid] == Prune(RotationMint(token, c.hash, st.now + c.ttl))
    requires c.uuid !in st.sessions && c.ttl > 0 && token.sessionUuid in st.sessions
    ensures Alone(st, pid, c, end)
    ensures DbOf(end) == Issue(DbOf(st), st.now, token.userId, token.keepSignedIn, Some(token), DrawsOf(c), true).0
  {
    end := AloneMint(st, pid, c, RotationMint(token, c.hash, st.now + c.ttl));
    MintIsRotation(DbOf(st), st.now, c, token);
  }

  /** What a refresh whose lookup decided `r` leaves. */
  ghost predicate Leads(st: State, c: Choice, r: Request, end: Db) {
    match r
    case Replaying(u, _, _) => end == RevokeIn(DbOf(st), OfUser(u), st.now, ReplayDetected)
    case RefreshUser(id, row) =>
      && id in st.tokens && row == st.tokens[id] && row.Live() && row.token.expiresAt >= st.now
      && end == RefreshRow(DbOf(st), st.now, id, DrawsOf(c), true).0
    case Revoking(w, reason, next) => next == None && end == RevokeIn(DbOf(st), w, st.now, reason)
    case Rotate(id, row) =>
      && id in st.tokens && row == st.tokens[id] && row.Live()
      && end == Issue(RevokeIn(DbOf(st), ById(id), st.now, Rotated), st.now, row.token.userId, row.token.keepSignedIn,
                      Some(row.token), DrawsOf(c), true).0
    case _ => r == Finished && end == DbOf(st)
  }

  lemma LeadsStill(st: State, pid: Pid, c: Choice, r: Request, end: Db)
    requires Leads(st, c, r, end)
    ensures Leads(st.Goto(pid, r), c, r, end)
  {
  }

  /** The lookup decides as the atomic refresh does. */
  lemma RefreshDecides(st: State, hash: Hash, c: Choice)
    requires c.found == RowWithHash(st.tokens, hash)
    ensures Leads(st, c, AfterRefreshLookup(st, c.found), Refresh(DbOf(st), st.now, hash, DrawsOf(c), true).0)
  {
  }

  /** So does the read of the user. */
  lemma UserDecides(st: State, c: Choice, id: RowId)
    requires id in st.tokens && st.tokens[id].Live() && st.tokens[id].token.expiresAt >= st.now
    ensures Leads(st, c, AfterRefreshUser(st, id, st.tokens[id]), RefreshRow(DbOf(st), st.now, id, DrawsOf(c), true).0)
  {
  }

  lemma AloneLeads(st: State, pid: Pid, c: Choice, r: Request, db: Db) returns (end: State)
    requires pid in st.procs && st.procs[pid] == r && Leads(st, c, r, db) && !r.RefreshUser?
    requires c.uuid !in st.sessions && c.ttl > 0
    requires forall id :: id in st.tokens ==> st.tokens[id].token.sessionUuid in st.sessions
    ensures Alone(st, pid, c, end) && DbOf(end) == db
  {
    if r.Replaying? {
      end := AloneUpdate(st, pid, c, OfUser(r.userId), ReplayDetected);
    } else if r.Revoking? {
      end := AloneUpdate(st, pid, c, r.where, r.reason);
    } else if r.Rotate? {
      end := AloneRotation(st, pid, c, r.id);
    } else {
      end := st;
      AloneDone(st, pid, c);
    }
  }

  lemma AloneRefreshUser(st: State, pid: Pid, c: Choice, id: RowId) returns (end: State)
    requires id in st.tokens && st.tokens[id].Live() && st.tokens[id].token.expiresAt >= st.now
    requires pid in st.procs && st.procs[pid] == RefreshUser(id, st.tokens[id])
    requires c.uuid !in st.sessions && c.ttl > 0
    requires forall i :: i in st.tokens ==> st.tokens[i].token.sessionUuid in st.sessions
    ensures Alone(st, pid, c, end) && DbOf(end) == RefreshRow(DbOf(st), st.now, id, DrawsOf(c), true).0
  {
    var r, db := AfterRefreshUser(st, id, st.tokens[id]), RefreshRow(DbOf(st), st.now, id, DrawsOf(c), true).0;
    UserDecides(st, c, id);
    LeadsStill(st, pid, c, r, db);
    end := AloneLeads(st.Goto(pid, r), pid, c, r, db);
    AloneRead(st, pid, c, r, end);
  }

  /** An uninterrupted refresh ends in the atomic refresh's database. */
  lemma UninterruptedRefresh(st: State, pid: Pid, c: Choice, hash: Hash) returns (end: State)
    requires pid in st.procs && st.procs[pid] == RefreshLookup(hash)
    requires c.uuid !in st.sessions && c.ttl > 0 && c.found == RowWithHash(st.tokens, hash)
    requires forall id :: id in st.tokens ==> st.tokens[id].token.sessionUuid in st.sessions
    ensures Alone(st, pid, c, end) && DbOf(end) == Refresh(DbOf(st), st.now, hash, DrawsOf(c), true).0
  {
    var r, db := AfterRefreshLookup(st, c.found), Refresh(DbOf(st), st.now, hash, DrawsOf(c), true).0;
    RefreshDecides(st, hash, c);
    LeadsStill(st, pid, c, r, db);
    if r.RefreshUser? {
      end := AloneRefreshUser(st.Goto(pid, r), pid, c, r.id);
    } else {
      end := AloneLeads(st.Goto(pid, r), pid, c, r, db);
    }
    AloneRead(st, pid, c, r, end);
  }

  // ---- Login ----

  lemma LoginDecides(st: State, pid: Pid, c: Choice, u: UserId, keep: bool, passwordMatches: bool)
    requires Enabled(st, Run(pid, c)) && st.procs[pid] == LoginLookup(u, keep, passwordMatches)
    ensures var end := Login(DbOf(st), st.now, u, keep, passwordMatches, DrawsOf(c), true).0;
      || (RunStep(st, pid, c) == st.Goto(pid, Finished) && end == DbOf(st))
      || (RunStep(st, pid, c) == st.BeginSession(pid, u, keep, c)
          && end == Issue(DbOf(st), st.now, u, keep, None, DrawsOf(c), true).0)
  {
  }

  lemma SessionBegun(st: State, pid: Pid, c: Choice, u: UserId, keep: bool)
    ensures var begun := st.BeginSession(pid, u, keep, c);
      && pid in begun.procs && begun.procs[pid] == Prune(Mint(u, keep, c.uuid, None, c.hash, st.now + c.ttl))
      && DbOf(begun) == DbOf(st) && begun.now == st.now && begun.sessions.Keys == st.sessions.Keys + {c.uuid}
  {
  }

  lemma AloneSession(st: State, pid: Pid, c: Choice, d: Choice, u: UserId, keep: bool) returns (end: State)
    requires d.uuid !in st.sessions && c.uuid != d.uuid && d.ttl > 0
    ensures Alone(st.BeginSession(pid, u, keep, c), pid, d, end)
    ensures DbOf(end) == Issue(DbOf(st), st.now, u, keep, None, DrawsOf(c), true).0
  {
    SessionBegun(st, pid, c, u, keep);
    end := AloneMint(st.BeginSession(pid, u, keep, c), pid, d, Mint(u, keep, c.uuid, None, c.hash, st.now + c.ttl));
    MintIsLogin(DbOf(st), st.now, c, u, keep);
  }

  /**
   * An uninterrupted login ends in the atomic login's database; its later
   * statements draw from a second choice, the first one's uuid being used up.
   */
  lemma UninterruptedLogin(st: State, pid: Pid, c: Choice, d: Choice, u: UserId, keep: bool, passwordMatches: bool)
    returns (end: State)
    requires pid in st.procs && st.procs[pid] == LoginLookup(u, keep, passwordMatches)
    requires c.uuid !in st.sessions && d.uuid !in st.sessions && c.uuid != d.uuid && c.ttl > 0 && d.ttl > 0
    ensures Alone(RunStep(st, pid, c), pid, d, end)
    ensures DbOf(end) == Login(DbOf(st), st.now, u, keep, passwordMatches, DrawsOf(c), true).0
  {
    LoginDecides(st, pid, c, u, keep, passwordMatches);
    if RunStep(st, pid, c) == st.Goto(pid, Finished) {
      end := st.Goto(pid, Finished);
      AloneDone(end, pid, d);
    } else {
      end := AloneSession(st, pid, c, d, u, keep);
    }
  }

  /** An uninterrupted registration of a free name. */
  lemma UninterruptedRegistration(st: State, pid: Pid, c: Choice, d: Choice, u: UserId, status: Status)
    returns (end: State)
    requires pid in st.procs && st.procs[pid] == Register(u, status) && u !in st.users
    requires c.uuid !in st.sessions && d.uuid !in st.sessions && c.uuid != d.uuid && c.ttl > 0 && d.ttl > 0
    ensures Alone(RunStep(st, pid, c), pid, d, end)
    ensures DbOf(end) == Registration(DbOf(st), st.now, u, status, DrawsOf(c), true).0
  {
    var registered := st.(users := st.users[u := status]);
    assert RunStep(st, pid, c) == registered.BeginSession(pid, u, false, c);
    end := AloneSession(registered, pid, c, d, u, false);
  }

  lemma ClaimDecides(st: State, pid: Pid, c: Choice, u: UserId, keep: bool)
    requires Enabled(st, Run(pid, c)) && st.procs[pid] == ClaimLookup(u, keep)
    ensures var end := Claimed(DbOf(st), st.now, u, keep, DrawsOf(c), true).0;
      || (RunStep(st, pid, c) == st.Goto(pid, Finished) && end == DbOf(st))
      || (RunStep(st, pid, c) == st.BeginSession(pid, u, keep, c)
          && end == Issue(DbOf(st), st.now, u, keep, None, DrawsOf(c), true).0)
  {
  }

  /** An uninterrupted mint of a claimed authorization request. */
  lemma UninterruptedClaim(st: State, pid: Pid, c: Choice, d: Choice, u: UserId, keep: bool) returns (end: State)
    requires pid in st.procs && st.procs[pid] == ClaimLookup(u, keep)
    requires c.uuid !in st.sessions && d.uuid !in st.sessions && c.uuid != d.uuid && c.ttl > 0 && d.ttl > 0
    ensures Alone(RunStep(st, pid, c), pid, d, end)
    ensures DbOf(end) == Claimed(DbOf(st), st.now, u, keep, DrawsOf(c), true).0
  {
    ClaimDecides(st, pid, c, u, keep);
    if RunStep(st, pid, c) == st.Goto(pid, Finished) {
      end := st.Goto(pid, Finished);
      AloneDone(end, pid, d);
    } else {
      end := AloneSession(st, pid, c, d, u, keep);
    }
  }

  lemma AutoLoginDecides(st: State, pid: Pid, c: Choice, ipAllowed: bool)
    requires Enabled(st, Run(pid, c)) && st.procs[pid] == AutoLoginLookup(ipAllowed)
    ensures var end := AutoLogin(DbOf(st), st.now, ipAllowed, DrawsOf(c), true).0;
      || (RunStep(st, pid, c) == st.Goto(pid, Finished) && end == DbOf(st))
      || (st.defaultUser.Some? && RunStep(st, pid, c) == st.BeginSession(pid, st.defaultUser.value, false, c)
          && end == Issue(DbOf(st), st.now, st.defaultUser.value, false, None, DrawsOf(c), true).0)
  {
  }

  /** The automatic login of a status request, once its session lookup has found nothing to report. */
  lemma UninterruptedAutoLogin(st: State, pid: Pid, c: Choice, d: Choice, ipAllowed: bool) returns (end: State)
    requires pid in st.procs && st.procs[pid] == AutoLoginLookup(ipAllowed)
    requires c.uuid !in st.sessions && d.uuid !in st.sessions && c.uuid != d.uuid && c.ttl > 0 && d.ttl > 0
    ensures Alone(RunStep(st, pid, c), pid, d, end)
    ensures DbOf(end) == AutoLogin(DbOf(st), st.now, ipAllowed, DrawsOf(c), true).0
  {
    AutoLoginDecides(st, pid, c, ipAllowed);
    if RunStep(st, pid, c) == st.Goto(pid, Finished) {
      end := st.Goto(pid, Finished);
      AloneDone(end, pid, d);
    } else {
      end := AloneSession(st, pid, c, d, st.defaultUser.value, false);
    }
  }

  /** The statements of a status request before its automatic login, if it comes to one. */
  function StatusReads(st: State, pid: Pid, c: Choice): State
    requires Enabled(st, Run(pid, c)) && st.procs[pid].StatusLookup?
  {
    var looked := RunStep(st, pid, c);
    if !looked.procs[pid].StatusUser? || !Enabled(looked, Run(pid, c)) then looked
    else
      var read := RunStep(looked, pid, c);
      if !read.procs[pid].Revoking? || !Enabled(read, Run(pid, c)) then read else RunStep(read, pid, c)
  }

  /** They leave the atomic status request's database, or stand before the automatic login that does. */
  lemma UninterruptedStatus(st: State, pid: Pid, c: Choice, hash: Hash, ipAllowed: bool)
    requires pid in st.procs && st.procs[pid] == StatusLookup(hash, ipAllowed)
    requires c.uuid !in st.sessions && c.ttl > 0 && c.found == RowWithHash(st.tokens, hash)
    ensures var end, db := StatusReads(st, pid, c), StatusOf(DbOf(st), st.now, hash, ipAllowed, DrawsOf(c), true).0;
      && end.sessions == st.sessions && end.now == st.now
      && if end.procs[pid] == AutoLoginLookup(ipAllowed)
         then AutoLogin(DbOf(end), st.now, ipAllowed, DrawsOf(c), true).0 == db
         else end.procs[pid] == Finished && DbOf(end) == db
  {
    var r := AfterStatusLookup(st, c.found, ipAllowed);
    var looked := st.Goto(pid, r);
    assert RunStep(st, pid, c) == looked;
    if r.StatusUser? { StatusUserReads(looked, pid, c, hash, ipAllowed); }
  }

  lemma StatusUserReads(st: State, pid: Pid, c: Choice, hash: Hash, ipAllowed: bool)
    requires pid in st.procs && c.uuid !in st.sessions && c.ttl > 0 && c.found == RowWithHash(st.tokens, hash)
    requires c.found.Some? && st.tokens[c.found.value].Active(st.now)
    requires st.procs[pid] == StatusUser(c.found.value, st.tokens[c.found.value].token.userId, ipAllowed)
    ensures Enabled(st, Run(pid, c))
    ensures var read, db := RunStep(st, pid, c), StatusOf(DbOf(st), st.now, hash, ipAllowed, DrawsOf(c), true).0;
      if read.procs[pid].Revoking?
      then Enabled(read, Run(pid, c)) &&
        var end := RunStep(read, pid, c);
        && end.procs[pid] == AutoLoginLookup(ipAllowed) && end.sessions == st.sessions && end.now == st.now
        && AutoLogin(DbOf(end), st.now, ipAllowed, DrawsOf(c), true).0 == db
      else read.procs[pid] == Finished && DbOf(read) == db && read.sessions == st.sessions && read.now == st.now
  {
    var r := AfterStatusUser(st, c.found.value, st.tokens[c.found.value].token.userId, ipAllowed);
    var read := st.Goto(pid, r);
    assert RunStep(st, pid, c) == read;
    if r.Revoking? {
      RevokeSteps(read, pid, c);
      assert DbOf(RunStep(read, pid, c)) == RevokeIn(DbOf(st), ById(c.found.value), st.now, AdminDenied);
    }
  }

  // ---- Revoke others, deny, approve ----

  lemma OthersDecides(st: State, u: UserId, hash: Hash, c: Choice)
    requires c.found == RowWithHash(st.tokens, hash)
    ensures Leads(st, c, AfterOthersLookup(st, u, c.found), RevokeOthers(DbOf(st), st.now, u, hash).0)
  {
  }

  /** An uninterrupted revoke-others ends in the atomic one's database. */
  lemma UninterruptedRevokeOthers(st: State, pid: Pid, c: Choice, u: UserId, hash: Hash) returns (end: State)
    requires pid in st.procs && st.procs[pid] == OthersLookup(u, hash)
    requires c.uuid !in st.sessions && c.ttl > 0 && c.found == RowWithHash(st.tokens, hash)
    ensures Alone(st, pid, c, end) && DbOf(end) == RevokeOthers(DbOf(st), st.now, u, hash).0
  {
    var r, db := AfterOthersLookup(st, u, c.found), RevokeOthers(DbOf(st), st.now, u, hash).0;
    OthersDecides(st, u, hash, c);
    LeadsStill(st, pid, c, r, db);
    if r.Revoking? {
      end := AloneUpdate(st.Goto(pid, r), pid, c, r.where, r.reason);
    } else {
      end := st.Goto(pid, r);
      AloneDone(end, pid, c);
    }
    AloneRead(st, pid, c, r, end);
  }

  lemma DenyWritten(st: State, pid: Pid, c: Choice)
    requires Enabled(st, Run(pid, c)) && st.procs[pid].DenyWrite? && st.procs[pid].userId in st.users
    ensures var u, next := st.procs[pid].userId, RunStep(st, pid, c);
      && next.procs[pid] == Revoking(OfUser(u), AdminDenied, None) && next.now == st.now && next.sessions == st.sessions
      && DbOf(next) == DbOf(st).(users := st.users[u := Denied])
  {
  }

  /** An uninterrupted deny ends in the atomic one's database: the status first, then the tokens. */
  lemma UninterruptedDeny(st: State, pid: Pid, c: Choice, u: UserId, callerId: UserId) returns (end: State)
    requires pid in st.procs && st.procs[pid] == DenyLookup(u, callerId) && c.uuid !in st.sessions && c.ttl > 0
    ensures Alone(st, pid, c, end) && DbOf(end) == Denial(DbOf(st), st.now, u, callerId).0
  {
    var r := AfterDenyLookup(st, u, callerId);
    var read := st.Goto(pid, r);
    if r.DenyWrite? {
      DenyWritten(read, pid, c);
      end := AloneUpdate(RunStep(read, pid, c), pid, c, OfUser(u), AdminDenied);
      AloneNext(read, pid, c, RunStep(read, pid, c), end);
    } else {
      end := read;
      AloneDone(end, pid, c);
    }
    AloneRead(st, pid, c, r, end);
  }

  /** An uninterrupted approve ends in the atomic one's database. */
  lemma UninterruptedApprove(st: State, pid: Pid, c: Choice, u: UserId) returns (end: State)
    requires pid in st.procs && st.procs[pid] == ApproveLookup(u) && c.uuid !in st.sessions && c.ttl > 0
    ensures Alone(st, pid, c, end) && DbOf(end) == Approval(DbOf(st), u).0
  {
    var r := if u in st.users then ApproveWrite(u) else Finished;
    var read := st.Goto(pid, r);
    if r.ApproveWrite? {
      end := StatusStep(read, pid);
      AloneDone(end, pid, c);
      AloneNext(read, pid, c, end, end);
    } else {
      end := read;
      AloneDone(end, pid, c);
    }
    AloneRead(st, pid, c, r, end);
  }
}
