/**
 * Refresh-token sessions as a concurrent protocol. Every request (login,
 * registration, refresh, logout, status, revoke, revoke-others, password
 * change, admin approve/deny, claimed device poll) is a continuation that
 * advances by one database statement at a time, in any interleaving with all
 * the others; any request may also crash between two statements.
 */
module SessionProtocol {
  import opened Prelude
  import opened RefreshTokens

  datatype Status = Pending | Approved | Denied

  /**
   * A call of `issueTokens` in progress. `startedAt` is known on a rotation
   * (copied from the presented row) and still open on a new login.
   */
  datatype Mint = Mint(
    userId: UserId,
    keepSignedIn: bool,
    session: SessionUuid,
    startedAt: Option<Time>,
    tokenHash: Hash,
    expiresAt: Time)

  /** Rotation copies the session identity and `keepSignedIn` from the presented token. */
  function RotationMint(token: Token, hash: Hash, expiresAt: Time): Mint {
    Mint(token.userId, token.keepSignedIn, token.sessionUuid, Some(token.startedAt), hash, expiresAt)
  }

  /** The log after an UPDATE on the rows still in the table. */
  function RevokeLogged(log: Table, present: set<RowId>, w: Where, now: Time, reason: Reason): Table {
    map id | id in log :: RevokeIf(id in present && w.Matches(id, log[id]), log[id], now, reason)
  }

  /** What a request still has to do; each constructor names its next statement. */
  datatype Request =
    | RefreshLookup(hash: Hash)
    | RefreshUser(id: RowId, row: Row)
    | Rotate(id: RowId, row: Row)
    | Replaying(userId: UserId, evidence: RowId, presentedAt: Time)
    | Prune(mint: Mint)
    | Insert(mint: Mint)
    | LoginLookup(userId: UserId, keepSignedIn: bool, passwordMatches: bool)
    | Register(userId: UserId, status: Status)
    | ClaimLookup(userId: UserId, keepSignedIn: bool)
    | StatusLookup(hash: Hash, ipAllowed: bool)
    | StatusUser(id: RowId, userId: UserId, ipAllowed: bool)
    | AutoLoginLookup(ipAllowed: bool)
    | OthersLookup(userId: UserId, hash: Hash)
    | Revoking(where: Where, reason: Reason, thenAutoLogin: Option<bool>)
    | DenyLookup(userId: UserId, callerId: UserId)
    | DenyWrite(userId: UserId)
    | ApproveLookup(userId: UserId)
    | ApproveWrite(userId: UserId)
    | Finished
    | Crashed(was: Request)
  {
    /** The mint this request carries, in flight or lost in a crash. */
    function CarriedMint(): Option<Mint> {
      match this
      case Prune(m) => Some(m)
      case Insert(m) => Some(m)
      case Crashed(r) => if r.Prune? || r.Insert? then Some(r.mint) else None
      case _ => None
    }

    predicate Minting() { Prune? || Insert? }

    /** Past every check of the user's status, with a row for `u` still to be written. */
    predicate ClearedFor(u: UserId) {
      (Rotate? && row.token.userId == u) || (Minting() && mint.userId == u)
    }

    /** The requests a controller can start. */
    predicate Initial() {
      match this
      case RefreshLookup(_) => true
      case LoginLookup(_, _, _) => true
      case Register(_, status) => status != Denied
      case ClaimLookup(_, _) => true
      case StatusLookup(_, _) => true
      case OthersLookup(_, _) => true
      case DenyLookup(_, _) => true
      case ApproveLookup(_) => true
      case Revoking(w, reason, next) =>
        && next == None
        && match reason {
           case Logout => w.ByHash?
           case UserRevoked => w.OfSession?
           case PasswordChange => w.OfUser? || w.OfUserExceptHash?
           case PasswordReset => w.OfUser?
           case AdminPasswordChange => w.OfUser?
           case _ => false
           }
      case _ => false
    }
  }

  /** What all the rows of a session share; `startedAt` is fixed by the first insert. */
  datatype Identity = Identity(userId: UserId, keepSignedIn: bool, startedAt: Option<Time>)

  /** Who carries a session: one of its rows, or one of its mints. */
  datatype Holder = ByRow(id: RowId) | ByRequest(pid: Pid)

  /**
   * `users` and `tokens` are the database. `log` keeps the last version of
   * every row ever inserted (pruned rows included); `sessions` and `holder`
   * are history variables read by no request.
   */
  datatype State = State(
    users: map<UserId, Status>,
    tokens: Table,
    nextRow: RowId,
    procs: map<Pid, Request>,
    now: Time,
    defaultUser: Option<UserId>,
    log: Table,
    sessions: map<SessionUuid, Identity>,
    holder: map<SessionUuid, Holder>)
  {
    function Goto(pid: Pid, r: Request): State {
      this.(procs := procs[pid := r])
    }

    /** One revoking UPDATE, recorded in the log as well. */
    function Revoke(w: Where, reason: Reason): State {
      this.(
        tokens := RevokeWhere(tokens, w, now, reason),
        log := RevokeLogged(log, tokens.Keys, w, now, reason))
    }

    /** The synchronous start of `issueTokens` for a new session. */
    function BeginSession(pid: Pid, u: UserId, keep: bool, c: Choice): State {
      this.(
        procs := procs[pid := Prune(Mint(u, keep, c.uuid, None, c.hash, now + c.ttl))],
        sessions := sessions[c.uuid := Identity(u, keep, None)],
        holder := holder[c.uuid := ByRequest(pid)])
    }

    /** The synchronous start of `issueTokens` for a rotated session. */
    function ContinueSession(pid: Pid, m: Mint): State {
      this.(procs := procs[pid := Prune(m)], holder := holder[m.session := ByRequest(pid)])
    }

    /** The INSERT that ends `issueTokens`. */
    function InsertRow(pid: Pid, m: Mint): State {
      var startedAt := if m.startedAt.Some? then m.startedAt.value else now;
      var row := Row(Token(m.tokenHash, m.userId, now, m.expiresAt, m.keepSignedIn, m.session, startedAt), Unrevoked);
      this.(
        tokens := tokens[nextRow := row],
        log := log[nextRow := row],
        nextRow := nextRow + 1,
        procs := procs[pid := Finished],
        sessions := sessions[m.session := Identity(m.userId, m.keepSignedIn, Some(startedAt))],
        holder := holder[m.session := ByRow(nextRow)])
    }
  }

  /** What a step does not decide: the row a lookup returns, random values and the configured TTL. */
  datatype Choice = Choice(found: Option<RowId>, uuid: SessionUuid, hash: Hash, ttl: Time)

  datatype Action =
    | Spawn(pid: Pid, request: Request)
    | Run(pid: Pid, choice: Choice)
    | Crash(pid: Pid)
    | Tick(now: Time)

  predicate Enabled(st: State, a: Action) {
    match a
    case Spawn(pid, r) => pid !in st.procs && r.Initial()
    case Tick(t) => st.now <= t
    case Crash(pid) => pid in st.procs && !st.procs[pid].Crashed?
    case Run(pid, c) =>
      && pid in st.procs
      && c.uuid !in st.sessions
      && c.ttl > 0
      && match st.procs[pid] {
         case RefreshLookup(hash) => Finds(st.tokens, hash, c.found)
         case StatusLookup(hash, _) => Finds(st.tokens, hash, c.found)
         case OthersLookup(_, hash) => Finds(st.tokens, hash, c.found)
         case Register(u, _) => u !in st.users
         case Finished => false
         case Crashed(_) => false
         case _ => true
         }
  }

  function Apply(st: State, a: Action): State
    requires Enabled(st, a)
  {
    match a
    case Spawn(pid, r) => st.Goto(pid, r)
    case Tick(t) => st.(now := t)
    case Crash(pid) => st.Goto(pid, Crashed(st.procs[pid]))
    case Run(pid, c) => RunStep(st, pid, c)
  }

  /** `#findActiveRefreshToken`: expiry first, then replay detection. */
  function AfterRefreshLookup(st: State, found: Option<RowId>): Request
    requires found.Some? ==> found.value in st.tokens
  {
    if found.None? || st.tokens[found.value].token.expiresAt < st.now then Finished
    else
      var row := st.tokens[found.value];
      if row.Live() then RefreshUser(found.value, row)
      else if row.revocation.reason == Rotated then Replaying(row.token.userId, found.value, st.now)
      else Finished
  }

  function AfterRefreshUser(st: State, id: RowId, row: Row): Request {
    if row.token.userId !in st.users then Finished
    else if st.users[row.token.userId] == Denied then Revoking(ById(id), AdminDenied, None)
    else Rotate(id, row)
  }

  function AfterStatusLookup(st: State, found: Option<RowId>, ipAllowed: bool): Request
    requires found.Some? ==> found.value in st.tokens
  {
    if found.Some? && st.tokens[found.value].Active(st.now)
    then StatusUser(found.value, st.tokens[found.value].token.userId, ipAllowed)
    else AutoLoginLookup(ipAllowed)
  }

  function AfterStatusUser(st: State, id: RowId, u: UserId, ipAllowed: bool): Request {
    if u in st.users && st.users[u] == Denied
    then Revoking(ById(id), AdminDenied, Some(ipAllowed))
    else Finished
  }

  function AfterOthersLookup(st: State, u: UserId, found: Option<RowId>): Request
    requires found.Some? ==> found.value in st.tokens
  {
    if found.Some? && st.tokens[found.value].token.userId == u && st.tokens[found.value].Active(st.now)
    then Revoking(OfUserExceptSession(u, st.tokens[found.value].token.sessionUuid), UserRevoked, None)
    else Finished
  }

  /** Checks in the source's order: 404, default user, self. */
  function AfterDenyLookup(st: State, u: UserId, caller: UserId): Request {
    if u !in st.users || st.defaultUser == Some(u) || u == caller then Finished else DenyWrite(u)
  }

  /** What a request that only SELECTs does next. */
  function AfterRead(st: State, r: Request, found: Option<RowId>): Request
    requires found.Some? && (r.RefreshLookup? || r.StatusLookup? || r.OthersLookup?) ==> found.value in st.tokens
  {
    match r
    case RefreshLookup(_) => AfterRefreshLookup(st, found)
    case RefreshUser(id, row) => AfterRefreshUser(st, id, row)
    case StatusLookup(_, ipAllowed) => AfterStatusLookup(st, found, ipAllowed)
    case StatusUser(id, u, ipAllowed) => AfterStatusUser(st, id, u, ipAllowed)
    case OthersLookup(u, _) => AfterOthersLookup(st, u, found)
    case DenyLookup(u, caller) => AfterDenyLookup(st, u, caller)
    case ApproveLookup(u) => if u in st.users then ApproveWrite(u) else Finished
    case _ => Finished
  }

  /** The next statement is a SELECT that decides nothing but what to do next. */
  predicate OnlyReads(r: Request) {
    || r.RefreshLookup? || r.RefreshUser? || r.StatusLookup? || r.StatusUser? || r.OthersLookup?
    || r.DenyLookup? || r.ApproveLookup?
  }

  /** A lookup, or the registration's insert, after which a session may begin. */
  predicate MayBeginSession(r: Request) {
    r.LoginLookup? || r.Register? || r.ClaimLookup? || r.AutoLoginLookup?
  }

  /** The next statement is a revoking UPDATE. */
  predicate Revokes(r: Request) {
    r.Rotate? || r.Replaying? || r.Revoking?
  }

  function RunStep(st: State, pid: Pid, c: Choice): (st': State)
    requires Enabled(st, Run(pid, c))
    ensures pid in st'.procs && st'.procs == st.procs[pid := st'.procs[pid]]
  {
    var r := st.procs[pid];
    if OnlyReads(r) then st.Goto(pid, AfterRead(st, r, c.found))
    else if MayBeginSession(r) then StartStep(st, pid, c)
    else if r.Minting() then MintStep(st, pid)
    else if Revokes(r) then RevokeStep(st, pid, c)
    else StatusStep(st, pid)
  }

  function StartStep(st: State, pid: Pid, c: Choice): (st': State)
    requires pid in st.procs && MayBeginSession(st.procs[pid])
    ensures pid in st'.procs && st'.procs == st.procs[pid := st'.procs[pid]]
  {
    match st.procs[pid]
    case LoginLookup(u, keep, passwordMatches) =>
      if u in st.users && passwordMatches && st.users[u] != Denied
      then st.BeginSession(pid, u, keep, c)
      else st.Goto(pid, Finished)
    case Register(u, status) => st.(users := st.users[u := status]).BeginSession(pid, u, false, c)
    case ClaimLookup(u, keep) =>
      if u in st.users && st.users[u] == Approved
      then st.BeginSession(pid, u, keep, c)
      else st.Goto(pid, Finished)
    case AutoLoginLookup(ipAllowed) =>
      if ipAllowed && st.defaultUser.Some? && st.defaultUser.value in st.users
      then st.BeginSession(pid, st.defaultUser.value, false, c)
      else st.Goto(pid, Finished)
  }

  function MintStep(st: State, pid: Pid): (st': State)
    requires pid in st.procs && st.procs[pid].Minting()
    ensures pid in st'.procs && st'.procs == st.procs[pid := st'.procs[pid]]
  {
    match st.procs[pid]
    case Prune(m) => st.(tokens := PruneExpired(st.tokens, m.userId, st.now)).Goto(pid, Insert(m))
    case Insert(m) => st.InsertRow(pid, m)
  }

  function RevokeStep(st: State, pid: Pid, c: Choice): (st': State)
    requires pid in st.procs && Revokes(st.procs[pid])
    ensures pid in st'.procs && st'.procs == st.procs[pid := st'.procs[pid]]
  {
    match st.procs[pid]
    case Rotate(id, row) =>
      if id in st.tokens && st.tokens[id].Live()
      then st.Revoke(ById(id), Rotated).ContinueSession(pid, RotationMint(row.token, c.hash, st.now + c.ttl))
      else st.Goto(pid, Finished)
    case Replaying(u, _, _) => st.Revoke(OfUser(u), ReplayDetected).Goto(pid, Finished)
    case Revoking(w, reason, next) =>
      st.Revoke(w, reason).Goto(pid, if next.Some? then AutoLoginLookup(next.value) else Finished)
  }

  /** The two guarded writes of a user's status. */
  function StatusStep(st: State, pid: Pid): (st': State)
    requires pid in st.procs
    ensures pid in st'.procs && st'.procs == st.procs[pid := st'.procs[pid]]
  {
    match st.procs[pid]
    case DenyWrite(u) =>
      (if u in st.users then st.(users := st.users[u := Denied]) else st)
      .Goto(pid, Revoking(OfUser(u), AdminDenied, None))
    case ApproveWrite(u) =>
      (if u in st.users && st.users[u] == Pending then st.(users := st.users[u := Approved]) else st)
      .Goto(pid, Finished)
    case _ => st
  }

  /** The guarded rotation: the request that still finds the row unrevoked takes the session over. */
  lemma RotateSteps(st: State, pid: Pid, c: Choice)
    requires Enabled(st, Run(pid, c)) && st.procs[pid].Rotate?
    ensures var r := st.procs[pid];
      RunStep(st, pid, c) ==
        if r.id in st.tokens && st.tokens[r.id].Live()
        then st.Revoke(ById(r.id), Rotated).ContinueSession(pid, RotationMint(r.row.token, c.hash, st.now + c.ttl))
        else st.Goto(pid, Finished)
  {
  }

  lemma RevokeSteps(st: State, pid: Pid, c: Choice)
    requires Enabled(st, Run(pid, c)) && (st.procs[pid].Replaying? || st.procs[pid].Revoking?)
    ensures var r := st.procs[pid];
      RunStep(st, pid, c) ==
        if r.Replaying? then st.Revoke(OfUser(r.userId), ReplayDetected).Goto(pid, Finished)
        else
          st.Revoke(r.where, r.reason)
            .Goto(pid, if r.thenAutoLogin.Some? then AutoLoginLookup(r.thenAutoLogin.value) else Finished)
  {
  }

  lemma StartSteps(st: State, pid: Pid, c: Choice)
    requires Enabled(st, Run(pid, c)) && MayBeginSession(st.procs[pid]) && !st.procs[pid].Register?
    ensures var r, next := st.procs[pid], RunStep(st, pid, c);
      var u := if r.AutoLoginLookup? then (if st.defaultUser.Some? then st.defaultUser.value else 0) else r.userId;
      next == st.Goto(pid, Finished)
      || next == st.BeginSession(pid, u, if r.AutoLoginLookup? then false else r.keepSignedIn, c)
  {
  }

  lemma MintSteps(st: State, pid: Pid, c: Choice)
    requires Enabled(st, Run(pid, c)) && st.procs[pid].Minting()
    ensures var m := st.procs[pid].mint;
      RunStep(st, pid, c) ==
        if st.procs[pid].Prune? then st.(tokens := PruneExpired(st.tokens, m.userId, st.now)).Goto(pid, Insert(m))
        else st.InsertRow(pid, m)
  {
  }

  lemma StatusSteps(st: State, pid: Pid, c: Choice)
    requires Enabled(st, Run(pid, c)) && (st.procs[pid].DenyWrite? || st.procs[pid].ApproveWrite?)
    ensures var r, next := st.procs[pid], RunStep(st, pid, c);
      && next == st.(users := next.users).Goto(pid, next.procs[pid])
      && next.procs[pid] == (if r.DenyWrite? then Revoking(OfUser(r.userId), AdminDenied, None) else Finished)
      && (next.users == st.users || (r.userId in st.users
            && ((r.DenyWrite? && next.users == st.users[r.userId := Denied])
                || (r.ApproveWrite? && st.users[r.userId] == Pending && next.users == st.users[r.userId := Approved]))))
  {
  }

  predicate ValidRun(st: State, run: seq<Action>)
    decreases |run|
  {
    run == [] || (Enabled(st, run[0]) && ValidRun(Apply(st, run[0]), run[1..]))
  }

  function After(st: State, run: seq<Action>): State
    requires ValidRun(st, run)
    decreases |run|
  {
    if run == [] then st else After(Apply(st, run[0]), run[1..])
  }

  /** A database with no tokens yet and nothing in flight, whatever its users. */
  predicate Init(st: State) {
    && st.tokens == map[] && st.log == map[] && st.procs == map[]
    && st.sessions == map[] && st.holder == map[]
    && (st.defaultUser.Some? && st.defaultUser.value in st.users ==> st.users[st.defaultUser.value] != Denied)
  }
}
