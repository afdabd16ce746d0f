/**
 * Login by authorization, one database statement at a time: a device creates
 * a request and polls it; its owner authorizes or denies it from elsewhere.
 * Only the claim of an approved request and the later denial of a claim are
 * guarded by the stored status; authorize, deny, expiry and eviction read
 * first and write unconditionally afterwards. A create starts here once the
 * create limit has let it through; the limit itself is `DeviceWindow`'s.
 */
module DeviceFlow {
  import opened Prelude

  datatype Status = Open | Approved | Denied | Logged | Expired

  datatype Session = Session(user: UserId, keepSignedIn: bool)

  /**
   * A request row; `loggedAt` is set by every claim and never cleared.
   * `guesses`, `approvals`, `claims` and `minted` are history: wrong passwords
   * registered since the last approval, approval writes, claims won, sessions
   * issued.
   */
  datatype Row = Row(
    userId: Option<UserId>, keepSignedIn: bool, status: Status, approvedBy: Option<UserId>,
    createdAt: Time, expiresAt: Time, failedAttempts: nat, lockedUntil: Option<Time>,
    loggedAt: Option<Time>, guesses: nat, approvals: nat, claims: nat, minted: seq<Session>)

  datatype Draft = Draft(userId: Option<UserId>, keepSignedIn: bool, expiresAt: Time)

  datatype Standing = StandingApproved | StandingOther

  /** The rest of a call, starting at its next statement. */
  datatype Call =
    | PollLookup(id: RowId, tokenMatches: bool)
    | ExpireWrite(id: RowId)
    | Claim(id: RowId, userId: Option<UserId>, keepSignedIn: bool)
    | ClaimUser(id: RowId, userId: Option<UserId>, keepSignedIn: bool)
    | DenyClaimed(id: RowId)
    | Mint(id: RowId, user: UserId, keepSignedIn: bool)
    | AuthorizeLookup(id: RowId, approver: UserId)
    | AuthorizePassword(id: RowId, approver: UserId, lockedOut: bool, attempts: nat)
    | RegisterFailure(id: RowId, attempts: nat)
    | ApproveWrite(id: RowId, approver: UserId)
    | DenyLookup(id: RowId, approver: UserId)
    | DenyWrite(id: RowId)
    | CountOpen(draft: Draft)
    | FindOldest(draft: Draft)
    | EvictWrite(id: RowId, draft: Draft)
    | InsertRequest(draft: Draft)
    | Finished

  datatype Config = Config(maxOpenPerUser: int, maxAttempts: int, lockMs: int)

  datatype State = State(
    now: Time, users: map<UserId, Standing>, rows: map<RowId, Row>, nextId: RowId, calls: map<Pid, Call>)
  {
    function Goto(p: Pid, c: Call): State {
      this.(calls := calls[p := c])
    }

    /** `UPDATE … WHERE id`: nothing happens to a missing row. */
    function Put(id: RowId, row: Row): State {
      if id in rows then this.(rows := rows[id := row]) else this
    }
  }

  datatype Action =
    | Tick(to: Time)
    | UserChanges(u: UserId, standing: Option<Standing>)
    | Create(p: Pid, draft: Draft)
    | Begin(p: Pid, call: Call)
    | Step(p: Pid, c: Choice)

  /** What a step does not determine: whether the password matches, and the oldest row among ties. */
  datatype Choice = Choice(passwordMatches: bool, oldest: Option<RowId>)

  function OpenOf(rows: map<RowId, Row>, user: UserId): set<RowId> {
    set id | id in rows && rows[id].userId == Some(user) && rows[id].status == Open
  }

  /** An open row of the user with the least creation time. */
  predicate IsOldest(rows: map<RowId, Row>, user: UserId, oldest: RowId) {
    && oldest in OpenOf(rows, user)
    && forall id :: id in OpenOf(rows, user) ==> rows[oldest].createdAt <= rows[id].createdAt
  }

  predicate Enabled(st: State, a: Action) {
    match a
    case Tick(to) => to >= st.now
    case UserChanges(_, _) => true
    case Create(p, _) => p !in st.calls
    case Begin(p, call) => p !in st.calls && (call.PollLookup? || call.AuthorizeLookup? || call.DenyLookup?)
    case Step(p, c) => p in st.calls && !st.calls[p].Finished? && OldestFits(st, st.calls[p], c.oldest)
  }

  predicate OldestFits(st: State, call: Call, oldest: Option<RowId>) {
    call.FindOldest? ==>
      if oldest.Some? then call.draft.userId.Some? && IsOldest(st.rows, call.draft.userId.value, oldest.value)
      else call.draft.userId.Some? ==> OpenOf(st.rows, call.draft.userId.value) == {}
  }

  function Apply(cfg: Config, st: State, a: Action): State
    requires Enabled(st, a)
  {
    match a
    case Tick(to) => st.(now := to)
    case UserChanges(u, standing) =>
      st.(users := if standing.Some? then st.users[u := standing.value] else st.users - {u})
    case Create(p, draft) => st.Goto(p, if draft.userId.Some? then CountOpen(draft) else InsertRequest(draft))
    case Begin(p, call) => st.Goto(p, call)
    case Step(p, c) => RunStep(cfg, st, p, c)
  }

  function AfterPoll(st: State, id: RowId, tokenMatches: bool): Call {
    if !tokenMatches || id !in st.rows then Finished
    else
      var row := st.rows[id];
      if row.status == Open && row.expiresAt < st.now then ExpireWrite(id)
      else if row.status == Approved then Claim(id, row.userId, row.keepSignedIn)
      else Finished
  }

  /** The request if it exists, belongs to the caller and is open. */
  predicate OwnedOpen(st: State, id: RowId, caller: UserId) {
    id in st.rows && st.rows[id].userId == Some(caller) && st.rows[id].status == Open
  }

  function AfterAuthorizeLookup(st: State, id: RowId, approver: UserId): Call {
    if !OwnedOpen(st, id, approver) || st.rows[id].expiresAt < st.now then Finished
    else
      var row := st.rows[id];
      AuthorizePassword(id, approver, row.lockedUntil.Some? && row.lockedUntil.value > st.now, row.failedAttempts)
  }

  function NewRow(draft: Draft, now: Time): Row {
    Row(draft.userId, draft.keepSignedIn, Open, None, now, draft.expiresAt, 0, None, None, 0, 0, 0, [])
  }

  /** The approving UPDATE, whatever the row's status has become. */
  function ApprovedBy(row: Row, approver: UserId): Row {
    row.(status := Approved, approvedBy := Some(approver), failedAttempts := 0, lockedUntil := None,
         guesses := 0, approvals := row.approvals + 1)
  }

  /** A wrong password, counted from the number of attempts the call had read. */
  function Guessed(cfg: Config, row: Row, attempts: nat, now: Time): Row {
    row.(failedAttempts := attempts + 1, guesses := row.guesses + 1,
         lockedUntil := if attempts + 1 >= cfg.maxAttempts then Some(now + cfg.lockMs) else None)
  }

  /** The claimed row: the guarded UPDATE `approved → logged`. */
  function Won(row: Row, now: Time): Row {
    row.(status := Logged, loggedAt := Some(now), claims := row.claims + 1)
  }

  function RunStep(cfg: Config, st: State, p: Pid, c: Choice): State
    requires Enabled(st, Step(p, c))
  {
    match st.calls[p]
    case PollLookup(id, tokenMatches) => st.Goto(p, AfterPoll(st, id, tokenMatches))
    case ExpireWrite(id) => SetStatus(st, id, Expired).Goto(p, Finished)
    case Claim(id, userId, keep) =>
      if id in st.rows && st.rows[id].status == Approved
      then st.Put(id, Won(st.rows[id], st.now)).Goto(p, ClaimUser(id, userId, keep))
      else st.Goto(p, Finished)
    case ClaimUser(id, userId, keep) =>
      st.Goto(p, if userId.None? || userId.value !in st.users then Finished
                 else if st.users[userId.value] != StandingApproved then DenyClaimed(id)
                 else Mint(id, userId.value, keep))
    case DenyClaimed(id) =>
      (if id in st.rows && st.rows[id].status == Logged then SetStatus(st, id, Denied) else st).Goto(p, Finished)
    case Mint(id, user, keep) =>
      (if id in st.rows
       then st.Put(id, st.rows[id].(minted := st.rows[id].minted + [Session(user, keep)]))
       else st).Goto(p, Finished)
    case AuthorizeLookup(id, approver) => st.Goto(p, AfterAuthorizeLookup(st, id, approver))
    case AuthorizePassword(id, approver, lockedOut, attempts) =>
      st.Goto(p, if lockedOut then Finished
                 else if !c.passwordMatches then RegisterFailure(id, attempts)
                 else ApproveWrite(id, approver))
    case RegisterFailure(id, attempts) =>
      (if id in st.rows then st.Put(id, Guessed(cfg, st.rows[id], attempts, st.now)) else st).Goto(p, Finished)
    case ApproveWrite(id, approver) =>
      (if id in st.rows then st.Put(id, ApprovedBy(st.rows[id], approver)) else st).Goto(p, Finished)
    case DenyLookup(id, approver) => st.Goto(p, if OwnedOpen(st, id, approver) then DenyWrite(id) else Finished)
    case DenyWrite(id) => SetStatus(st, id, Denied).Goto(p, Finished)
    case CountOpen(draft) =>
      st.Goto(p, if draft.userId.Some? && |OpenOf(st.rows, draft.userId.value)| >= cfg.maxOpenPerUser
                 then FindOldest(draft) else InsertRequest(draft))
    case FindOldest(draft) =>
      st.Goto(p, if c.oldest.Some? then EvictWrite(c.oldest.value, draft) else InsertRequest(draft))
    case EvictWrite(id, draft) => SetStatus(st, id, Expired).Goto(p, InsertRequest(draft))
    case InsertRequest(draft) =>
      st.(rows := st.rows[st.nextId := NewRow(draft, st.now)], nextId := st.nextId + 1).Goto(p, Finished)
    case Finished => st
  }

  function SetStatus(st: State, id: RowId, status: Status): State {
    if id in st.rows then st.Put(id, st.rows[id].(status := status)) else st
  }

  predicate ValidRun(cfg: Config, st: State, run: seq<Action>)
    decreases |run|
  {
    run == [] || (Enabled(st, run[0]) && ValidRun(cfg, Apply(cfg, st, run[0]), run[1..]))
  }

  function After(cfg: Config, st: State, run: seq<Action>): State
    requires ValidRun(cfg, st, run)
    decreases |run|
  {
    if run == [] then st else After(cfg, Apply(cfg, st, run[0]), run[1..])
  }

  predicate Init(st: State) {
    st.rows == map[] && st.calls == map[]
  }
}
