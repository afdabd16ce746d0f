/**
 * The Auth module's operations run one at a time, as the source writes them:
 * a class over the user and refresh-token tables whose methods issue the SQL
 * statements in order. Each method is proved against a function of the
 * database, `Perform`, which takes the opportunistic pruning as a switch.
 */
module AuthService {
  import opened Prelude
  import opened RefreshTokens
  import opened SessionProtocol

  /** The two tables, and the id boot sync recorded for the default user. */
  datatype Db = Db(users: map<UserId, Status>, tokens: Table, nextRow: RowId, defaultUser: Option<UserId>)

  /** Random values and configured TTL of one mint. */
  datatype Fresh = Fresh(uuid: SessionUuid, hash: Hash, ttl: Time)

  datatype Op =
    | OpLogin(userId: UserId, keepSignedIn: bool, passwordMatches: bool)
    | OpRefresh(hash: Hash)
    | OpLogout(hash: Hash)
    | OpFindActive(hash: Hash)
    | OpListActive(userId: UserId)
    | OpRevoke(userId: UserId, session: SessionUuid)
    | OpRevokeOthers(userId: UserId, hash: Hash)
    | OpRevokeUser(userId: UserId, reason: Reason, keep: Option<Hash>)
    | OpGate(session: SessionUuid)
    | OpRegister(userId: UserId, status: Status)
    | OpClaim(userId: UserId, keepSignedIn: bool)
    | OpStatus(hash: Hash, ipAllowed: bool)
    | OpApprove(userId: UserId)
    | OpDeny(userId: UserId, callerId: UserId)

  datatype Answer =
    | Unauthorized
    | ReplayRejected
    | Forbidden
    | NotFound
    | Done
    | Session(userId: UserId, session: SessionUuid, hash: Hash, expiresAt: Time)
    | Active(row: Option<Row>)
    | Listed(rows: set<Row>)
    | Admitted(users: set<UserId>)
    | Conflict
    | NotPending
    | CannotDenySelf
    | LoggedIn
    | LoggedOut
    | PendingUser

  /** The row under which the answered session can be found again. */
  predicate Carries(row: Row, a: Answer) {
    && a.Session? && row.revocation.Unrevoked? && row.token.userId == a.userId
    && row.token.sessionUuid == a.session && row.token.tokenHash == a.hash && row.token.expiresAt == a.expiresAt
  }

  /** The answer goes on with the session of the row whose token was presented. */
  predicate Continues(row: Row, hash: Hash, a: Answer) {
    row.token.tokenHash == hash && a.Session? && a.userId == row.token.userId && a.session == row.token.sessionUuid
  }

  /** `token_hash` carries a unique index. */
  ghost predicate UniqueHashes(t: Table) {
    forall a, b :: a in t && b in t && t[a].token.tokenHash == t[b].token.tokenHash ==> a == b
  }

  ghost predicate ValidDb(db: Db) {
    UniqueHashes(db.tokens) && forall id :: id in db.tokens ==> id < db.nextRow
  }

  ghost function RowWithHash(t: Table, hash: Hash): (found: Option<RowId>)
    ensures Finds(t, hash, found)
  {
    if id :| id in t && t[id].token.tokenHash == hash then Some(id) else None
  }

  /** `issueTokens`: prune (when `pruning`), then insert. */
  function Issue(db: Db, now: Time, u: UserId, keep: bool, session: Option<Token>, f: Fresh, pruning: bool)
    : (Db, Answer)
  {
    var s := if session.Some? then session.value.sessionUuid else f.uuid;
    var startedAt := if session.Some? then session.value.startedAt else now;
    var kept := if pruning then PruneExpired(db.tokens, u, now) else db.tokens;
    var row := Row(Token(f.hash, u, now, now + f.ttl, keep, s, startedAt), Unrevoked);
    (db.(tokens := kept[db.nextRow := row], nextRow := db.nextRow + 1), Session(u, s, f.hash, now + f.ttl))
  }

  function RevokeIn(db: Db, w: Where, now: Time, reason: Reason): Db {
    db.(tokens := RevokeWhere(db.tokens, w, now, reason))
  }

  function Login(db: Db, now: Time, u: UserId, keep: bool, passwordMatches: bool, f: Fresh, pruning: bool)
    : (Db, Answer)
  {
    if u !in db.users || !passwordMatches then (db, Unauthorized)
    else if db.users[u] == Denied then (db, Forbidden)
    else Issue(db, now, u, keep, None, f, pruning)
  }

  ghost function Refresh(db: Db, now: Time, hash: Hash, f: Fresh, pruning: bool): (Db, Answer) {
    match RowWithHash(db.tokens, hash)
    case None => (db, Unauthorized)
    case Some(id) => RefreshRow(db, now, id, f, pruning)
  }

  function RefreshRow(db: Db, now: Time, id: RowId, f: Fresh, pruning: bool): (Db, Answer)
    requires id in db.tokens
  {
    var row := db.tokens[id];
    if row.token.expiresAt < now then (db, Unauthorized)
    else if row.RevokedFor(Rotated) then (RevokeIn(db, OfUser(row.token.userId), now, ReplayDetected), ReplayRejected)
    else if !row.Live() || row.token.userId !in db.users then (db, Unauthorized)
    else if db.users[row.token.userId] == Denied then (RevokeIn(db, ById(id), now, AdminDenied), Unauthorized)
    else
      var rotated := RevokeIn(db, ById(id), now, Rotated);
      Issue(rotated, now, row.token.userId, row.token.keepSignedIn, Some(row.token), f, pruning)
  }

  ghost function RevokeOthers(db: Db, now: Time, u: UserId, hash: Hash): (Db, Answer) {
    match RowWithHash(db.tokens, hash)
    case None => (db, Unauthorized)
    case Some(id) =>
      var row := db.tokens[id];
      if row.token.userId == u && row.Active(now)
      then (RevokeIn(db, OfUserExceptSession(u, row.token.sessionUuid), now, UserRevoked), Done)
      else (db, Unauthorized)
  }

  function RevokeOne(db: Db, now: Time, u: UserId, s: SessionUuid): (Db, Answer) {
    (RevokeIn(db, OfSession(u, s), now, UserRevoked), if Affects(db.tokens, OfSession(u, s)) then Done else NotFound)
  }

  /** A new user gets a session whatever their status; the gate decides what it is worth. */
  function Registration(db: Db, now: Time, u: UserId, status: Status, f: Fresh, pruning: bool): (Db, Answer) {
    if u in db.users then (db, Conflict)
    else Issue(db.(users := db.users[u := status]), now, u, false, None, f, pruning)
  }

  /** The session of a claimed authorization request. */
  function Claimed(db: Db, now: Time, u: UserId, keep: bool, f: Fresh, pruning: bool): (Db, Answer) {
    if u in db.users && db.users[u] == Approved then Issue(db, now, u, keep, None, f, pruning) else (db, Unauthorized)
  }

  function AutoLogin(db: Db, now: Time, ipAllowed: bool, f: Fresh, pruning: bool): (Db, Answer) {
    if ipAllowed && db.defaultUser.Some? && db.defaultUser.value in db.users
    then Issue(db, now, db.defaultUser.value, false, None, f, pruning)
    else (db, LoggedOut)
  }

  ghost function StatusOf(db: Db, now: Time, hash: Hash, ipAllowed: bool, f: Fresh, pruning: bool): (Db, Answer) {
    match RowWithHash(db.tokens, hash)
    case None => AutoLogin(db, now, ipAllowed, f, pruning)
    case Some(id) => StatusRow(db, now, id, ipAllowed, f, pruning)
  }

  function StatusRow(db: Db, now: Time, id: RowId, ipAllowed: bool, f: Fresh, pruning: bool): (Db, Answer)
    requires id in db.tokens
  {
    var u := db.tokens[id].token.userId;
    if !db.tokens[id].Active(now) then AutoLogin(db, now, ipAllowed, f, pruning)
    else if u in db.users && db.users[u] == Denied
    then AutoLogin(RevokeIn(db, ById(id), now, AdminDenied), now, ipAllowed, f, pruning)
    else (db, if u in db.users && db.users[u] == Pending then PendingUser else LoggedIn)
  }

  function Approval(db: Db, u: UserId): (Db, Answer) {
    if u !in db.users then (db, NotFound)
    else if db.users[u] == Pending then (db.(users := db.users[u := Approved]), Done)
    else (db, NotPending)
  }

  function Denial(db: Db, now: Time, u: UserId, callerId: UserId): (Db, Answer) {
    if u !in db.users then (db, NotFound)
    else if db.defaultUser == Some(u) then (db, Conflict)
    else if u == callerId then (db, CannotDenySelf)
    else (RevokeIn(db.(users := db.users[u := Denied]), OfUser(u), now, AdminDenied), Done)
  }

  ghost function FindActive(db: Db, now: Time, hash: Hash): Option<Row> {
    match RowWithHash(db.tokens, hash)
    case None => None
    case Some(id) => if db.tokens[id].Active(now) then Some(db.tokens[id]) else None
  }

  function ListActive(db: Db, now: Time, u: UserId): set<Row> {
    set id | id in db.tokens && db.tokens[id].token.userId == u && db.tokens[id].Active(now) :: db.tokens[id]
  }

  /** `findActiveSessionUser`: the approved users joined to an active row of the session. */
  function GateUsers(db: Db, now: Time, s: SessionUuid): set<UserId> {
    set id | id in db.tokens && db.tokens[id].token.sessionUuid == s && db.tokens[id].Active(now)
      && db.tokens[id].token.userId in db.users && db.users[db.tokens[id].token.userId] == Approved
      :: db.tokens[id].token.userId
  }

  function KeepClause(u: UserId, keep: Option<Hash>): Where {
    if keep.Some? then OfUserExceptHash(u, keep.value) else OfUser(u)
  }

  /** One operation from start to end, with or without the pruning inside every mint. */
  ghost function Perform(db: Db, now: Time, op: Op, f: Fresh, pruning: bool): (Db, Answer) {
    match op
    case OpLogin(u, keep, pw) => Login(db, now, u, keep, pw, f, pruning)
    case OpRefresh(hash) => Refresh(db, now, hash, f, pruning)
    case OpLogout(hash) => (RevokeIn(db, ByHash(hash), now, Logout), Done)
    case OpFindActive(hash) => (db, Active(FindActive(db, now, hash)))
    case OpListActive(u) => (db, Listed(ListActive(db, now, u)))
    case OpRevoke(u, s) => RevokeOne(db, now, u, s)
    case OpRevokeOthers(u, hash) => RevokeOthers(db, now, u, hash)
    case OpRevokeUser(u, reason, keep) => (RevokeIn(db, KeepClause(u, keep), now, reason), Done)
    case OpGate(s) => (db, Admitted(GateUsers(db, now, s)))
    case OpRegister(u, status) => Registration(db, now, u, status, f, pruning)
    case OpClaim(u, keep) => Claimed(db, now, u, keep, f, pruning)
    case OpStatus(hash, ipAllowed) => StatusOf(db, now, hash, ipAllowed, f, pruning)
    case OpApprove(u) => Approval(db, u)
    case OpDeny(u, callerId) => Denial(db, now, u, callerId)
  }

  /** The services over their two tables. */
  class Auth {
    var users: map<UserId, Status>
    var tokens: Table
    var nextRow: RowId
    const defaultUser: Option<UserId>

    function Snapshot(): Db
      reads this
    {
      Db(users, tokens, nextRow, defaultUser)
    }

    ghost predicate Valid()
      reads this
    {
      ValidDb(Snapshot())
    }

    constructor (users: map<UserId, Status>, defaultUser: Option<UserId>)
      ensures Valid() && Snapshot() == Db(users, map[], 0, defaultUser)
    {
      this.users := users;
      this.defaultUser := defaultUser;
      tokens := map[];
      nextRow := 0;
    }

    /** SELECT ... WHERE token_hash = hash. */
    method FindOneByHash(hash: Hash) returns (found: Option<RowId>)
      requires Valid()
      ensures found == RowWithHash(tokens, hash)
    {
      if id :| id in tokens && tokens[id].token.tokenHash == hash {
        found := Some(id);
      } else {
        found := None;
      }
    }

    /** UPDATE ... WHERE w AND revoked_at IS NULL; `affected` is whether any row matched. */
    method UpdateRevoked(w: Where, now: Time, reason: Reason) returns (affected: bool)
      modifies this`tokens
      ensures Snapshot() == RevokeIn(old(Snapshot()), w, now, reason)
      ensures affected <==> Affects(old(tokens), w)
    {
      affected := exists id :: id in tokens && tokens[id].Live() && w.Matches(id, tokens[id]);
      tokens := RevokeWhere(tokens, w, now, reason);
    }

    method IssueTokens(u: UserId, keep: bool, session: Option<Token>, now: Time, f: Fresh) returns (answer: Answer)
      requires Valid()
      requires forall id :: id in tokens ==> tokens[id].token.tokenHash != f.hash
      modifies this`tokens, this`nextRow
      ensures Valid()
      ensures (Snapshot(), answer) == Issue(old(Snapshot()), now, u, keep, session, f, true)
      ensures old(nextRow) in tokens && Carries(tokens[old(nextRow)], answer)
      ensures answer.userId == u && answer.hash == f.hash && answer.expiresAt == now + f.ttl
      ensures answer.session == if session.Some? then session.value.sessionUuid else f.uuid
    {
      var s := if session.Some? then session.value.sessionUuid else f.uuid;
      tokens := PruneExpired(tokens, u, now);
      var startedAt := if session.Some? then session.value.startedAt else now;
      tokens := tokens[nextRow := Row(Token(f.hash, u, now, now + f.ttl, keep, s, startedAt), Unrevoked)];
      nextRow := nextRow + 1;
      answer := Session(u, s, f.hash, now + f.ttl);
    }

    method LogIn(u: UserId, keep: bool, passwordMatches: bool, now: Time, f: Fresh) returns (answer: Answer)
      requires Valid()
      requires forall id :: id in tokens ==> tokens[id].token.tokenHash != f.hash
      modifies this`tokens, this`nextRow
      ensures Valid()
      ensures (Snapshot(), answer) == Perform(old(Snapshot()), now, OpLogin(u, keep, passwordMatches), f, true)
    {
      if u !in users || !passwordMatches { return Unauthorized; }
      if users[u] == Denied { return Forbidden; }
      answer := IssueTokens(u, keep, None, now, f);
    }

    /** Rotation with replay detection, statement by statement. */
    method RefreshToken(hash: Hash, now: Time, f: Fresh) returns (answer: Answer)
      requires Valid()
      requires forall id :: id in tokens ==> tokens[id].token.tokenHash != f.hash
      modifies this`tokens, this`nextRow
      ensures Valid()
      ensures (Snapshot(), answer) == Perform(old(Snapshot()), now, OpRefresh(hash), f, true)
      ensures answer.Session? ==> old(nextRow) in tokens && Carries(tokens[old(nextRow)], answer)
      ensures answer.Session? ==>
        exists id :: id in old(tokens) && Continues(old(tokens)[id], hash, answer)
    {
      var found := FindOneByHash(hash);
      if found.None? || tokens[found.value].token.expiresAt < now { return Unauthorized; }
      var id, row := found.value, tokens[found.value];
      if row.revocation.Revoked? {
        if row.revocation.reason == Rotated {
          var _ := UpdateRevoked(OfUser(row.token.userId), now, ReplayDetected);
          return ReplayRejected;
        }
        return Unauthorized;
      }
      if row.token.userId !in users { return Unauthorized; }
      if users[row.token.userId] == Denied {
        var _ := UpdateRevoked(ById(id), now, AdminDenied);
        return Unauthorized;
      }
      var affected := UpdateRevoked(ById(id), now, Rotated);
      if !affected { return Unauthorized; }
      answer := IssueTokens(row.token.userId, row.token.keepSignedIn, Some(row.token), now, f);
      assert Continues(row, hash, answer);
    }

    method RevokeOtherSessions(u: UserId, hash: Hash, now: Time) returns (answer: Answer)
      requires Valid()
      modifies this`tokens
      ensures Valid()
      ensures (Snapshot(), answer) == RevokeOthers(old(Snapshot()), now, u, hash)
    {
      var found := FindOneByHash(hash);
      if found.None? || tokens[found.value].token.userId != u || !tokens[found.value].Active(now) {
        return Unauthorized;
      }
      var _ := UpdateRevoked(OfUserExceptSession(u, tokens[found.value].token.sessionUuid), now, UserRevoked);
      answer := Done;
    }

    method RevokeSession(u: UserId, s: SessionUuid, now: Time) returns (answer: Answer)
      requires Valid()
      modifies this`tokens
      ensures Valid()
      ensures (Snapshot(), answer) == RevokeOne(old(Snapshot()), now, u, s)
    {
      var affected := UpdateRevoked(OfSession(u, s), now, UserRevoked);
      answer := if affected then Done else NotFound;
    }

    /** The automatic login of the default user. */
    method LogInDefault(ipAllowed: bool, now: Time, f: Fresh) returns (answer: Answer)
      requires Valid()
      requires forall id :: id in tokens ==> tokens[id].token.tokenHash != f.hash
      modifies this`tokens, this`nextRow
      ensures Valid()
      ensures (Snapshot(), answer) == AutoLogin(old(Snapshot()), now, ipAllowed, f, true)
      ensures answer.Session? <==> ipAllowed && defaultUser.Some? && defaultUser.value in users
      ensures answer.Session? ==>
        && answer.userId == defaultUser.value && old(nextRow) in tokens
        && tokens[old(nextRow)].Live() && !tokens[old(nextRow)].token.keepSignedIn
      ensures !answer.Session? ==> Snapshot() == old(Snapshot())
    {
      if !ipAllowed || defaultUser.None? || defaultUser.value !in users { return LoggedOut; }
      answer := IssueTokens(defaultUser.value, false, None, now, f);
    }

    method ReportStatus(hash: Hash, ipAllowed: bool, now: Time, f: Fresh) returns (answer: Answer)
      requires Valid()
      requires forall id :: id in tokens ==> tokens[id].token.tokenHash != f.hash
      modifies this`tokens, this`nextRow
      ensures Valid()
      ensures (Snapshot(), answer) == StatusOf(old(Snapshot()), now, hash, ipAllowed, f, true)
    {
      var found := FindOneByHash(hash);
      if found.Some? && tokens[found.value].Active(now) {
        var u := tokens[found.value].token.userId;
        if u in users && users[u] == Denied {
          var _ := UpdateRevoked(ById(found.value), now, AdminDenied);
        } else {
          return if u in users && users[u] == Pending then PendingUser else LoggedIn;
        }
      }
      answer := LogInDefault(ipAllowed, now, f);
    }

    /** The conditional UPDATE `pending → approved`. */
    method ApproveUser(u: UserId) returns (answer: Answer)
      requires Valid()
      modifies this`users
      ensures Valid()
      ensures (Snapshot(), answer) == Approval(old(Snapshot()), u)
      ensures answer == if u !in old(users) then NotFound else if old(users)[u] == Pending then Done else NotPending
      ensures users == if answer == Done then old(users)[u := Approved] else old(users)
    {
      if u !in users { return NotFound; }
      if users[u] != Pending { return NotPending; }
      users := users[u := Approved];
      answer := Done;
    }

    /** Denies and signs out everywhere, in that order. */
    method DenyUser(u: UserId, callerId: UserId, now: Time) returns (answer: Answer)
      requires Valid()
      modifies this`users, this`tokens
      ensures Valid()
      ensures (Snapshot(), answer) == Denial(old(Snapshot()), now, u, callerId)
    {
      if u !in users { return NotFound; }
      if defaultUser == Some(u) { return Conflict; }
      if u == callerId { return CannotDenySelf; }
      users := users[u := Denied];
      var _ := UpdateRevoked(OfUser(u), now, AdminDenied);
      answer := Done;
    }
  }
}
