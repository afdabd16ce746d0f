/**
 * The `auth_refresh_tokens` table and the SQL statements the Auth module runs
 * on it. A token is identified by its SHA-256 hash; the plaintext never
 * reaches the table, so a presented token is represented by its hash.
 */
module RefreshTokens {
  import opened Prelude

  type Hash = nat
  type SessionUuid = nat

  datatype Reason =
    | Rotated
    | Logout
    | UserRevoked
    | PasswordChange
    | PasswordReset
    | AdminPasswordChange
    | ReplayDetected
    | AdminDenied

  /** The `revoked_at` / `revoked_reason` pair: both null or both set. */
  datatype Revocation = Unrevoked | Revoked(at: Time, reason: Reason)

  /** The columns written by the INSERT and never updated. */
  datatype Token = Token(
    tokenHash: Hash,
    userId: UserId,
    issuedAt: Time,
    expiresAt: Time,
    keepSignedIn: bool,
    sessionUuid: SessionUuid,
    startedAt: Time)

  datatype Row = Row(token: Token, revocation: Revocation) {
    predicate Live() { revocation.Unrevoked? }

    /** Live and unexpired, as `findActiveToken`, `listActive` and the gate test it. */
    predicate Active(now: Time) { Live() && token.expiresAt > now }

    predicate RevokedFor(reason: Reason) {
      revocation.Revoked? && revocation.reason == reason
    }
  }

  type Table = map<RowId, Row>

  /** The WHERE clauses of the module's revoking UPDATEs (each also requires `revoked_at IS NULL`). */
  datatype Where =
    | ById(id: RowId)
    | ByHash(hash: Hash)
    | OfUser(userId: UserId)
    | OfUserExceptHash(userId: UserId, hash: Hash)
    | OfSession(userId: UserId, session: SessionUuid)
    | OfUserExceptSession(userId: UserId, session: SessionUuid)
  {
    predicate Matches(rowId: RowId, row: Row) {
      match this
      case ById(id) => rowId == id
      case ByHash(hash) => row.token.tokenHash == hash
      case OfUser(u) => row.token.userId == u
      case OfUserExceptHash(u, hash) => row.token.userId == u && row.token.tokenHash != hash
      case OfSession(u, s) => row.token.userId == u && row.token.sessionUuid == s
      case OfUserExceptSession(u, s) => row.token.userId == u && row.token.sessionUuid != s
    }
  }

  /** UPDATE ... SET revoked_at, revoked_reason WHERE <w> AND revoked_at IS NULL. */
  function RevokeWhere(t: Table, w: Where, now: Time, reason: Reason): Table {
    map id | id in t :: RevokeIf(w.Matches(id, t[id]), t[id], now, reason)
  }

  function RevokeIf(matched: bool, row: Row, now: Time, reason: Reason): Row {
    if matched && row.Live() then Row(row.token, Revoked(now, reason)) else row
  }

  /** Whether the UPDATE above affects any row. */
  predicate Affects(t: Table, w: Where) {
    exists id :: id in t && t[id].Live() && w.Matches(id, t[id])
  }

  predicate Expired(row: Row, u: UserId, now: Time) {
    row.token.userId == u && row.token.expiresAt < now
  }

  /** DELETE WHERE user_id = u AND expires_at < now: the opportunistic pruning of every mint. */
  function PruneExpired(t: Table, u: UserId, now: Time): Table {
    map id | id in t && !Expired(t[id], u, now) :: t[id]
  }

  /** SELECT ... WHERE token_hash = hash LIMIT 1: `found` is some matching row, or there is none. */
  predicate Finds(t: Table, hash: Hash, found: Option<RowId>) {
    match found
    case Some(id) => id in t && t[id].token.tokenHash == hash
    case None => forall id :: id in t ==> t[id].token.tokenHash != hash
  }
}
