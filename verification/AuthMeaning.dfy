/**
 * What the Auth module's operations give their callers, row by row and
 * answer by answer, independently of how they are composed.
 */
module AuthMeaning {
  import opened Prelude
  import opened RefreshTokens
  import opened SessionProtocol
  import opened AuthService
  import SessionTheorems

  // ---- Effects on the table ----

  /** Exactly the unrevoked rows that satisfy `who` become revoked, now and for `reason`. */
  ghost predicate RevokesExactly(t: Table, t': Table, who: (RowId, Token) -> bool, now: Time, reason: Reason) {
    t'.Keys == t.Keys &&
    forall id :: id in t ==>
      t'[id] == if t[id].revocation.Unrevoked? && who(id, t[id].token) then Row(t[id].token, Revoked(now, reason))
                else t[id]
  }

  /** The user's expired rows go, one unrevoked row comes, every other row stays as it was. */
  ghost predicate MintsExactly(t: Table, t': Table, id: RowId, u: UserId, now: Time) {
    && id in t' && t'[id].revocation.Unrevoked? && t'[id].token.userId == u && t'[id].token.issuedAt == now
    && forall other :: other != id ==>
         (other in t' <==> other in t && !(t[other].token.userId == u && t[other].token.expiresAt < now))
         && (other in t' ==> t'[other] == t[other])
  }

  // ---- Sessions handed out ----

  /** The new session of a login, registration, claimed poll or automatic login. */
  ghost predicate NewSession(db: Db, db': Db, a: Answer, u: UserId, keep: bool, now: Time, f: Fresh) {
    && a == Session(u, f.uuid, f.hash, now + f.ttl)
    && MintsExactly(db.tokens, db'.tokens, db.nextRow, u, now) && Carries(db'.tokens[db.nextRow], a)
    && db'.tokens[db.nextRow].token.keepSignedIn == keep && db'.tokens[db.nextRow].token.startedAt == now
    && db'.nextRow == db.nextRow + 1 && db'.defaultUser == db.defaultUser
  }

  lemma IssueMeans(db: Db, now: Time, u: UserId, keep: bool, f: Fresh)
    requires ValidDb(db)
    ensures var (db', a) := Issue(db, now, u, keep, None, f, true);
      NewSession(db, db', a, u, keep, now, f) && db'.users == db.users
  {
  }

  /** A session exactly for the right password of a user who is not denied. */
  lemma LoginMeans(db: Db, now: Time, u: UserId, keep: bool, passwordMatches: bool, f: Fresh)
    requires ValidDb(db)
    ensures var (db', a) := Login(db, now, u, keep, passwordMatches, f, true);
      && db'.users == db.users
      && (a == Unauthorized <==> u !in db.users || !passwordMatches)
      && (a == Forbidden <==> u in db.users && passwordMatches && db.users[u] == Denied)
      && (u in db.users && passwordMatches && db.users[u] != Denied ==> NewSession(db, db', a, u, keep, now, f))
      && (!a.Session? ==> db' == db)
  {
    IssueMeans(db, now, u, keep, f);
  }

  /** A taken name is refused; anyone else gets a row of their status and a session that is not kept. */
  lemma RegistrationMeans(db: Db, now: Time, u: UserId, status: Status, f: Fresh)
    requires ValidDb(db)
    ensures var (db', a) := Registration(db, now, u, status, f, true);
      if u in db.users then a == Conflict && db' == db
      else db'.users == db.users[u := status] && NewSession(db, db', a, u, false, now, f)
  {
    IssueMeans(db.(users := db.users[u := status]), now, u, false, f);
  }

  /** A claimed request mints exactly for an approved user. */
  lemma ClaimMeans(db: Db, now: Time, u: UserId, keep: bool, f: Fresh)
    requires ValidDb(db)
    ensures var (db', a) := Claimed(db, now, u, keep, f, true);
      && db'.users == db.users
      && if u in db.users && db.users[u] == Approved then NewSession(db, db', a, u, keep, now, f)
         else a == Unauthorized && db' == db
  {
    IssueMeans(db, now, u, keep, f);
  }

  lemma AutoLoginMeans(db: Db, now: Time, ipAllowed: bool, f: Fresh)
    requires ValidDb(db)
    ensures var (db', a) := AutoLogin(db, now, ipAllowed, f, true);
      && db'.users == db.users
      && if ipAllowed && db.defaultUser.Some? && db.defaultUser.value in db.users
         then NewSession(db, db', a, db.defaultUser.value, false, now, f)
         else a == LoggedOut && db' == db
  {
    if db.defaultUser.Some? { IssueMeans(db, now, db.defaultUser.value, false, f); }
  }

  // ---- Refresh ----

  lemma UnknownToken(db: Db, hash: Hash)
    requires forall id :: id in db.tokens ==> db.tokens[id].token.tokenHash != hash
    ensures RowWithHash(db.tokens, hash) == None
  {
    assert Finds(db.tokens, hash, RowWithHash(db.tokens, hash));
  }

  lemma KnownToken(db: Db, hash: Hash, id: RowId)
    requires ValidDb(db) && id in db.tokens && db.tokens[id].token.tokenHash == hash
    ensures RowWithHash(db.tokens, hash) == Some(id)
  {
    assert Finds(db.tokens, hash, RowWithHash(db.tokens, hash));
  }

  /** The presented row may be rotated for this user. */
  predicate Rotatable(db: Db, row: Row, now: Time) {
    && row.revocation.Unrevoked? && row.token.expiresAt >= now
    && row.token.userId in db.users && db.users[row.token.userId] != Denied
  }

  /**
   * A refresh hands out a session exactly for a rotatable row: the session of
   * the presented row, to its user, carried by the one new row; the presented
   * row stays behind, revoked as rotated, and nothing else is revoked.
   */
  lemma RotationMeans(db: Db, now: Time, hash: Hash, f: Fresh, id: RowId)
    requires ValidDb(db) && id in db.tokens && db.tokens[id].token.tokenHash == hash
    ensures var (db', a) := Refresh(db, now, hash, f, true); var row := db.tokens[id];
      && (a.Session? <==> Rotatable(db, row, now))
      && (a.Session? ==>
            && a == Session(row.token.userId, row.token.sessionUuid, f.hash, now + f.ttl)
            && db'.users == db.users && db'.nextRow == db.nextRow + 1
            && MintsExactly(db.tokens[id := Row(row.token, Revoked(now, Rotated))], db'.tokens, db.nextRow, a.userId,
                            now)
            && Carries(db'.tokens[db.nextRow], a) && id in db'.tokens && id != db.nextRow
            && db'.tokens[id] == Row(row.token, Revoked(now, Rotated))
            && db'.tokens[db.nextRow].token.keepSignedIn == row.token.keepSignedIn
            && db'.tokens[db.nextRow].token.startedAt == row.token.startedAt)
  {
    KnownToken(db, hash, id);
    if Rotatable(db, db.tokens[id], now) {
      assert RevokeWhere(db.tokens, ById(id), now, Rotated)
          == db.tokens[id := Row(db.tokens[id].token, Revoked(now, Rotated))];
    }
  }

  /** Every other refresh: replay, denial, or nothing at all. */
  lemma RefusedRefreshMeans(db: Db, now: Time, hash: Hash, f: Fresh, id: RowId)
    requires ValidDb(db) && id in db.tokens && db.tokens[id].token.tokenHash == hash
    requires !Rotatable(db, db.tokens[id], now)
    ensures var (db', a) := Refresh(db, now, hash, f, true); var row := db.tokens[id];
      var replayed := row.token.expiresAt >= now && row.revocation.Revoked? && row.revocation.reason == Rotated;
      var denied := row.token.expiresAt >= now && row.revocation.Unrevoked? && row.token.userId in db.users;
      && db'.users == db.users && db'.nextRow == db.nextRow
      && (a == ReplayRejected <==> replayed) && (a == Unauthorized <==> !replayed)
      && (replayed ==>
            RevokesExactly(db.tokens, db'.tokens, (_, t: Token) => t.userId == row.token.userId, now, ReplayDetected))
      && (denied ==> RevokesExactly(db.tokens, db'.tokens, (i, _) => i == id, now, AdminDenied))
      && (!replayed && !denied ==> db' == db)
  {
    KnownToken(db, hash, id);
  }

  lemma UnknownRefreshMeans(db: Db, now: Time, hash: Hash, f: Fresh)
    requires forall id :: id in db.tokens ==> db.tokens[id].token.tokenHash != hash
    ensures Refresh(db, now, hash, f, true) == (db, Unauthorized)
  {
    UnknownToken(db, hash);
  }

  // ---- The gate ----

  /** All rows of a session belong to one user. */
  ghost predicate OneUserPerSession(t: Table) {
    forall a, b :: a in t && b in t && t[a].token.sessionUuid == t[b].token.sessionUuid ==>
      t[a].token.userId == t[b].token.userId
  }

  /** The gate of the one-call view is the gate of the interleaved one. */
  lemma GateAgrees(st: State, sub: UserId, sid: SessionUuid)
    ensures SessionTheorems.GateAdmits(st, sub, sid)
      <==> sub in GateUsers(Db(st.users, st.tokens, st.nextRow, st.defaultUser), st.now, sid)
  {
  }

  /** A session just handed out to an approved user is admitted by the gate, for that user and nobody else. */
  lemma RefreshedSessionIsAdmitted(db: Db, now: Time, hash: Hash, f: Fresh, id: RowId)
    requires ValidDb(db) && OneUserPerSession(db.tokens) && f.ttl > 0
    requires id in db.tokens && db.tokens[id].token.tokenHash == hash && Rotatable(db, db.tokens[id], now)
    ensures var (db', a) := Refresh(db, now, hash, f, true);
      && a.Session?
      && GateUsers(db', now, a.session) == (if db.users[a.userId] == Approved then {a.userId} else {})
  {
    RotationMeans(db, now, hash, f, id);
    var (db', a) := Refresh(db, now, hash, f, true);
    forall i | i in db'.tokens && db'.tokens[i].token.sessionUuid == a.session
      ensures db'.tokens[i].token.userId == a.userId
    {
      if i != db.nextRow && i != id { assert i in db.tokens && db.tokens[i] == db'.tokens[i]; }
    }
    assert db'.tokens[db.nextRow].Active(now);
  }

  /** The same for a session just begun under a uuid no row carries. */
  lemma NewSessionIsAdmitted(db: Db, db': Db, a: Answer, u: UserId, keep: bool, now: Time, f: Fresh)
    requires NewSession(db, db', a, u, keep, now, f) && f.ttl > 0 && u in db'.users
    requires forall id :: id in db.tokens ==> db.tokens[id].token.sessionUuid != f.uuid
    ensures GateUsers(db', now, a.session) == if db'.users[u] == Approved then {u} else {}
  {
    assert forall i :: i in db'.tokens && i != db.nextRow ==> i in db.tokens && db'.tokens[i] == db.tokens[i];
    assert db'.tokens[db.nextRow].Active(now);
  }

  // ---- Status ----

  /** An unrevoked, unexpired row decides alone, unless its user is denied; otherwise the automatic login does. */
  lemma StatusMeans(db: Db, now: Time, hash: Hash, ipAllowed: bool, f: Fresh, id: RowId)
    requires ValidDb(db) && id in db.tokens && db.tokens[id].token.tokenHash == hash
    ensures var (db', a) := StatusOf(db, now, hash, ipAllowed, f, true);
      var row, u := db.tokens[id], db.tokens[id].token.userId;
      var active := row.revocation.Unrevoked? && row.token.expiresAt > now;
      if active && u in db.users && db.users[u] == Pending then a == PendingUser && db' == db
      else if active && (u in db.users ==> db.users[u] == Approved) then a == LoggedIn && db' == db
      else if active then
        var out := db.(tokens := db.tokens[id := Row(row.token, Revoked(now, AdminDenied))]);
        (db', a) == AutoLogin(out, now, ipAllowed, f, true)
      else (db', a) == AutoLogin(db, now, ipAllowed, f, true)
  {
    KnownToken(db, hash, id);
    var row := db.tokens[id];
    if row.Live() {
      assert RevokeWhere(db.tokens, ById(id), now, AdminDenied)
          == db.tokens[id := Row(row.token, Revoked(now, AdminDenied))];
    }
  }

  lemma UnknownStatusMeans(db: Db, now: Time, hash: Hash, ipAllowed: bool, f: Fresh)
    requires forall id :: id in db.tokens ==> db.tokens[id].token.tokenHash != hash
    ensures StatusOf(db, now, hash, ipAllowed, f, true) == AutoLogin(db, now, ipAllowed, f, true)
  {
    UnknownToken(db, hash);
  }

  // ---- Revocations ----

  /** Logout revokes the presented token and nothing else. */
  lemma LogoutMeans(db: Db, now: Time, hash: Hash, f: Fresh)
    ensures var (db', a) := Perform(db, now, OpLogout(hash), f, true);
      && a == Done && db'.users == db.users
      && RevokesExactly(db.tokens, db'.tokens, (_, t: Token) => t.tokenHash == hash, now, Logout)
  {
  }

  /** A password change or reset revokes the user's rows, but for the one whose token is kept. */
  lemma RevokeUserMeans(db: Db, now: Time, u: UserId, reason: Reason, keep: Option<Hash>, f: Fresh)
    ensures var (db', a) := Perform(db, now, OpRevokeUser(u, reason, keep), f, true);
      && a == Done && db'.users == db.users
      && RevokesExactly(db.tokens, db'.tokens, (_, t: Token) => t.userId == u && keep != Some(t.tokenHash), now, reason)
  {
  }

  /** Revoking a session: its unrevoked rows, not found exactly when there are none. */
  lemma RevokeSessionMeans(db: Db, now: Time, u: UserId, s: SessionUuid)
    ensures var (db', a) := RevokeOne(db, now, u, s);
      && db'.users == db.users
      && RevokesExactly(db.tokens, db'.tokens, (_, t: Token) => t.userId == u && t.sessionUuid == s, now, UserRevoked)
      && a == (if UnrevokedIn(db.tokens, u, s) then Done else NotFound)
  {
    var w := OfSession(u, s);
    if id :| id in db.tokens && UnrevokedRow(db.tokens[id], u, s) {
      assert db.tokens[id].Live() && w.Matches(id, db.tokens[id]);
    }
    if id :| id in db.tokens && db.tokens[id].Live() && w.Matches(id, db.tokens[id]) {
      assert UnrevokedRow(db.tokens[id], u, s);
    }
  }

  predicate UnrevokedRow(row: Row, u: UserId, s: SessionUuid) {
    row.revocation.Unrevoked? && row.token.userId == u && row.token.sessionUuid == s
  }

  predicate UnrevokedIn(t: Table, u: UserId, s: SessionUuid) {
    exists id :: id in t && UnrevokedRow(t[id], u, s)
  }

  /** The caller's own active token is needed; then every row of theirs outside its session goes. */
  lemma RevokeOthersMeans(db: Db, now: Time, u: UserId, hash: Hash, id: RowId)
    requires ValidDb(db) && id in db.tokens && db.tokens[id].token.tokenHash == hash
    ensures var (db', a) := RevokeOthers(db, now, u, hash); var row := db.tokens[id];
      if row.token.userId == u && row.revocation.Unrevoked? && row.token.expiresAt > now
      then a == Done && db'.users == db.users
        && RevokesExactly(db.tokens, db'.tokens,
                          (_, t: Token) => t.userId == u && t.sessionUuid != row.token.sessionUuid, now, UserRevoked)
      else a == Unauthorized && db' == db
  {
    KnownToken(db, hash, id);
  }

  /** Deny: not found, default user or self change nothing; otherwise the status and exactly the user's rows. */
  lemma DenialMeans(db: Db, now: Time, u: UserId, callerId: UserId)
    ensures var (db', a) := Denial(db, now, u, callerId);
      && (a == NotFound <==> u !in db.users)
      && (a == Conflict <==> u in db.users && db.defaultUser == Some(u))
      && (a == CannotDenySelf <==> u in db.users && db.defaultUser != Some(u) && u == callerId)
      && (a == Done || db' == db)
      && (a == Done ==>
            && db'.users == db.users[u := Denied]
            && RevokesExactly(db.tokens, db'.tokens, (_, t: Token) => t.userId == u, now, AdminDenied))
      && a in {NotFound, Conflict, CannotDenySelf, Done}
  {
  }

  /** Approve: exactly a pending user becomes approved; a missing or decided one changes nothing. */
  lemma ApprovalMeans(db: Db, u: UserId)
    ensures var (db', a) := Approval(db, u);
      && db'.tokens == db.tokens
      && (a == NotFound <==> u !in db.users) && (a == NotPending <==> u in db.users && db.users[u] != Pending)
      && (if u in db.users && db.users[u] == Pending
          then a == Done && u in db'.users && db'.users[u] == Approved && db'.users == db.users[u := Approved]
          else db' == db)
  {
  }

  /** The listing: the user's unrevoked, unexpired rows, all of them and no others. */
  lemma ListActiveMeans(db: Db, now: Time, u: UserId, row: Row)
    ensures row in ListActive(db, now, u)
      <==> row in db.tokens.Values && row.token.userId == u && row.revocation.Unrevoked? && row.token.expiresAt > now
  {
  }

  /** The active row behind a token, if it has one. */
  lemma FindActiveMeans(db: Db, now: Time, hash: Hash, id: RowId)
    requires ValidDb(db) && id in db.tokens && db.tokens[id].token.tokenHash == hash
    ensures FindActive(db, now, hash)
      == if db.tokens[id].revocation.Unrevoked? && db.tokens[id].token.expiresAt > now
         then Some(db.tokens[id]) else None
  {
    KnownToken(db, hash, id);
  }
}
