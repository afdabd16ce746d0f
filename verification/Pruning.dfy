/**
 * Opportunistic pruning is invisible: a store that deletes expired rows on
 * every mint answers like one that never deletes. `revoke`, whose query
 * ignores expiry, is the one exception, characterised exactly.
 */
module Pruning {
  import opened Prelude
  import opened RefreshTokens
  import opened SessionProtocol
  import opened AuthService

  /** `lean` is `full` without some rows that have already expired. */
  ghost predicate PrunedFrom(lean: Db, full: Db, now: Time) {
    && lean.users == full.users && lean.nextRow == full.nextRow && lean.defaultUser == full.defaultUser
    && ValidDb(full)
    && (forall id :: id in lean.tokens ==> id in full.tokens && lean.tokens[id] == full.tokens[id])
    && (forall id :: id in full.tokens && id !in lean.tokens ==> full.tokens[id].token.expiresAt < now)
  }

  /** The timed operations of a run, with the random values each one draws. */
  datatype Event = Event(now: Time, op: Op, draws: Fresh)

  /** The hash a mint draws is not already stored (48 random bytes). */
  ghost predicate FreshFor(db: Db, f: Fresh) {
    forall id :: id in db.tokens ==> db.tokens[id].token.tokenHash != f.hash
  }

  lemma LaterIsFine(lean: Db, full: Db, now: Time, later: Time)
    requires PrunedFrom(lean, full, now) && now <= later
    ensures PrunedFrom(lean, full, later)
  {
  }

  lemma SameLookup(lean: Db, full: Db, now: Time, hash: Hash)
    requires PrunedFrom(lean, full, now)
    ensures var l, f := RowWithHash(lean.tokens, hash), RowWithHash(full.tokens, hash);
      l == f || (l == None && f.Some? && full.tokens[f.value].token.expiresAt < now)
  {
    var l, f := RowWithHash(lean.tokens, hash), RowWithHash(full.tokens, hash);
    assert Finds(lean.tokens, hash, l) && Finds(full.tokens, hash, f);
  }

  lemma SameRevocation(lean: Db, full: Db, w: Where, now: Time, reason: Reason)
    requires PrunedFrom(lean, full, now)
    ensures PrunedFrom(RevokeIn(lean, w, now, reason), RevokeIn(full, w, now, reason), now)
  {
  }

  lemma SameIssue(lean: Db, full: Db, now: Time, u: UserId, keep: bool, session: Option<Token>, f: Fresh)
    requires PrunedFrom(lean, full, now) && FreshFor(full, f)
    ensures var (l, a), (g, b) := Issue(lean, now, u, keep, session, f, true),
      Issue(full, now, u, keep, session, f, false);
      a == b && PrunedFrom(l, g, now)
  {
  }

  lemma SameRefresh(lean: Db, full: Db, now: Time, hash: Hash, f: Fresh)
    requires PrunedFrom(lean, full, now) && FreshFor(full, f)
    ensures var (l, a), (g, b) := Refresh(lean, now, hash, f, true), Refresh(full, now, hash, f, false);
      a == b && PrunedFrom(l, g, now)
  {
    SameLookup(lean, full, now, hash);
    var found := RowWithHash(lean.tokens, hash);
    if found.Some? {
      SameRefreshRow(lean, full, now, found.value, f);
    }
  }

  lemma SameRefreshRow(lean: Db, full: Db, now: Time, id: RowId, f: Fresh)
    requires PrunedFrom(lean, full, now) && FreshFor(full, f) && id in lean.tokens
    ensures var (l, a), (g, b) := RefreshRow(lean, now, id, f, true), RefreshRow(full, now, id, f, false);
      a == b && PrunedFrom(l, g, now)
  {
    var row := lean.tokens[id];
    var token := row.token;
    if row.RevokedFor(Rotated) {
      SameRevocation(lean, full, OfUser(token.userId), now, ReplayDetected);
    } else if token.userId in lean.users && lean.users[token.userId] == Denied {
      SameRevocation(lean, full, ById(id), now, AdminDenied);
    } else {
      SameRevocation(lean, full, ById(id), now, Rotated);
      SameIssue(RevokeIn(lean, ById(id), now, Rotated), RevokeIn(full, ById(id), now, Rotated), now,
                token.userId, token.keepSignedIn, Some(token), f);
    }
  }

  lemma SameRevokeOthers(lean: Db, full: Db, now: Time, u: UserId, hash: Hash)
    requires PrunedFrom(lean, full, now)
    ensures var (l, a), (g, b) := RevokeOthers(lean, now, u, hash), RevokeOthers(full, now, u, hash);
      a == b && PrunedFrom(l, g, now)
  {
    SameLookup(lean, full, now, hash);
    var found := RowWithHash(lean.tokens, hash);
    if found.Some? {
      SameRevocation(lean, full, OfUserExceptSession(u, lean.tokens[found.value].token.sessionUuid), now, UserRevoked);
    }
  }

  lemma SameQueries(lean: Db, full: Db, now: Time, u: UserId, s: SessionUuid, hash: Hash)
    requires PrunedFrom(lean, full, now)
    ensures FindActive(lean, now, hash) == FindActive(full, now, hash)
    ensures ListActive(lean, now, u) == ListActive(full, now, u)
    ensures GateUsers(lean, now, s) == GateUsers(full, now, s)
  {
    SameLookup(lean, full, now, hash);
    ActiveRowsSurvive(lean, full, now);
    assert ListActive(lean, now, u) == ListActive(full, now, u);
    assert GateUsers(lean, now, s) == GateUsers(full, now, s);
  }

  lemma ActiveRowsSurvive(lean: Db, full: Db, now: Time)
    requires PrunedFrom(lean, full, now)
    ensures forall id :: id in full.tokens && full.tokens[id].Active(now) ==>
      id in lean.tokens && lean.tokens[id] == full.tokens[id]
    ensures forall id :: id in lean.tokens ==> id in full.tokens && lean.tokens[id] == full.tokens[id]
  {
  }

  lemma SameAutoLogin(lean: Db, full: Db, now: Time, ipAllowed: bool, f: Fresh)
    requires PrunedFrom(lean, full, now) && FreshFor(full, f)
    ensures var (l, a), (g, b) := AutoLogin(lean, now, ipAllowed, f, true), AutoLogin(full, now, ipAllowed, f, false);
      a == b && PrunedFrom(l, g, now)
  {
    if full.defaultUser.Some? { SameIssue(lean, full, now, full.defaultUser.value, false, None, f); }
  }

  lemma SameStatus(lean: Db, full: Db, now: Time, hash: Hash, ipAllowed: bool, f: Fresh)
    requires PrunedFrom(lean, full, now) && FreshFor(full, f)
    ensures var (l, a), (g, b) :=
        StatusOf(lean, now, hash, ipAllowed, f, true), StatusOf(full, now, hash, ipAllowed, f, false);
      a == b && PrunedFrom(l, g, now)
  {
    SameLookup(lean, full, now, hash);
    SameAutoLogin(lean, full, now, ipAllowed, f);
    var found := RowWithHash(lean.tokens, hash);
    if found.Some? { SameStatusRow(lean, full, now, found.value, ipAllowed, f); }
  }

  lemma SameStatusRow(lean: Db, full: Db, now: Time, id: RowId, ipAllowed: bool, f: Fresh)
    requires PrunedFrom(lean, full, now) && FreshFor(full, f) && id in lean.tokens
    ensures var (l, a), (g, b) :=
        StatusRow(lean, now, id, ipAllowed, f, true), StatusRow(full, now, id, ipAllowed, f, false);
      a == b && PrunedFrom(l, g, now)
  {
    SameAutoLogin(lean, full, now, ipAllowed, f);
    SameRevocation(lean, full, ById(id), now, AdminDenied);
    SameAutoLogin(RevokeIn(lean, ById(id), now, AdminDenied), RevokeIn(full, ById(id), now, AdminDenied), now,
      ipAllowed, f);
  }

  lemma SameUserWrites(lean: Db, full: Db, now: Time, users: map<UserId, Status>)
    requires PrunedFrom(lean, full, now)
    ensures PrunedFrom(lean.(users := users), full.(users := users), now)
  {
  }

  lemma SameDenial(lean: Db, full: Db, now: Time, u: UserId, callerId: UserId)
    requires PrunedFrom(lean, full, now)
    ensures var (l, a), (g, b) := Denial(lean, now, u, callerId), Denial(full, now, u, callerId);
      a == b && PrunedFrom(l, g, now)
  {
    var users := full.users[u := Denied];
    SameUserWrites(lean, full, now, users);
    SameRevocation(lean.(users := users), full.(users := users), OfUser(u), now, AdminDenied);
  }

  lemma SameRegistration(lean: Db, full: Db, now: Time, u: UserId, status: Status, f: Fresh)
    requires PrunedFrom(lean, full, now) && FreshFor(full, f)
    ensures var (l, a), (g, b) :=
        Registration(lean, now, u, status, f, true), Registration(full, now, u, status, f, false);
      a == b && PrunedFrom(l, g, now)
  {
    var users := full.users[u := status];
    SameUserWrites(lean, full, now, users);
    SameIssue(lean.(users := users), full.(users := users), now, u, false, None, f);
  }

  /** The operations on sessions: same answer (except `revoke`) and the stores stay related. */
  lemma SameSessionStep(lean: Db, full: Db, now: Time, op: Op, f: Fresh)
    requires PrunedFrom(lean, full, now) && FreshFor(full, f)
    requires op.OpLogin? || op.OpClaim? || op.OpLogout? || op.OpRevoke? || op.OpRevokeUser?
    ensures var (l, a), (g, b) := Perform(lean, now, op, f, true), Perform(full, now, op, f, false);
      (!op.OpRevoke? ==> a == b) && PrunedFrom(l, g, now)
  {
    match op
    case OpLogin(u, keep, _) => SameIssue(lean, full, now, u, keep, None, f);
    case OpClaim(u, keep) => SameIssue(lean, full, now, u, keep, None, f);
    case OpLogout(hash) => SameRevocation(lean, full, ByHash(hash), now, Logout);
    case OpRevoke(u, s) => SameRevocation(lean, full, OfSession(u, s), now, UserRevoked);
    case OpRevokeUser(u, reason, keep) => SameRevocation(lean, full, KeepClause(u, keep), now, reason);
  }

  /** One operation: same answer (except `revoke`) and the stores stay related. */
  lemma SameStep(lean: Db, full: Db, now: Time, op: Op, f: Fresh)
    requires PrunedFrom(lean, full, now) && FreshFor(full, f)
    ensures var (l, a), (g, b) := Perform(lean, now, op, f, true), Perform(full, now, op, f, false);
      (!op.OpRevoke? ==> a == b) && PrunedFrom(l, g, now)
  {
    match op
    case OpRefresh(hash) => SameRefresh(lean, full, now, hash, f);
    case OpFindActive(hash) => SameQueries(lean, full, now, 0, 0, hash);
    case OpListActive(u) => SameQueries(lean, full, now, u, 0, 0);
    case OpRevokeOthers(u, hash) => SameRevokeOthers(lean, full, now, u, hash);
    case OpGate(s) => SameQueries(lean, full, now, 0, s, 0);
    case OpRegister(u, status) => SameRegistration(lean, full, now, u, status, f);
    case OpStatus(hash, ipAllowed) => SameStatus(lean, full, now, hash, ipAllowed, f);
    case OpApprove(u) => SameUserWrites(lean, full, now, full.users[u := Approved]);
    case OpDeny(u, callerId) => SameDenial(lean, full, now, u, callerId);
    case OpLogin(_, _, _) => SameSessionStep(lean, full, now, op, f);
    case OpClaim(_, _) => SameSessionStep(lean, full, now, op, f);
    case OpLogout(_) => SameSessionStep(lean, full, now, op, f);
    case OpRevoke(_, _) => SameSessionStep(lean, full, now, op, f);
    case OpRevokeUser(_, _, _) => SameSessionStep(lean, full, now, op, f);
  }

  /** A monotone clock, positive TTLs and unused hashes along the never-pruning store's run. */
  ghost predicate ValidEvents(full: Db, now: Time, events: seq<Event>)
    decreases |events|
  {
    events == [] ||
    var e := events[0];
    && now <= e.now && e.draws.ttl > 0 && FreshFor(full, e.draws)
    && ValidEvents(Perform(full, e.now, e.op, e.draws, false).0, e.now, events[1..])
  }

  /** Every answer of a run, in order. */
  ghost function Answers(db: Db, events: seq<Event>, pruning: bool): (answers: seq<Answer>)
    ensures |answers| == |events|
    decreases |events|
  {
    if events == [] then []
    else
      var (db', a) := Perform(db, events[0].now, events[0].op, events[0].draws, pruning);
      [a] + Answers(db', events[1..], pruning)
  }

  /** The store after a run. */
  ghost function Final(db: Db, events: seq<Event>, pruning: bool): Db
    decreases |events|
  {
    if events == [] then db
    else Final(Perform(db, events[0].now, events[0].op, events[0].draws, pruning).0, events[1..], pruning)
  }

  /** Two runs answer alike wherever the operation is not `revoke`. */
  ghost predicate AlikeButRevoke(events: seq<Event>, a: seq<Answer>, b: seq<Answer>) {
    && |a| == |b| == |events|
    && forall i :: 0 <= i < |events| && !events[i].op.OpRevoke? ==> a[i] == b[i]
  }

  /** Pruning on every mint changes no answer of any run of any length. */
  lemma {:induction false} PruningIsInvisible(lean: Db, full: Db, now: Time, events: seq<Event>)
    requires PrunedFrom(lean, full, now) && ValidEvents(full, now, events)
    ensures AlikeButRevoke(events, Answers(lean, events, true), Answers(full, events, false))
    decreases |events|
  {
    if events == [] {
    } else {
      var e := events[0];
      LaterIsFine(lean, full, now, e.now);
      SameStep(lean, full, e.now, e.op, e.draws);
      var lean', full' := Perform(lean, e.now, e.op, e.draws, true).0, Perform(full, e.now, e.op, e.draws, false).0;
      PruningIsInvisible(lean', full', e.now, events[1..]);
      forall i | 0 <= i < |events| && !events[i].op.OpRevoke?
        ensures Answers(lean, events, true)[i] == Answers(full, events, false)[i]
      {
        assert i > 0 ==> events[1..][i - 1] == events[i];
      }
    }
  }

  // ---- What pruning has removed, and when `revoke` notices ----

  /** Some operation of the run handed the row's user a new session after the row had expired. */
  ghost predicate MintedAfterExpiry(events: seq<Event>, answers: seq<Answer>, row: Row)
    requires |events| == |answers|
  {
    exists i :: 0 <= i < |events| && MintsPast(events[i].now, answers[i], row)
  }

  predicate MintsPast(at: Time, a: Answer, row: Row) {
    a.Session? && a.userId == row.token.userId && at > row.token.expiresAt
  }

  /** Rows keep their token columns, and a new one expires after the step that wrote it. */
  ghost predicate Grows(before: Db, after: Db, now: Time) {
    && (forall id :: id in before.tokens ==> id in after.tokens && after.tokens[id].token == before.tokens[id].token)
    && (forall id :: id in after.tokens && id !in before.tokens ==> after.tokens[id].token.expiresAt > now)
  }

  /**
   * From `lean` and `full` to `l` and `g`: a mint of the row's user takes an
   * expired row out, and nothing else does.
   */
  ghost predicate PrunesExactly(lean: Db, full: Db, l: Db, g: Db, a: Answer, now: Time) {
    && Grows(full, g, now)
    && (forall id :: id in g.tokens ==>
          (id !in l.tokens <==> (id in full.tokens && id !in lean.tokens) || MintsPast(now, a, g.tokens[id])))
  }

  /** The same rows with the same token columns. */
  ghost predicate SameTokens(a: Db, b: Db) {
    && a.tokens.Keys == b.tokens.Keys
    && forall id :: id in a.tokens ==> b.tokens[id].token == a.tokens[id].token
  }

  lemma ExactStay(lean: Db, full: Db, l: Db, g: Db, a: Answer, now: Time)
    requires SameTokens(lean, l) && SameTokens(full, g) && !a.Session?
    requires forall id :: id in lean.tokens ==> id in full.tokens
    ensures PrunesExactly(lean, full, l, g, a, now)
  {
  }

  lemma RevokeKeepsTokens(db: Db, w: Where, now: Time, reason: Reason)
    ensures SameTokens(db, RevokeIn(db, w, now, reason))
  {
  }

  lemma ExactIssue(lean: Db, full: Db, now: Time, u: UserId, keep: bool, session: Option<Token>, f: Fresh)
    requires PrunedFrom(lean, full, now) && f.ttl > 0
    ensures var (l, _), (g, b) := Issue(lean, now, u, keep, session, f, true),
      Issue(full, now, u, keep, session, f, false);
      PrunesExactly(lean, full, l, g, b, now)
  {
  }

  /** A step that first changes no token column. */
  lemma ExactAfter(lean: Db, full: Db, lm: Db, fm: Db, l: Db, g: Db, a: Answer, now: Time)
    requires SameTokens(lean, lm) && SameTokens(full, fm) && PrunesExactly(lm, fm, l, g, a, now)
    ensures PrunesExactly(lean, full, l, g, a, now)
  {
  }

  lemma ExactRefresh(lean: Db, full: Db, now: Time, hash: Hash, f: Fresh)
    requires PrunedFrom(lean, full, now) && f.ttl > 0
    ensures var (l, _), (g, b) := Refresh(lean, now, hash, f, true), Refresh(full, now, hash, f, false);
      PrunesExactly(lean, full, l, g, b, now)
  {
    SameLookup(lean, full, now, hash);
    var found := RowWithHash(lean.tokens, hash);
    if found.Some? {
      ExactRefreshRow(lean, full, now, found.value, f);
    } else {
      ExactStay(lean, full, lean, full, Unauthorized, now);
    }
  }

  lemma ExactRefreshRow(lean: Db, full: Db, now: Time, id: RowId, f: Fresh)
    requires PrunedFrom(lean, full, now) && f.ttl > 0 && id in lean.tokens
    ensures var (l, _), (g, b) := RefreshRow(lean, now, id, f, true), RefreshRow(full, now, id, f, false);
      PrunesExactly(lean, full, l, g, b, now)
  {
    var l := RefreshRow(lean, now, id, f, true).0;
    var (g, b) := RefreshRow(full, now, id, f, false);
    if b.Session? {
      ExactRotation(lean, full, now, id, f);
    } else {
      RefusalKeepsTokens(lean, now, id, f, true);
      RefusalKeepsTokens(full, now, id, f, false);
      ExactStay(lean, full, l, g, b, now);
    }
  }

  lemma RefusalKeepsTokens(db: Db, now: Time, id: RowId, f: Fresh, pruning: bool)
    requires id in db.tokens && !RefreshRow(db, now, id, f, pruning).1.Session?
    ensures SameTokens(db, RefreshRow(db, now, id, f, pruning).0)
  {
    RevokeKeepsTokens(db, OfUser(db.tokens[id].token.userId), now, ReplayDetected);
    RevokeKeepsTokens(db, ById(id), now, AdminDenied);
  }

  lemma ExactRotation(lean: Db, full: Db, now: Time, id: RowId, f: Fresh)
    requires PrunedFrom(lean, full, now) && f.ttl > 0 && id in lean.tokens
    requires RefreshRow(full, now, id, f, false).1.Session?
    ensures var (l, _), (g, b) := RefreshRow(lean, now, id, f, true), RefreshRow(full, now, id, f, false);
      PrunesExactly(lean, full, l, g, b, now)
  {
    var token := full.tokens[id].token;
    var lm, fm := RevokeIn(lean, ById(id), now, Rotated), RevokeIn(full, ById(id), now, Rotated);
    SameRevocation(lean, full, ById(id), now, Rotated);
    RevokeKeepsTokens(lean, ById(id), now, Rotated);
    RevokeKeepsTokens(full, ById(id), now, Rotated);
    ExactIssue(lm, fm, now, token.userId, token.keepSignedIn, Some(token), f);
    var l := RefreshRow(lean, now, id, f, true).0;
    var (g, b) := RefreshRow(full, now, id, f, false);
    ExactAfter(lean, full, lm, fm, l, g, b, now);
  }

  lemma ExactAutoLogin(lean: Db, full: Db, now: Time, ipAllowed: bool, f: Fresh)
    requires PrunedFrom(lean, full, now) && f.ttl > 0
    ensures var (l, _), (g, b) := AutoLogin(lean, now, ipAllowed, f, true), AutoLogin(full, now, ipAllowed, f, false);
      PrunesExactly(lean, full, l, g, b, now)
  {
    ExactStay(lean, full, lean, full, LoggedOut, now);
    if full.defaultUser.Some? { ExactIssue(lean, full, now, full.defaultUser.value, false, None, f); }
  }

  lemma ExactStatus(lean: Db, full: Db, now: Time, hash: Hash, ipAllowed: bool, f: Fresh)
    requires PrunedFrom(lean, full, now) && f.ttl > 0
    ensures var (l, _), (g, b) :=
        StatusOf(lean, now, hash, ipAllowed, f, true), StatusOf(full, now, hash, ipAllowed, f, false);
      PrunesExactly(lean, full, l, g, b, now)
  {
    SameLookup(lean, full, now, hash);
    ExactAutoLogin(lean, full, now, ipAllowed, f);
    var found := RowWithHash(lean.tokens, hash);
    if found.Some? { ExactStatusRow(lean, full, now, found.value, ipAllowed, f); }
  }

  lemma ExactStatusRow(lean: Db, full: Db, now: Time, id: RowId, ipAllowed: bool, f: Fresh)
    requires PrunedFrom(lean, full, now) && f.ttl > 0 && id in lean.tokens
    ensures var (l, _), (g, b) :=
        StatusRow(lean, now, id, ipAllowed, f, true), StatusRow(full, now, id, ipAllowed, f, false);
      PrunesExactly(lean, full, l, g, b, now)
  {
    var row, u := full.tokens[id], full.tokens[id].token.userId;
    if !row.Active(now) {
      ExactAutoLogin(lean, full, now, ipAllowed, f);
    } else if u in full.users && full.users[u] == Denied {
      ExactDeniedStatus(lean, full, now, id, ipAllowed, f);
    } else {
      ExactStay(lean, full, lean, full, StatusRow(full, now, id, ipAllowed, f, false).1, now);
    }
  }

  lemma ExactDeniedStatus(lean: Db, full: Db, now: Time, id: RowId, ipAllowed: bool, f: Fresh)
    requires PrunedFrom(lean, full, now) && f.ttl > 0
    ensures var lm, fm := RevokeIn(lean, ById(id), now, AdminDenied), RevokeIn(full, ById(id), now, AdminDenied);
      var (l, _), (g, b) := AutoLogin(lm, now, ipAllowed, f, true), AutoLogin(fm, now, ipAllowed, f, false);
      PrunesExactly(lean, full, l, g, b, now)
  {
    var lm, fm := RevokeIn(lean, ById(id), now, AdminDenied), RevokeIn(full, ById(id), now, AdminDenied);
    SameRevocation(lean, full, ById(id), now, AdminDenied);
    RevokeKeepsTokens(lean, ById(id), now, AdminDenied);
    RevokeKeepsTokens(full, ById(id), now, AdminDenied);
    ExactAutoLogin(lm, fm, now, ipAllowed, f);
    var l := AutoLogin(lm, now, ipAllowed, f, true).0;
    var (g, b) := AutoLogin(fm, now, ipAllowed, f, false);
    ExactAfter(lean, full, lm, fm, l, g, b, now);
  }

  lemma ExactRegistration(lean: Db, full: Db, now: Time, u: UserId, status: Status, f: Fresh)
    requires PrunedFrom(lean, full, now) && f.ttl > 0
    ensures var (l, _), (g, b) :=
        Registration(lean, now, u, status, f, true), Registration(full, now, u, status, f, false);
      PrunesExactly(lean, full, l, g, b, now)
  {
    var users := full.users[u := status];
    var lm, fm := lean.(users := users), full.(users := users);
    if u in full.users {
      ExactStay(lean, full, lean, full, Conflict, now);
    } else {
      SameUserWrites(lean, full, now, users);
      ExactIssue(lm, fm, now, u, false, None, f);
      var l := Issue(lm, now, u, false, None, f, true).0;
      var (g, b) := Issue(fm, now, u, false, None, f, false);
      ExactAfter(lean, full, lm, fm, l, g, b, now);
    }
  }

  /** The operations that never mint touch no token column. */
  lemma OthersKeepTokens(db: Db, now: Time, op: Op, f: Fresh, pruning: bool)
    requires !op.OpLogin? && !op.OpClaim? && !op.OpRefresh? && !op.OpStatus? && !op.OpRegister?
    ensures SameTokens(db, Perform(db, now, op, f, pruning).0) && !Perform(db, now, op, f, pruning).1.Session?
  {
    match op
    case OpLogout(hash) => RevokeKeepsTokens(db, ByHash(hash), now, Logout);
    case OpRevoke(u, s) => RevokeKeepsTokens(db, OfSession(u, s), now, UserRevoked);
    case OpRevokeUser(u, reason, keep) => RevokeKeepsTokens(db, KeepClause(u, keep), now, reason);
    case OpDeny(u, _) => RevokeKeepsTokens(db.(users := db.users[u := Denied]), OfUser(u), now, AdminDenied);
    case OpRevokeOthers(u, hash) => OthersRevocationKeepsTokens(db, now, u, hash);
    case OpFindActive(_) =>
    case OpListActive(_) =>
    case OpGate(_) =>
    case OpApprove(_) =>
  }

  lemma OthersRevocationKeepsTokens(db: Db, now: Time, u: UserId, hash: Hash)
    ensures SameTokens(db, RevokeOthers(db, now, u, hash).0)
  {
    var found := RowWithHash(db.tokens, hash);
    if found.Some? {
      RevokeKeepsTokens(db, OfUserExceptSession(u, db.tokens[found.value].token.sessionUuid), now, UserRevoked);
    }
  }

  lemma ExactStep(lean: Db, full: Db, now: Time, op: Op, f: Fresh)
    requires PrunedFrom(lean, full, now) && f.ttl > 0
    ensures var (l, _), (g, b) := Perform(lean, now, op, f, true), Perform(full, now, op, f, false);
      PrunesExactly(lean, full, l, g, b, now)
  {
    var l := Perform(lean, now, op, f, true).0;
    var (g, b) := Perform(full, now, op, f, false);
    if op.OpRefresh? {
      ExactRefresh(lean, full, now, op.hash, f);
    } else if op.OpStatus? {
      ExactStatus(lean, full, now, op.hash, op.ipAllowed, f);
    } else if op.OpRegister? {
      ExactRegistration(lean, full, now, op.userId, op.status, f);
    } else if op.OpLogin? || op.OpClaim? {
      ExactIssue(lean, full, now, op.userId, op.keepSignedIn, None, f);
      if !b.Session? { ExactStay(lean, full, lean, full, b, now); }
    } else {
      OthersKeepTokens(lean, now, op, f, true);
      OthersKeepTokens(full, now, op, f, false);
      ExactStay(lean, full, l, g, b, now);
    }
  }

  /** Over a run: a row is missing exactly when it was, or when its user got a session after it had expired. */
  lemma {:induction false} RunPrunesExactly(lean: Db, full: Db, now: Time, events: seq<Event>)
    requires PrunedFrom(lean, full, now) && ValidEvents(full, now, events)
    ensures var l, g := Final(lean, events, true), Final(full, events, false);
      && Grows(full, g, now)
      && (forall id :: id in g.tokens ==>
            (id !in l.tokens <==> (id in full.tokens && id !in lean.tokens)
                                  || MintedAfterExpiry(events, Answers(full, events, false), g.tokens[id])))
    decreases |events|
  {
    if events == [] {
    } else {
      var e := events[0];
      var l := Perform(lean, e.now, e.op, e.draws, true).0;
      var (g, a) := Perform(full, e.now, e.op, e.draws, false);
      LaterIsFine(lean, full, now, e.now);
      SameStep(lean, full, e.now, e.op, e.draws);
      ExactStep(lean, full, e.now, e.op, e.draws);
      RunPrunesExactly(l, g, e.now, events[1..]);
      var end := Final(g, events[1..], false);
      forall id | id in end.tokens
        ensures MintedAfterExpiry(events, Answers(full, events, false), end.tokens[id])
          <==> MintsPast(e.now, a, end.tokens[id])
               || MintedAfterExpiry(events[1..], Answers(g, events[1..], false), end.tokens[id])
      {
        MintedEarlier(events, Answers(full, events, false), end.tokens[id]);
      }
    }
  }

  lemma MintedEarlier(events: seq<Event>, answers: seq<Answer>, row: Row)
    requires |events| == |answers| > 0
    ensures MintedAfterExpiry(events, answers, row)
      <==> MintsPast(events[0].now, answers[0], row) || MintedAfterExpiry(events[1..], answers[1..], row)
  {
    if i :| 0 <= i < |events| && MintsPast(events[i].now, answers[i], row) {
      if i > 0 { assert events[1..][i - 1] == events[i] && answers[1..][i - 1] == answers[i]; }
    }
    if i :| 0 <= i < |events[1..]| && MintsPast(events[1..][i].now, answers[1..][i], row) {
      assert events[i + 1] == events[1..][i] && answers[i + 1] == answers[1..][i];
    }
  }

  /**
   * Exactly when `revoke` can tell a pruning store from one that never
   * deletes, after any run of both from one database: the session has
   * unrevoked rows, and after each of them expired its user was handed a new
   * session.
   */
  lemma RevokeSeesPruning(db: Db, now: Time, events: seq<Event>, later: Time, u: UserId, s: SessionUuid)
    requires ValidDb(db) && ValidEvents(db, now, events)
    ensures var lean, full := Final(db, events, true), Final(db, events, false);
      RevokeOne(lean, later, u, s).1 != RevokeOne(full, later, u, s).1
      <==> Affects(full.tokens, OfSession(u, s)) &&
           forall id :: id in full.tokens && full.tokens[id].Live() && OfSession(u, s).Matches(id, full.tokens[id])
             ==> MintedAfterExpiry(events, Answers(db, events, false), full.tokens[id])
  {
    RunPrunesExactly(db, db, now, events);
    RunStaysPruned(db, db, now, events);
    var lean, full, w := Final(db, events, true), Final(db, events, false), OfSession(u, s);
    if Affects(lean.tokens, w) {
      var id :| id in lean.tokens && lean.tokens[id].Live() && w.Matches(id, lean.tokens[id]);
      assert id in full.tokens && full.tokens[id] == lean.tokens[id];
    }
  }

  lemma {:induction false} RunStaysPruned(lean: Db, full: Db, now: Time, events: seq<Event>)
    requires PrunedFrom(lean, full, now) && ValidEvents(full, now, events)
    ensures forall id :: id in Final(lean, events, true).tokens ==>
      id in Final(full, events, false).tokens &&
        Final(lean, events, true).tokens[id] == Final(full, events, false).tokens[id]
    decreases |events|
  {
    if events == [] {
    } else {
      var e := events[0];
      LaterIsFine(lean, full, now, e.now);
      SameStep(lean, full, e.now, e.op, e.draws);
      RunStaysPruned(Perform(lean, e.now, e.op, e.draws, true).0, Perform(full, e.now, e.op, e.draws, false).0,
                     e.now, events[1..]);
    }
  }

  /** The exception is real: a session left to expire, a later login of the same user, and then `revoke`. */
  lemma RevokeExceptionExists(u: UserId)
    ensures var db := Db(map[u := Approved], map[], 0, None);
      var events := [Event(0, OpLogin(u, false, true), Fresh(1, 1, 10)),
        Event(20, OpLogin(u, false, true), Fresh(2, 2, 10))];
      && ValidDb(db) && ValidEvents(db, 0, events)
      && RevokeOne(Final(db, events, true), 20, u, 1).1 == NotFound
      && RevokeOne(Final(db, events, false), 20, u, 1).1 == Done
  {
    var db := Db(map[u := Approved], map[], 0, None);
    var first, second := Event(0, OpLogin(u, false, true), Fresh(1, 1, 10)),
      Event(20, OpLogin(u, false, true), Fresh(2, 2, 10));
    var events := [first, second];
    assert events[1..] == [second] && [second][1..] == [];
    assert PruneExpired(db.tokens, u, 0) == map[];
    var one := Issue(db, 0, u, false, None, first.draws, false).0;
    assert Perform(db, 0, first.op, first.draws, false).0 == one == Perform(db, 0, first.op, first.draws, true).0;
    assert ValidEvents(Perform(one, 20, second.op, second.draws, false).0, 20, []);
    assert ValidEvents(one, 0, [second]);
    FinalOfTwo(db, first, second, false);
    FinalOfTwo(db, first, second, true);
    var full, lean := Final(db, events, false), Final(db, events, true);
    assert full == Issue(one, 20, u, false, None, second.draws, false).0;
    assert lean == Issue(one, 20, u, false, None, second.draws, true).0;
    assert 0 in full.tokens && full.tokens[0].Live() && OfSession(u, 1).Matches(0, full.tokens[0]);
    assert lean.tokens.Keys == {1};
  }

  lemma FinalOfTwo(db: Db, first: Event, second: Event, pruning: bool)
    ensures Final(db, [first, second], pruning)
      == Perform(Perform(db, first.now, first.op, first.draws, pruning).0,
                 second.now, second.op, second.draws, pruning).0
  {
    var db1 := Perform(db, first.now, first.op, first.draws, pruning).0;
    assert [first, second][1..] == [second] && [second][1..] == [];
    assert Final(db, [first, second], pruning) == Final(db1, [second], pruning);
    assert Final(db1, [second], pruning)
      == Final(Perform(db1, second.now, second.op, second.draws, pruning).0, [], pruning);
  }
}
