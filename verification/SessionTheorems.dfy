/**
 * What the session protocol guarantees over whole runs: one carrier per
 * session, exact accounting of rotations, revocation written once, dead
 * sessions staying dead, and denial being final.
 */
module SessionTheorems {
  import opened Prelude
  import opened RefreshTokens
  import opened SessionProtocol
  import opened SessionInvariant

  /** The gate of `canActivate`: an unrevoked, unexpired row of `sid` whose user is approved and is `sub`. */
  ghost predicate GateAdmits(st: State, sub: UserId, sid: SessionUuid) {
    exists id :: id in st.tokens && st.tokens[id].token.sessionUuid == sid && st.tokens[id].Active(st.now)
      && st.tokens[id].token.userId == sub && sub in st.users && st.users[sub] == Approved
  }

  ghost function LiveRows(st: State, s: SessionUuid): set<RowId> {
    set id | id in st.tokens && st.tokens[id].token.sessionUuid == s && st.tokens[id].Live()
  }

  ghost function Mints(st: State, s: SessionUuid): set<Pid> {
    set pid | pid in st.procs && st.procs[pid].Minting() && st.procs[pid].mint.session == s
  }

  /** Mints whose request crashed before its insert. */
  ghost function LostMints(st: State, s: SessionUuid): set<Pid> {
    set pid | pid in st.procs && st.procs[pid].Crashed? && st.procs[pid].was.Minting() &&
      st.procs[pid].was.mint.session == s
  }

  ghost function Issued(st: State, s: SessionUuid): set<RowId> {
    set id | id in st.log && st.log[id].token.sessionUuid == s
  }

  ghost function RotatedRows(st: State, s: SessionUuid): set<RowId> {
    set id | id in st.log && st.log[id].token.sessionUuid == s && st.log[id].RevokedFor(Rotated)
  }

  /** In every reachable state, a session has at most one unrevoked row or in-flight mint, together. */
  lemma AtMostOneCarrier(init: State, run: seq<Action>, s: SessionUuid)
    requires Init(init) && ValidRun(init, run)
    ensures var st := After(init, run); |LiveRows(st, s)| + |Mints(st, s)| <= 1
  {
    InitEstablishes(init);
    RunInvariant(init, run);
    var st := After(init, run);
    forall id | id in LiveRows(st, s) ensures Holds(st.log, st.procs, s, ByRow(id)) {}
    forall pid | pid in Mints(st, s) ensures Holds(st.log, st.procs, s, ByRequest(pid)) {}
    AtMostOne(LiveRows(st, s));
    AtMostOne(Mints(st, s));
  }

  /**
   * Every started session balances: rows issued plus mints in flight plus
   * mints lost equals one (the login) plus the rows revoked by rotation.
   */
  lemma RotationAccounting(init: State, run: seq<Action>, s: SessionUuid)
    requires Init(init) && ValidRun(init, run)
    requires s in After(init, run).sessions
    ensures var st := After(init, run);
      |Issued(st, s)| + |Mints(st, s)| + |LostMints(st, s)| == 1 + |RotatedRows(st, s)|
  {
    InitEstablishes(init);
    RunInvariant(init, run);
    BalanceOf(After(init, run), s);
  }

  ghost function Carriers(st: State, s: SessionUuid): set<Holder> {
    (set id | id in Issued(st, s) - RotatedRows(st, s) :: ByRow(id))
    + (set pid | pid in Mints(st, s) + LostMints(st, s) :: ByRequest(pid))
  }

  lemma BalanceOf(st: State, s: SessionUuid)
    requires OneHolder(st) && s in st.sessions
    ensures |Issued(st, s)| + |Mints(st, s)| + |LostMints(st, s)| == 1 + |RotatedRows(st, s)|
  {
    var kept, flying := Issued(st, s) - RotatedRows(st, s), Mints(st, s) + LostMints(st, s);
    assert Issued(st, s) == RotatedRows(st, s) + kept;
    assert Mints(st, s) !! LostMints(st, s);
    assert |flying| == |Mints(st, s)| + |LostMints(st, s)|;
    CarriersAreTheHolder(st, s);
    SingleCarrier(kept, flying, st.holder[s]);
  }

  lemma SingleCarrier(kept: set<RowId>, flying: set<Pid>, h: Holder)
    requires (set id | id in kept :: ByRow(id)) + (set pid | pid in flying :: ByRequest(pid)) == {h}
    ensures |kept| + |flying| == 1
  {
    var rows, requests := set id | id in kept :: ByRow(id), set pid | pid in flying :: ByRequest(pid);
    forall id | id in kept ensures ByRow(id) == h { assert ByRow(id) in rows + requests; }
    forall pid | pid in flying ensures ByRequest(pid) == h { assert ByRequest(pid) in rows + requests; }
    assert h in rows + requests;
    if h.ByRow? {
      assert kept == {h.id} && flying == {};
    } else {
      assert kept == {} && flying == {h.pid};
    }
  }

  lemma CarriersAreTheHolder(st: State, s: SessionUuid)
    requires OneHolder(st) && s in st.sessions
    ensures Carriers(st, s) == {st.holder[s]}
  {
    assert s in st.holder;
    forall h ensures h in Carriers(st, s) <==> Holds(st.log, st.procs, s, h) {
      match h
      case ByRow(id) => assert id in Issued(st, s) - RotatedRows(st, s) <==> Holds(st.log, st.procs, s, h);
      case ByRequest(pid) => assert pid in Mints(st, s) + LostMints(st, s) <==> Holds(st.log, st.procs, s, h);
    }
  }

  /** All rows ever issued for a session agree on its user, its persistence flag and its start. */
  lemma SessionRowsAgree(init: State, run: seq<Action>, a: RowId, b: RowId)
    requires Init(init) && ValidRun(init, run)
    requires a in After(init, run).log && b in After(init, run).log
    requires After(init, run).log[a].token.sessionUuid == After(init, run).log[b].token.sessionUuid
    ensures var x, y := After(init, run).log[a].token, After(init, run).log[b].token;
      x.userId == y.userId && x.keepSignedIn == y.keepSignedIn && x.startedAt == y.startedAt
  {
    InitEstablishes(init);
    RunInvariant(init, run);
    var st := After(init, run);
    assert RowFits(st, st.log[a]) && RowFits(st, st.log[b]);
  }

  /** Started, with no unrevoked row and no mint in flight. */
  ghost predicate Dead(st: State, s: SessionUuid) {
    && s in st.sessions
    && (forall id :: id in st.tokens && st.tokens[id].token.sessionUuid == s ==> !st.tokens[id].Live())
    && (forall pid :: pid in st.procs && st.procs[pid].Minting() ==> st.procs[pid].mint.session != s)
  }

  /** What every step, and so every run, does to the past. */
  ghost predicate Evolves(st: State, st': State) {
    && st.now <= st'.now && st'.defaultUser == st.defaultUser
    && st.log.Keys <= st'.log.Keys
    && (forall id :: id in st.log ==> Preserves(st.log[id], st'.log[id]))
    && (forall id :: id in st.log && id in st'.tokens ==> id in st.tokens)
    && (forall u :: u in st.users && st.users[u] == Denied ==> u in st'.users && st'.users[u] == Denied)
    && (forall s :: Dead(st, s) ==> Dead(st', s))
  }

  lemma EvolvesTransitive(a: State, b: State, c: State)
    requires Evolves(a, b) && Evolves(b, c)
    ensures Evolves(a, c)
  {
  }

  /** A request moving on without starting a mint. */
  lemma GotoEvolves(st: State, pid: Pid, r: Request)
    requires r.Minting() ==> pid in st.procs && st.procs[pid].Minting() && st.procs[pid].mint == r.mint
    ensures Evolves(st, st.Goto(pid, r))
  {
  }

  lemma RevokeEvolves(st: State, w: Where, reason: Reason)
    requires LogCoversTable(st)
    ensures Evolves(st, st.Revoke(w, reason))
  {
    RevokeEffect(st, w, reason);
  }

  lemma RevokeAndGotoEvolves(st: State, w: Where, reason: Reason, pid: Pid, r: Request)
    requires LogCoversTable(st) && !r.Minting()
    ensures Evolves(st, st.Revoke(w, reason).Goto(pid, r))
  {
    RevokeEvolves(st, w, reason);
    GotoEvolves(st.Revoke(w, reason), pid, r);
    EvolvesTransitive(st, st.Revoke(w, reason), st.Revoke(w, reason).Goto(pid, r));
  }

  /** A won rotation had an unrevoked row, so its session was not dead. */
  lemma RotateEvolves(st: State, id: RowId, pid: Pid, m: Mint)
    requires LogCoversTable(st) && id in st.tokens && st.tokens[id].Live()
    requires m.session == st.tokens[id].token.sessionUuid
    ensures Evolves(st, st.Revoke(ById(id), Rotated).ContinueSession(pid, m))
  {
    RevokeEvolves(st, ById(id), Rotated);
    var mid := st.Revoke(ById(id), Rotated);
    var st' := mid.ContinueSession(pid, m);
    assert !Dead(st, m.session);
    forall s | Dead(st, s) ensures Dead(st', s) {
      assert Dead(mid, s);
    }
  }

  /** An inserting request had a mint in flight, so its session was not dead. */
  lemma InsertEvolves(st: State, pid: Pid, m: Mint)
    requires LogCoversTable(st) && pid in st.procs && st.procs[pid] == Insert(m)
    ensures Evolves(st, st.InsertRow(pid, m))
  {
    assert !Dead(st, m.session);
  }

  lemma BeginEvolves(st: State, pid: Pid, u: UserId, keep: bool, c: Choice)
    requires c.uuid !in st.sessions
    ensures Evolves(st, st.BeginSession(pid, u, keep, c))
  {
    assert !Dead(st, c.uuid);
  }

  lemma StartEvolves(st: State, pid: Pid, u: UserId, keep: bool, c: Choice)
    requires c.uuid !in st.sessions
    ensures Evolves(st, st.BeginSession(pid, u, keep, c)) && Evolves(st, st.Goto(pid, Finished))
  {
    BeginEvolves(st, pid, u, keep, c);
    GotoEvolves(st, pid, Finished);
  }

  lemma PruneEvolves(st: State, u: UserId)
    ensures Evolves(st, st.(tokens := PruneExpired(st.tokens, u, st.now)))
  {
  }

  /** No write of a user's status restores a denied user. */
  lemma UsersEvolve(st: State, users: map<UserId, Status>)
    requires forall u :: u in st.users && st.users[u] == Denied ==> u in users && users[u] == Denied
    ensures Evolves(st, st.(users := users))
  {
  }

  lemma StatusWriteEvolves(st: State, pid: Pid, c: Choice)
    requires Enabled(st, Run(pid, c)) && (st.procs[pid].DenyWrite? || st.procs[pid].ApproveWrite?)
    ensures Evolves(st, RunStep(st, pid, c))
  {
    var st' := RunStep(st, pid, c);
    var mid := st.(users := st'.users);
    assert st' == mid.Goto(pid, st'.procs[pid]);
    UsersEvolve(st, st'.users);
    GotoEvolves(mid, pid, st'.procs[pid]);
    EvolvesTransitive(st, mid, st');
  }

  lemma RegisterEvolves(st: State, pid: Pid, c: Choice)
    requires Enabled(st, Run(pid, c)) && st.procs[pid].Register?
    ensures Evolves(st, RunStep(st, pid, c))
  {
    var Register(u, status) := st.procs[pid];
    var mid := st.(users := st.users[u := status]);
    UsersEvolve(st, mid.users);
    BeginEvolves(mid, pid, u, false, c);
    assert RunStep(st, pid, c) == mid.BeginSession(pid, u, false, c);
    EvolvesTransitive(st, mid, RunStep(st, pid, c));
  }

  lemma PruneStepEvolves(st: State, pid: Pid, m: Mint)
    requires pid in st.procs && st.procs[pid] == Prune(m)
    ensures Evolves(st, st.(tokens := PruneExpired(st.tokens, m.userId, st.now)).Goto(pid, Insert(m)))
  {
    var mid := st.(tokens := PruneExpired(st.tokens, m.userId, st.now));
    PruneEvolves(st, m.userId);
    GotoEvolves(mid, pid, Insert(m));
    EvolvesTransitive(st, mid, mid.Goto(pid, Insert(m)));
  }

  lemma SessionStartEvolves(st: State, pid: Pid, c: Choice)
    requires Enabled(st, Run(pid, c))
    requires st.procs[pid].LoginLookup? || st.procs[pid].ClaimLookup? || st.procs[pid].AutoLoginLookup?
    ensures Evolves(st, RunStep(st, pid, c))
  {
    match st.procs[pid]
    case LoginLookup(u, keep, _) => StartEvolves(st, pid, u, keep, c);
    case ClaimLookup(u, keep) => StartEvolves(st, pid, u, keep, c);
    case AutoLoginLookup(_) =>
      StartEvolves(st, pid, if st.defaultUser.Some? then st.defaultUser.value else 0, false, c);
  }

  lemma RevokingEvolves(st: State, pid: Pid, c: Choice)
    requires LogCoversTable(st) && Enabled(st, Run(pid, c)) && (st.procs[pid].Replaying? || st.procs[pid].Revoking?)
    ensures Evolves(st, RunStep(st, pid, c))
  {
    RevokeSteps(st, pid, c);
    match st.procs[pid]
    case Replaying(u, _, _) => RevokeAndGotoEvolves(st, OfUser(u), ReplayDetected, pid, Finished);
    case Revoking(w, reason, next) =>
      RevokeAndGotoEvolves(st, w, reason, pid, if next.Some? then AutoLoginLookup(next.value) else Finished);
  }

  lemma MintingEvolves(st: State, pid: Pid, c: Choice)
    requires LogCoversTable(st) && Enabled(st, Run(pid, c)) && st.procs[pid].Minting()
    ensures Evolves(st, RunStep(st, pid, c))
  {
    match st.procs[pid]
    case Prune(m) => PruneStepEvolves(st, pid, m);
    case Insert(m) => InsertEvolves(st, pid, m);
  }

  lemma RunEvolves(st: State, pid: Pid, c: Choice)
    requires Inv(st) && Enabled(st, Run(pid, c))
    ensures Evolves(st, RunStep(st, pid, c))
  {
    var r := st.procs[pid];
    if OnlyReads(r) { ReadEvolves(st, pid, c); }
    else if r.LoginLookup? || r.ClaimLookup? || r.AutoLoginLookup? { SessionStartEvolves(st, pid, c); }
    else if r.Register? { RegisterEvolves(st, pid, c); }
    else if r.Rotate? { RotateStepEvolves(st, pid, c); }
    else if r.Replaying? || r.Revoking? { RevokingEvolves(st, pid, c); }
    else if r.Minting() { MintingEvolves(st, pid, c); }
    else { StatusWriteEvolves(st, pid, c); }
  }

  lemma ReadEvolves(st: State, pid: Pid, c: Choice)
    requires Inv(st) && Enabled(st, Run(pid, c)) && OnlyReads(st.procs[pid])
    ensures Evolves(st, RunStep(st, pid, c))
  {
    ReadFits(st, st.procs[pid], c.found);
    GotoEvolves(st, pid, AfterRead(st, st.procs[pid], c.found));
  }

  lemma RotateStepEvolves(st: State, pid: Pid, c: Choice)
    requires Inv(st) && Enabled(st, Run(pid, c)) && st.procs[pid].Rotate?
    ensures Evolves(st, RunStep(st, pid, c))
  {
    var Rotate(id, row) := st.procs[pid];
    RotateSteps(st, pid, c);
    if id in st.tokens && st.tokens[id].Live() {
      RotateSession(st, pid);
      RotateEvolves(st, id, pid, RotationMint(row.token, c.hash, st.now + c.ttl));
    } else {
      GotoEvolves(st, pid, Finished);
    }
  }

  /** The row a request set out to rotate still has the token it read. */
  lemma RotateSession(st: State, pid: Pid)
    requires Inv(st) && pid in st.procs && st.procs[pid].Rotate? && st.procs[pid].id in st.tokens
    ensures st.tokens[st.procs[pid].id].token == st.procs[pid].row.token
  {
    assert RequestFits(st, st.procs[pid]);
  }

  lemma StepEvolves(st: State, a: Action)
    requires Inv(st) && Enabled(st, a)
    ensures Evolves(st, Apply(st, a))
  {
    match a
    case Spawn(pid, r) => GotoEvolves(st, pid, r);
    case Crash(pid) => GotoEvolves(st, pid, Crashed(st.procs[pid]));
    case Run(pid, c) => RunEvolves(st, pid, c);
    case Tick(_) =>
  }

  lemma {:induction false} RunEvolution(st: State, run: seq<Action>)
    requires Inv(st) && ValidRun(st, run)
    ensures Inv(After(st, run)) && Evolves(st, After(st, run))
    decreases |run|
  {
    if run == [] {
    } else {
      StepKeeps(st, run[0]);
      StepEvolves(st, run[0]);
      RunEvolution(Apply(st, run[0]), run[1..]);
      EvolvesTransitive(st, Apply(st, run[0]), After(st, run));
    }
  }

  /** Revocation is write-once: no later step changes when or why a row was revoked. */
  lemma RevocationWriteOnce(st: State, run: seq<Action>, id: RowId)
    requires Inv(st) && ValidRun(st, run)
    requires id in st.log && st.log[id].revocation.Revoked?
    ensures id in After(st, run).log && After(st, run).log[id] == st.log[id]
    ensures id in After(st, run).tokens ==> After(st, run).tokens[id] == st.log[id]
  {
    RunEvolution(st, run);
    assert Preserves(st.log[id], After(st, run).log[id]);
  }

  /** A dead session stays dead, so the gate rejects its access tokens for ever. */
  lemma DeadStaysDead(st: State, run: seq<Action>, s: SessionUuid, sub: UserId)
    requires Inv(st) && ValidRun(st, run) && Dead(st, s)
    ensures Dead(After(st, run), s) && LiveRows(After(st, run), s) == {} && !GateAdmits(After(st, run), sub, s)
  {
    RunEvolution(st, run);
    assert Dead(After(st, run), s);
  }
}
