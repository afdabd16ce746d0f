/**
 * The inductive invariant of the session protocol: every session ever started
 * is carried by exactly one holder, and all its rows and mints agree on who
 * it belongs to. Preserved by every step of every request.
 */
module SessionInvariant {
  import opened Prelude
  import opened RefreshTokens
  import opened SessionProtocol

  /** A row carries its session unless a rotation passed it on; a mint carries it until it inserts. */
  predicate Holds(log: Table, procs: map<Pid, Request>, s: SessionUuid, h: Holder) {
    match h
    case ByRow(id) => id in log && log[id].token.sessionUuid == s && !log[id].RevokedFor(Rotated)
    case ByRequest(pid) =>
      pid in procs && procs[pid].CarriedMint().Some? && procs[pid].CarriedMint().value.session == s
  }

  ghost predicate OneHolder(st: State) {
    && st.holder.Keys == st.sessions.Keys
    && (forall s :: s in st.holder ==> Holds(st.log, st.procs, s, st.holder[s]))
    && (forall s, h :: Holds(st.log, st.procs, s, h) ==> s in st.holder && st.holder[s] == h)
  }

  ghost predicate LogCoversTable(st: State) {
    && (forall id :: id in st.tokens ==> id in st.log && st.log[id] == st.tokens[id])
    && (forall id :: id in st.log ==> id < st.nextRow)
  }

  predicate RowFits(st: State, row: Row) {
    && row.token.sessionUuid in st.sessions
    && st.sessions[row.token.sessionUuid]
         == Identity(row.token.userId, row.token.keepSignedIn, Some(row.token.startedAt))
  }

  predicate MintFits(st: State, m: Mint) {
    && m.session in st.sessions
    && st.sessions[m.session] == Identity(m.userId, m.keepSignedIn, m.startedAt)
  }

  /** A row of `u` revoked by rotation, and unexpired at `t`: what replay detection acts on. */
  predicate Evidence(log: Table, u: UserId, id: RowId, t: Time) {
    id in log && log[id].token.userId == u && log[id].RevokedFor(Rotated) && log[id].token.expiresAt >= t
  }

  predicate RequestFits(st: State, r: Request) {
    && (r.RefreshUser? || r.Rotate? ==> r.id in st.log && st.log[r.id].token == r.row.token)
    && (r.CarriedMint().Some? ==> MintFits(st, r.CarriedMint().value))
    && (r.Replaying? ==> r.presentedAt <= st.now && Evidence(st.log, r.userId, r.evidence, r.presentedAt))
    && (r.Revoking? ==> r.reason != Rotated && r.reason != ReplayDetected)
    && (r.Register? ==> r.status != Denied)
    && (r.DenyWrite? ==> st.defaultUser != Some(r.userId))
  }

  ghost predicate RowsAndRequestsFit(st: State) {
    && LogCoversTable(st)
    && (forall i :: i in st.log ==> RowFits(st, st.log[i]))
    && (forall q :: q in st.procs ==> RequestFits(st, st.procs[q]))
    && (st.defaultUser.Some? && st.defaultUser.value in st.users ==> st.users[st.defaultUser.value] != Denied)
  }

  ghost predicate Inv(st: State) {
    RowsAndRequestsFit(st) && OneHolder(st)
  }

  lemma InitEstablishes(st: State)
    requires Init(st)
    ensures Inv(st)
  {
    assert forall s, h :: !Holds(st.log, st.procs, s, h);
  }

  /** A read: the request moves on, carrying the same mint as before (or none). */
  lemma GotoKeeps(st: State, pid: Pid, r: Request)
    requires Inv(st)
    requires RequestFits(st, r)
    requires r.CarriedMint() == (if pid in st.procs then st.procs[pid].CarriedMint() else None)
    ensures Inv(st.Goto(pid, r))
  {
    var st' := st.Goto(pid, r);
    forall s, h ensures Holds(st'.log, st'.procs, s, h) <==> Holds(st.log, st.procs, s, h) {
      assert h.ByRow? || h.ByRequest?;
    }
    forall q | q in st'.procs ensures RequestFits(st', st'.procs[q]) {
      assert RequestFits(st, st'.procs[q]);
    }
  }

  /** Revoked rows keep their revocation, and no other column ever changes. */
  predicate Preserves(before: Row, after: Row) {
    after.token == before.token && (!before.Live() ==> after == before)
  }

  /** The log follows the UPDATE on the rows still in the table. */
  lemma RevokedRow(st: State, w: Where, reason: Reason, id: RowId)
    requires id in st.log && (id in st.tokens ==> st.tokens[id] == st.log[id])
    ensures var st' := st.Revoke(w, reason);
      && id in st'.log && (id in st'.tokens <==> id in st.tokens)
      && st'.log[id] == RevokeIf(id in st.tokens && w.Matches(id, st.log[id]), st.log[id], st.now, reason)
      && (id in st'.tokens ==> st'.tokens[id] == st'.log[id])
  {
  }

  lemma RevokeEffect(st: State, w: Where, reason: Reason)
    requires LogCoversTable(st)
    ensures var st' := st.Revoke(w, reason);
      && LogCoversTable(st')
      && st'.log.Keys == st.log.Keys && st'.tokens.Keys == st.tokens.Keys
      && (forall id :: id in st.log ==> Preserves(st.log[id], st'.log[id]))
      && (forall id :: id in st.log ==>
            st'.log[id] == RevokeIf(id in st.tokens && w.Matches(id, st.log[id]), st.log[id], st.now, reason))
  {
    var st' := st.Revoke(w, reason);
    forall id | id in st.log
      ensures id in st'.log && Preserves(st.log[id], st'.log[id])
      ensures st'.log[id] == RevokeIf(id in st.tokens && w.Matches(id, st.log[id]), st.log[id], st.now, reason)
      ensures id in st'.tokens ==> st'.tokens[id] == st'.log[id]
    {
      RevokedRow(st, w, reason, id);
    }
  }

  /** A step that only changes rows through `Preserves` keeps every request's facts. */
  lemma FactsSurvive(st: State, st': State)
    requires st'.procs == st.procs && st'.sessions == st.sessions && st'.defaultUser == st.defaultUser
    requires st.now <= st'.now
    requires st'.log.Keys == st.log.Keys
    requires forall id :: id in st.log ==> Preserves(st.log[id], st'.log[id])
    requires forall id :: id in st.log ==> RowFits(st, st.log[id])
    requires forall pid :: pid in st.procs ==> RequestFits(st, st.procs[pid])
    ensures forall id :: id in st'.log ==> RowFits(st', st'.log[id])
    ensures forall u, ev, t :: Evidence(st.log, u, ev, t) ==> Evidence(st'.log, u, ev, t)
    ensures forall pid :: pid in st'.procs ==> RequestFits(st', st'.procs[pid])
  {
    forall pid | pid in st'.procs ensures RequestFits(st', st'.procs[pid]) {
      assert RequestFits(st, st.procs[pid]);
    }
  }

  /** Rows that keep carrying, or not carrying, their session leave every holder in place. */
  lemma HoldersUnmoved(st: State, st': State)
    requires OneHolder(st)
    requires st'.procs == st.procs && st'.sessions == st.sessions && st'.holder == st.holder
    requires st'.log.Keys == st.log.Keys
    requires forall id :: id in st.log ==> st'.log[id].token == st.log[id].token
    requires forall id :: id in st.log ==> st'.log[id].RevokedFor(Rotated) == st.log[id].RevokedFor(Rotated)
    ensures OneHolder(st')
  {
    forall s, h ensures Holds(st'.log, st'.procs, s, h) <==> Holds(st.log, st.procs, s, h) {
      assert h.ByRow? || h.ByRequest?;
    }
  }

  lemma RevokeKeepsHolders(st: State, w: Where, reason: Reason)
    requires OneHolder(st) && LogCoversTable(st) && reason != Rotated
    ensures OneHolder(st.Revoke(w, reason))
  {
    RevokeEffect(st, w, reason);
    HoldersUnmoved(st, st.Revoke(w, reason));
  }

  lemma RevokeKeepsFacts(st: State, w: Where, reason: Reason)
    requires RowsAndRequestsFit(st)
    ensures RowsAndRequestsFit(st.Revoke(w, reason))
  {
    RevokeEffect(st, w, reason);
    FactsSurvive(st, st.Revoke(w, reason));
  }

  /** A revocation for any reason but rotation moves no session. */
  lemma RevokeKeeps(st: State, w: Where, reason: Reason)
    requires Inv(st)
    requires reason != Rotated
    ensures Inv(st.Revoke(w, reason))
  {
    RevokeKeepsHolders(st, w, reason);
    RevokeKeepsFacts(st, w, reason);
  }

  /** The winning rotation: the presented row stops carrying the session and the request starts. */
  lemma RotateMovesHolder(st: State, mid: State, pid: Pid, id: RowId, m: Mint)
    requires OneHolder(st) && pid in st.procs && st.procs[pid].CarriedMint().None?
    requires id in st.log && st.log[id].Live() && st.log[id].token.sessionUuid == m.session
    requires mid.procs == st.procs && mid.sessions == st.sessions && mid.holder == st.holder
    requires mid.log.Keys == st.log.Keys && mid.log[id].RevokedFor(Rotated)
    requires forall i :: i in st.log && i != id ==> mid.log[i] == st.log[i]
    ensures OneHolder(mid.ContinueSession(pid, m))
  {
    var st' := mid.ContinueSession(pid, m);
    assert Holds(st.log, st.procs, m.session, ByRow(id));
    forall s, h | h != ByRow(id) && h != ByRequest(pid)
      ensures Holds(st'.log, st'.procs, s, h) <==> Holds(st.log, st.procs, s, h)
    {
      assert h.ByRow? || h.ByRequest?;
    }
  }

  /** The guarded rotation; a win hands the session from the row to the request. */
  lemma RotateKeeps(st: State, pid: Pid, c: Choice)
    requires Inv(st) && Enabled(st, Run(pid, c)) && st.procs[pid].Rotate?
    ensures Inv(RunStep(st, pid, c))
  {
    var Rotate(id, row) := st.procs[pid];
    RotateSteps(st, pid, c);
    if id in st.tokens && st.tokens[id].Live() {
      assert RequestFits(st, st.procs[pid]);
      RotateWinKeeps(st, pid, id, RotationMint(row.token, c.hash, st.now + c.ttl));
    } else {
      GotoKeeps(st, pid, Finished);
    }
  }

  lemma RotateWinKeeps(st: State, pid: Pid, id: RowId, m: Mint)
    requires Inv(st) && pid in st.procs && st.procs[pid].CarriedMint().None?
    requires id in st.tokens && st.tokens[id].Live()
    requires m == RotationMint(st.log[id].token, m.tokenHash, m.expiresAt)
    ensures Inv(st.Revoke(ById(id), Rotated).ContinueSession(pid, m))
  {
    RotateEffect(st, id);
    RotateMovesHolder(st, st.Revoke(ById(id), Rotated), pid, id, m);
    ContinueKeepsFacts(st.Revoke(ById(id), Rotated), pid, m);
  }

  lemma RotateEffect(st: State, id: RowId)
    requires RowsAndRequestsFit(st) && id in st.tokens && st.tokens[id].Live()
    ensures var mid := st.Revoke(ById(id), Rotated);
      && mid.log.Keys == st.log.Keys
      && mid.log[id].RevokedFor(Rotated) && mid.log[id].token == st.log[id].token
      && (forall i :: i in st.log && i != id ==> mid.log[i] == st.log[i])
      && RowsAndRequestsFit(mid)
  {
    RevokeEffect(st, ById(id), Rotated);
    RevokeKeepsFacts(st, ById(id), Rotated);
  }

  lemma ContinueKeepsFacts(mid: State, pid: Pid, m: Mint)
    requires RowsAndRequestsFit(mid) && MintFits(mid, m)
    ensures RowsAndRequestsFit(mid.ContinueSession(pid, m))
  {
    var st' := mid.ContinueSession(pid, m);
    forall q | q in st'.procs ensures RequestFits(st', st'.procs[q]) {
      if q != pid { assert RequestFits(mid, mid.procs[q]); }
    }
    forall i | i in st'.log ensures RowFits(st', st'.log[i]) {
      assert RowFits(mid, mid.log[i]);
    }
  }

  lemma BeginKeeps(st: State, pid: Pid, u: UserId, keep: bool, c: Choice)
    requires Inv(st) && c.uuid !in st.sessions
    requires pid in st.procs && st.procs[pid].CarriedMint().None?
    ensures Inv(st.BeginSession(pid, u, keep, c))
  {
    var st' := st.BeginSession(pid, u, keep, c);
    BeginAddsHolder(st, pid, u, keep, c);
    forall id | id in st'.log ensures RowFits(st', st'.log[id]) {
      assert RowFits(st, st.log[id]);
    }
    forall q | q in st'.procs ensures RequestFits(st', st'.procs[q]) {
      if q != pid { assert RequestFits(st, st.procs[q]); }
    }
  }

  /** A holder other than the row and the request a step touches. */
  lemma HoldsElsewhere(log: Table, log': Table, procs: map<Pid, Request>, procs': map<Pid, Request>, s: SessionUuid,
      h: Holder)
    requires h.ByRow? ==> (h.id in log <==> h.id in log') && (h.id in log ==> log'[h.id] == log[h.id])
    requires h.ByRequest? ==>
      (h.pid in procs <==> h.pid in procs') && (h.pid in procs ==> procs'[h.pid] == procs[h.pid])
    ensures Holds(log', procs', s, h) <==> Holds(log, procs, s, h)
  {
  }

  lemma BeginAddsHolder(st: State, pid: Pid, u: UserId, keep: bool, c: Choice)
    requires OneHolder(st) && c.uuid !in st.sessions
    requires pid in st.procs && st.procs[pid].CarriedMint().None?
    ensures OneHolder(st.BeginSession(pid, u, keep, c))
  {
    var st' := st.BeginSession(pid, u, keep, c);
    forall s, h | h != ByRequest(pid)
      ensures Holds(st'.log, st'.procs, s, h) <==> Holds(st.log, st.procs, s, h)
    {
      HoldsElsewhere(st.log, st'.log, st.procs, st'.procs, s, h);
    }
  }

  lemma InsertMovesHolder(st: State, pid: Pid, m: Mint)
    requires OneHolder(st) && LogCoversTable(st) && pid in st.procs && st.procs[pid] == Insert(m)
    ensures OneHolder(st.InsertRow(pid, m))
  {
    var st' := st.InsertRow(pid, m);
    assert Holds(st.log, st.procs, m.session, ByRequest(pid));
    forall s, h | h != ByRow(st.nextRow) && h != ByRequest(pid)
      ensures Holds(st'.log, st'.procs, s, h) <==> Holds(st.log, st.procs, s, h)
    {
      HoldsElsewhere(st.log, st'.log, st.procs, st'.procs, s, h);
    }
  }

  /** The insert hands the session from the request to the new row. */
  lemma InsertKeeps(st: State, pid: Pid)
    requires Inv(st) && pid in st.procs && st.procs[pid].Insert?
    ensures Inv(st.InsertRow(pid, st.procs[pid].mint))
  {
    var m := st.procs[pid].mint;
    var st' := st.InsertRow(pid, m);
    assert RequestFits(st, st.procs[pid]);
    InsertMovesHolder(st, pid, m);
    forall id | id in st'.log ensures RowFits(st', st'.log[id]) {
      if id in st.log { assert RowFits(st, st.log[id]); }
    }
    forall q | q in st'.procs ensures RequestFits(st', st'.procs[q]) {
      if q != pid {
        OtherMintsFit(st, pid, q);
      }
    }
  }

  /** Another request's facts survive the insert: no two requests carry the same session. */
  lemma OtherMintsFit(st: State, pid: Pid, q: Pid)
    requires Inv(st) && pid in st.procs && st.procs[pid].Insert? && q in st.procs && q != pid
    ensures RequestFits(st.InsertRow(pid, st.procs[pid].mint), st.procs[q])
  {
    assert RequestFits(st, st.procs[q]);
    assert Holds(st.log, st.procs, st.procs[pid].mint.session, ByRequest(pid));
    if st.procs[q].CarriedMint().Some? {
      assert Holds(st.log, st.procs, st.procs[q].CarriedMint().value.session, ByRequest(q));
    }
  }

  lemma PruneKeeps(st: State, u: UserId)
    requires Inv(st)
    ensures Inv(st.(tokens := PruneExpired(st.tokens, u, st.now)))
  {
    var st' := st.(tokens := PruneExpired(st.tokens, u, st.now));
    forall s, h ensures Holds(st'.log, st'.procs, s, h) <==> Holds(st.log, st.procs, s, h) {
      assert h.ByRow? || h.ByRequest?;
    }
    FactsSurvive(st, st');
  }

  /** Neither the clock nor a user's status is part of what a session is. */
  lemma UsersAndClockKeep(st: State, users: map<UserId, Status>, now: Time)
    requires Inv(st) && st.now <= now
    requires st.defaultUser.Some? && st.defaultUser.value in users ==> users[st.defaultUser.value] != Denied
    ensures Inv(st.(users := users, now := now))
  {
    var st' := st.(users := users, now := now);
    forall s, h ensures Holds(st'.log, st'.procs, s, h) <==> Holds(st.log, st.procs, s, h) {
      assert h.ByRow? || h.ByRequest?;
    }
    FactsSurvive(st, st');
  }

  /** What a SELECT returned is true of the state it was read from. */
  lemma ReadFits(st: State, r: Request, found: Option<RowId>)
    requires LogCoversTable(st) && RequestFits(st, r)
    requires found.Some? && (r.RefreshLookup? || r.StatusLookup? || r.OthersLookup?) ==> found.value in st.tokens
    ensures RequestFits(st, AfterRead(st, r, found)) && AfterRead(st, r, found).CarriedMint().None?
  {
  }

  lemma ReadKeeps(st: State, pid: Pid, c: Choice)
    requires Inv(st) && Enabled(st, Run(pid, c)) && OnlyReads(st.procs[pid])
    ensures Inv(RunStep(st, pid, c))
  {
    ReadFits(st, st.procs[pid], c.found);
    GotoKeeps(st, pid, AfterRead(st, st.procs[pid], c.found));
  }

  /** The two writes of a user's status. */
  lemma StatusWriteKeeps(st: State, pid: Pid, c: Choice)
    requires Inv(st) && Enabled(st, Run(pid, c))
    requires st.procs[pid].DenyWrite? || st.procs[pid].ApproveWrite?
    ensures Inv(RunStep(st, pid, c))
  {
    var st' := RunStep(st, pid, c);
    assert RequestFits(st, st.procs[pid]);
    StatusSteps(st, pid, c);
    UsersAndClockKeep(st, st'.users, st.now);
    GotoKeeps(st.(users := st'.users), pid, st'.procs[pid]);
  }

  lemma RevokeAndGotoKeeps(st: State, pid: Pid, w: Where, reason: Reason, next: Request)
    requires Inv(st) && reason != Rotated
    requires pid in st.procs && st.procs[pid].CarriedMint().None?
    requires next.Finished? || next.AutoLoginLookup?
    ensures Inv(st.Revoke(w, reason).Goto(pid, next))
  {
    RevokeKeeps(st, w, reason);
    GotoKeeps(st.Revoke(w, reason), pid, next);
  }

  lemma PruneStepKeeps(st: State, pid: Pid, m: Mint)
    requires Inv(st) && pid in st.procs && st.procs[pid] == Prune(m)
    ensures Inv(st.(tokens := PruneExpired(st.tokens, m.userId, st.now)).Goto(pid, Insert(m)))
  {
    var mid := st.(tokens := PruneExpired(st.tokens, m.userId, st.now));
    PruneKeeps(st, m.userId);
    assert RequestFits(mid, mid.procs[pid]);
    GotoKeeps(mid, pid, Insert(m));
  }

  /** The lookups that may begin a session. */
  lemma SessionStartKeeps(st: State, pid: Pid, c: Choice)
    requires Inv(st) && Enabled(st, Run(pid, c))
    requires st.procs[pid].LoginLookup? || st.procs[pid].ClaimLookup? || st.procs[pid].AutoLoginLookup?
    ensures Inv(RunStep(st, pid, c))
  {
    StartSteps(st, pid, c);
    match st.procs[pid]
    case LoginLookup(u, keep, _) => StartKeeps(st, pid, u, keep, c);
    case ClaimLookup(u, keep) => StartKeeps(st, pid, u, keep, c);
    case AutoLoginLookup(_) =>
      StartKeeps(st, pid, if st.defaultUser.Some? then st.defaultUser.value else 0, false, c);
  }

  lemma RevokingKeeps(st: State, pid: Pid, c: Choice)
    requires Inv(st) && Enabled(st, Run(pid, c)) && (st.procs[pid].Replaying? || st.procs[pid].Revoking?)
    ensures Inv(RunStep(st, pid, c))
  {
    assert RequestFits(st, st.procs[pid]);
    RevokeSteps(st, pid, c);
    match st.procs[pid]
    case Replaying(u, _, _) => RevokeAndGotoKeeps(st, pid, OfUser(u), ReplayDetected, Finished);
    case Revoking(w, reason, next) =>
      RevokeAndGotoKeeps(st, pid, w, reason, if next.Some? then AutoLoginLookup(next.value) else Finished);
  }

  lemma MintingKeeps(st: State, pid: Pid, c: Choice)
    requires Inv(st) && Enabled(st, Run(pid, c)) && st.procs[pid].Minting()
    ensures Inv(RunStep(st, pid, c))
  {
    MintSteps(st, pid, c);
    match st.procs[pid]
    case Prune(m) => PruneStepKeeps(st, pid, m);
    case Insert(_) => InsertKeeps(st, pid);
  }

  lemma RunKeeps(st: State, pid: Pid, c: Choice)
    requires Inv(st) && Enabled(st, Run(pid, c))
    ensures Inv(RunStep(st, pid, c))
  {
    var r := st.procs[pid];
    if OnlyReads(r) { ReadKeeps(st, pid, c); }
    else if r.LoginLookup? || r.ClaimLookup? || r.AutoLoginLookup? { SessionStartKeeps(st, pid, c); }
    else if r.Register? { RegisterKeeps(st, pid, c); }
    else if r.Rotate? { RotateKeeps(st, pid, c); }
    else if r.Replaying? || r.Revoking? { RevokingKeeps(st, pid, c); }
    else if r.Minting() { MintingKeeps(st, pid, c); }
    else { StatusWriteKeeps(st, pid, c); }
  }

  lemma RegisterKeeps(st: State, pid: Pid, c: Choice)
    requires Inv(st) && Enabled(st, Run(pid, c)) && st.procs[pid].Register?
    ensures Inv(RunStep(st, pid, c))
  {
    var Register(u, status) := st.procs[pid];
    assert RequestFits(st, st.procs[pid]);
    UsersAndClockKeep(st, st.users[u := status], st.now);
    BeginKeeps(st.(users := st.users[u := status]), pid, u, false, c);
  }

  /** Both outcomes of a lookup that may begin a session. */
  lemma StartKeeps(st: State, pid: Pid, u: UserId, keep: bool, c: Choice)
    requires Inv(st) && c.uuid !in st.sessions
    requires pid in st.procs && st.procs[pid].CarriedMint().None?
    ensures Inv(st.BeginSession(pid, u, keep, c)) && Inv(st.Goto(pid, Finished))
  {
    BeginKeeps(st, pid, u, keep, c);
    GotoKeeps(st, pid, Finished);
  }

  lemma StepKeeps(st: State, a: Action)
    requires Inv(st) && Enabled(st, a)
    ensures Inv(Apply(st, a))
  {
    match a
    case Spawn(pid, r) => GotoKeeps(st, pid, r);
    case Tick(t) => UsersAndClockKeep(st, st.users, t);
    case Crash(pid) =>
      assert RequestFits(st, st.procs[pid]);
      GotoKeeps(st, pid, Crashed(st.procs[pid]));
    case Run(pid, c) => RunKeeps(st, pid, c);
  }

  lemma {:induction false} RunInvariant(st: State, run: seq<Action>)
    requires Inv(st) && ValidRun(st, run)
    ensures Inv(After(st, run))
    decreases |run|
  {
    if run == [] {
    } else {
      StepKeeps(st, run[0]);
      RunInvariant(Apply(st, run[0]), run[1..]);
    }
  }
}
