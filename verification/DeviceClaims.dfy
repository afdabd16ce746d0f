/** How many sessions one authorization request can mint in any interleaving, and what one authorize call does. */
module DeviceClaims {
  import opened Prelude
  import opened DeviceFlow

  /** Holds a won claim that has not ended in a session or a denial. */
  predicate IsClaimer(c: Call, id: RowId) {
    (c.ClaimUser? || c.DenyClaimed? || c.Mint?) && c.id == id
  }

  function Claimers(calls: map<Pid, Call>, id: RowId): set<Pid> {
    set p | p in calls && IsClaimer(calls[p], id)
  }

  ghost predicate RowFits(row: Row) {
    && row.claims + (if row.status == Approved then 1 else 0) <= row.approvals
    && (row.loggedAt.Some? <==> row.claims > 0)
    && (row.status == Open ==> row.approvals == 0)
    && (row.status == Approved || row.status == Logged ==> row.userId.Some? && row.approvedBy == row.userId)
    && (forall k :: 0 <= k < |row.minted| ==>
          row.userId == Some(row.minted[k].user) && row.keepSignedIn == row.minted[k].keepSignedIn)
  }

  ghost predicate CallFits(rows: map<RowId, Row>, c: Call) {
    match c
    case Claim(id, userId, keep) =>
      id in rows && rows[id].userId == userId && userId.Some? && rows[id].keepSignedIn == keep
    case ClaimUser(id, userId, keep) =>
      id in rows && rows[id].userId == userId && userId.Some? && rows[id].keepSignedIn == keep
    case Mint(id, user, keep) => id in rows && rows[id].userId == Some(user) && rows[id].keepSignedIn == keep
    case DenyClaimed(id) => id in rows
    case AuthorizePassword(id, approver, _, _) => id in rows && rows[id].userId == Some(approver)
    case ApproveWrite(id, approver) => id in rows && rows[id].userId == Some(approver)
    case _ => true
  }

  ghost predicate Inv(st: State) {
    && (forall id :: id in st.rows ==>
          && id < st.nextId && RowFits(st.rows[id])
          && |st.rows[id].minted| + |Claimers(st.calls, id)| <= st.rows[id].claims)
    && (forall p :: p in st.calls ==> CallFits(st.rows, st.calls[p]))
  }

  /** What one call's move does to the claimers of a request. */
  lemma ClaimersMove(calls: map<Pid, Call>, p: Pid, c: Call, id: RowId)
    ensures var was := Claimers(calls, id); var next := Claimers(calls[p := c], id);
      && next == (if IsClaimer(c, id) then was + {p} else was - {p})
      && |next| == |was| + (if IsClaimer(c, id) && p !in was then 1 else 0)
                         - (if !IsClaimer(c, id) && p in was then 1 else 0)
  {
    var was := Claimers(calls, id);
    assert Claimers(calls[p := c], id) == if IsClaimer(c, id) then was + {p} else was - {p};
  }

  /** A call moves on without touching the table. */
  lemma GotoKeeps(st: State, p: Pid, c: Call)
    requires Inv(st) && CallFits(st.rows, c)
    requires forall id :: IsClaimer(c, id) ==> p in Claimers(st.calls, id)
    ensures Inv(st.Goto(p, c))
  {
    forall id | id in st.rows
      ensures |st.rows[id].minted| + |Claimers(st.Goto(p, c).calls, id)| <= st.rows[id].claims
    {
      ClaimersMove(st.calls, p, c, id);
    }
  }

  /** One row is rewritten while the call that does it moves on. */
  lemma WriteKeeps(st: State, p: Pid, c: Call, id: RowId, row: Row)
    requires Inv(st) && id in st.rows && CallFits(st.rows, c)
    requires row.userId == st.rows[id].userId && row.keepSignedIn == st.rows[id].keepSignedIn && RowFits(row)
    requires forall other :: other != id && IsClaimer(c, other) ==> p in Claimers(st.calls, other)
    requires |row.minted| + |Claimers(st.calls[p := c], id)| <= row.claims
    ensures Inv(st.Put(id, row).Goto(p, c))
  {
    var t := st.Put(id, row).Goto(p, c);
    forall other | other in t.rows ensures |t.rows[other].minted| + |Claimers(t.calls, other)| <= t.rows[other].claims {
      ClaimersMove(st.calls, p, c, other);
    }
    forall q | q in t.calls ensures CallFits(t.rows, t.calls[q]) {
      assert q != p ==> CallFits(st.rows, st.calls[q]);
    }
  }

  lemma SetStatusKeeps(st: State, p: Pid, c: Call, id: RowId, status: Status)
    requires Inv(st) && CallFits(st.rows, c) && (forall other :: !IsClaimer(c, other))
    requires status == Denied || status == Expired
    ensures Inv(SetStatus(st, id, status).Goto(p, c))
  {
    if id in st.rows {
      ClaimersMove(st.calls, p, c, id);
      WriteKeeps(st, p, c, id, st.rows[id].(status := status));
    } else {
      GotoKeeps(st, p, c);
    }
  }

  lemma NoClaimers(st: State, id: RowId)
    requires id !in st.rows && forall p :: p in st.calls ==> CallFits(st.rows, st.calls[p])
    ensures Claimers(st.calls, id) == {}
  {
    forall q | q in st.calls ensures !IsClaimer(st.calls[q], id) {
      assert CallFits(st.rows, st.calls[q]);
    }
  }

  lemma InsertKeeps(st: State, p: Pid, row: Row)
    requires Inv(st) && row.claims == 0 && row.minted == [] && RowFits(row)
    ensures Inv(st.(rows := st.rows[st.nextId := row], nextId := st.nextId + 1).Goto(p, Finished))
  {
    NoClaimers(st, st.nextId);
    var mid := st.(rows := st.rows[st.nextId := row], nextId := st.nextId + 1);
    forall q | q in mid.calls ensures CallFits(mid.rows, mid.calls[q]) {
      assert CallFits(st.rows, st.calls[q]);
    }
    assert Inv(mid);
    GotoKeeps(mid, p, Finished);
  }

  lemma OneMoreClaimer(st: State, p: Pid, c: Call, id: RowId)
    requires Inv(st) && id in st.rows
    ensures |st.rows[id].minted| + |Claimers(st.calls[p := c], id)| <= st.rows[id].claims + 1
  {
    ClaimersMove(st.calls, p, c, id);
  }

  lemma WonFits(row: Row, now: Time)
    requires RowFits(row) && row.status == Approved
    ensures RowFits(Won(row, now))
  {
  }

  lemma ClaimKeeps(cfg: Config, st: State, p: Pid, c: Choice)
    requires Inv(st) && Enabled(st, Step(p, c)) && st.calls[p].Claim?
    ensures Inv(RunStep(cfg, st, p, c))
  {
    var call := st.calls[p];
    var id, next := call.id, ClaimUser(call.id, call.userId, call.keepSignedIn);
    assert CallFits(st.rows, call);
    var row := st.rows[id];
    if row.status == Approved {
      WonFits(row, st.now);
      OneMoreClaimer(st, p, next, id);
      WriteKeeps(st, p, next, id, Won(row, st.now));
    } else {
      GotoKeeps(st, p, Finished);
    }
  }

  lemma MintKeeps(cfg: Config, st: State, p: Pid, c: Choice)
    requires Inv(st) && Enabled(st, Step(p, c)) && st.calls[p].Mint?
    ensures Inv(RunStep(cfg, st, p, c))
  {
    var call := st.calls[p];
    assert CallFits(st.rows, call);
    var row := st.rows[call.id];
    assert p in Claimers(st.calls, call.id);
    ClaimersMove(st.calls, p, Finished, call.id);
    WriteKeeps(st, p, Finished, call.id, row.(minted := row.minted + [Session(call.user, call.keepSignedIn)]));
  }

  lemma ClaimUserKeeps(cfg: Config, st: State, p: Pid, c: Choice)
    requires Inv(st) && Enabled(st, Step(p, c)) && st.calls[p].ClaimUser?
    ensures Inv(RunStep(cfg, st, p, c))
  {
    var call := st.calls[p];
    assert CallFits(st.rows, call) && p in Claimers(st.calls, call.id);
    GotoKeeps(st, p, if call.userId.None? || call.userId.value !in st.users then Finished
                     else if st.users[call.userId.value] != StandingApproved then DenyClaimed(call.id)
                     else Mint(call.id, call.userId.value, call.keepSignedIn));
  }

  lemma PasswordStepKeeps(cfg: Config, st: State, p: Pid, c: Choice)
    requires Inv(st) && Enabled(st, Step(p, c)) && st.calls[p].AuthorizePassword?
    ensures Inv(RunStep(cfg, st, p, c))
  {
    var call := st.calls[p];
    assert CallFits(st.rows, call);
    GotoKeeps(st, p, if call.lockedOut then Finished
                     else if !c.passwordMatches then RegisterFailure(call.id, call.attempts)
                     else ApproveWrite(call.id, call.approver));
  }

  /** A write by a call that holds no claim, to a row whose claims and sessions it leaves alone. */
  lemma OutsiderWriteKeeps(st: State, p: Pid, id: RowId, row: Row)
    requires Inv(st) && p in st.calls && !IsClaimer(st.calls[p], id) && RowFits(row) && id in st.rows
    requires var was := st.rows[id];
      && row.userId == was.userId && row.keepSignedIn == was.keepSignedIn
      && row.claims == was.claims && row.minted == was.minted
    ensures Inv(st.Put(id, row).Goto(p, Finished))
  {
    ClaimersMove(st.calls, p, Finished, id);
    WriteKeeps(st, p, Finished, id, row);
  }

  lemma ApproverStepsKeep(cfg: Config, st: State, p: Pid, c: Choice)
    requires Inv(st) && Enabled(st, Step(p, c)) && (st.calls[p].RegisterFailure? || st.calls[p].ApproveWrite?)
    ensures Inv(RunStep(cfg, st, p, c))
  {
    var call := st.calls[p];
    assert CallFits(st.rows, call);
    if call.id !in st.rows {
      GotoKeeps(st, p, Finished);
    } else {
      assert RowFits(st.rows[call.id]);
      OutsiderWriteKeeps(st, p, call.id, RunStep(cfg, st, p, c).rows[call.id]);
    }
  }

  lemma RunStepKeeps(cfg: Config, st: State, p: Pid, c: Choice)
    requires Inv(st) && Enabled(st, Step(p, c))
    ensures Inv(RunStep(cfg, st, p, c))
  {
    var call := st.calls[p];
    if call.Claim? { ClaimKeeps(cfg, st, p, c); }
    else if call.ClaimUser? { ClaimUserKeeps(cfg, st, p, c); }
    else if call.Mint? { MintKeeps(cfg, st, p, c); }
    else if call.DenyClaimed? {
      if call.id in st.rows && st.rows[call.id].status == Logged { SetStatusKeeps(st, p, Finished, call.id, Denied); }
      else { GotoKeeps(st, p, Finished); }
    }
    else if call.AuthorizePassword? { PasswordStepKeeps(cfg, st, p, c); }
    else if call.RegisterFailure? || call.ApproveWrite? { ApproverStepsKeep(cfg, st, p, c); }
    else if call.PollLookup? { GotoKeeps(st, p, AfterPoll(st, call.id, call.tokenMatches)); }
    else if call.AuthorizeLookup? { GotoKeeps(st, p, AfterAuthorizeLookup(st, call.id, call.approver)); }
    else if call.ExpireWrite? { SetStatusKeeps(st, p, Finished, call.id, Expired); }
    else if call.DenyWrite? { SetStatusKeeps(st, p, Finished, call.id, Denied); }
    else if call.EvictWrite? { SetStatusKeeps(st, p, InsertRequest(call.draft), call.id, Expired); }
    else if call.DenyLookup? {
      GotoKeeps(st, p, if OwnedOpen(st, call.id, call.approver) then DenyWrite(call.id) else Finished);
    }
    else if call.InsertRequest? {
      InsertKeeps(st, p, NewRow(call.draft, st.now));
    } else {
      assert call.CountOpen? || call.FindOldest?;
      GotoKeeps(st, p, RunStep(cfg, st, p, c).calls[p]);
    }
  }

  lemma StepKeeps(cfg: Config, st: State, a: Action)
    requires Inv(st) && Enabled(st, a)
    ensures Inv(Apply(cfg, st, a))
  {
    match a
    case Tick(_) =>
    case UserChanges(_, _) =>
    case Create(p, draft) => GotoKeeps(st, p, if draft.userId.Some? then CountOpen(draft) else InsertRequest(draft));
    case Begin(p, call) => GotoKeeps(st, p, call);
    case Step(p, c) => RunStepKeeps(cfg, st, p, c);
  }

  lemma {:induction false} RunKeeps(cfg: Config, st: State, run: seq<Action>)
    requires Inv(st) && ValidRun(cfg, st, run)
    ensures Inv(After(cfg, st, run))
    decreases |run|
  {
    if run == [] {
    } else {
      StepKeeps(cfg, st, run[0]);
      RunKeeps(cfg, Apply(cfg, st, run[0]), run[1..]);
    }
  }

  /**
   * In every interleaving: sessions are bounded by claims, claims by approval
   * writes (an approved request having one to spare), and sessions and claims
   * belong to the user the request names, who is also the approver.
   */
  lemma ClaimsNeedApprovals(cfg: Config, st: State, run: seq<Action>, id: RowId)
    requires Init(st) && ValidRun(cfg, st, run) && id in After(cfg, st, run).rows
    ensures var row := After(cfg, st, run).rows[id];
      && |row.minted| <= row.claims
      && row.claims + (if row.status == Approved then 1 else 0) <= row.approvals
      && (row.status == Approved || row.status == Logged ==> row.userId.Some? && row.approvedBy == row.userId)
      && (forall s :: s in row.minted ==> row.userId == Some(s.user) && row.keepSignedIn == s.keepSignedIn)
  {
    RunKeeps(cfg, st, run);
  }

  /** One call's next statement, if it has one. */
  function Advance(cfg: Config, st: State, p: Pid, c: Choice): State {
    if Enabled(st, Step(p, c)) then RunStep(cfg, st, p, c) else st
  }

  /** Whether the owner may approve now, the password aside. */
  predicate Approvable(st: State, id: RowId, approver: UserId) {
    && OwnedOpen(st, id, approver) && st.rows[id].expiresAt >= st.now
    && (st.rows[id].lockedUntil.Some? ==> st.rows[id].lockedUntil.value <= st.now)
  }

  /**
   * An uninterrupted authorize: it approves exactly an open, unexpired,
   * unlocked request of the caller with the right password; a wrong password
   * on such a request is counted and locks at the threshold; nothing else
   * changes any request.
   */
  lemma UninterruptedAuthorize(cfg: Config, st: State, p: Pid, c: Choice, approver: UserId, id: RowId)
    requires p in st.calls && st.calls[p] == AuthorizeLookup(id, approver)
    ensures var end := Advance(cfg, Advance(cfg, Advance(cfg, st, p, c), p, c), p, c);
      && end.calls[p] == Finished
      && end.rows.Keys == st.rows.Keys
      && (forall other :: other in st.rows && other != id ==> end.rows[other] == st.rows[other])
      && (id in st.rows ==>
            var was, row := st.rows[id], end.rows[id];
            if !Approvable(st, id, approver) then row == was
            else if c.passwordMatches
            then row == was.(status := Approved, approvedBy := Some(approver), failedAttempts := 0,
                             lockedUntil := None, guesses := 0, approvals := was.approvals + 1)
            else
              var n := was.failedAttempts + 1;
              row == was.(failedAttempts := n, guesses := was.guesses + 1,
                          lockedUntil := if n >= cfg.maxAttempts then Some(st.now + cfg.lockMs) else None))
  {
    var read := Advance(cfg, st, p, c);
    assert read == st.Goto(p, AfterAuthorizeLookup(st, id, approver));
    var checked := Advance(cfg, read, p, c);
    assert checked.rows == st.rows;
    if Approvable(st, id, approver) {
      assert checked.calls[p] ==
        if c.passwordMatches then ApproveWrite(id, approver) else RegisterFailure(id, st.rows[id].failedAttempts);
    } else {
      assert checked.calls[p] == Finished;
    }
  }
}
