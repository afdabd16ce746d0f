/**
 * Replay detection and denial over whole runs of the session protocol: mass
 * `replay_detected` revocation only ever follows a replayed rotated token, and
 * a denied user gets no further session.
 */
module SessionSecurity {
  import opened Prelude
  import opened RefreshTokens
  import opened SessionProtocol
  import opened SessionInvariant
  import opened SessionTheorems

  /** The revoking UPDATE a step runs, if any. */
  function RevocationOf(st: State, a: Action): Option<(Where, Reason)> {
    if !a.Run? || a.pid !in st.procs then None
    else match st.procs[a.pid]
      case Rotate(id, _) => Some((ById(id), Rotated))
      case Replaying(u, _, _) => Some((OfUser(u), ReplayDetected))
      case Revoking(w, reason, _) => Some((w, reason))
      case _ => None
  }

  /** A step revokes rows with one UPDATE, inserts one unrevoked row, or leaves every row alone. */
  lemma LogChange(st: State, a: Action)
    requires LogCoversTable(st) && Enabled(st, a)
    ensures var log' := Apply(st, a).log;
      match RevocationOf(st, a)
      case Some((w, reason)) => log' == st.Revoke(w, reason).log
      case None =>
        || log' == st.log
        || (a.Run? && st.procs[a.pid].Insert? && st.nextRow in log' && log'[st.nextRow].Live()
            && log'[st.nextRow].token.userId == st.procs[a.pid].mint.userId
            && log' == st.log[st.nextRow := log'[st.nextRow]])
  {
    if a.Run? {
      RunLogChange(st, a.pid, a.choice);
    }
  }

  lemma RunLogChange(st: State, pid: Pid, c: Choice)
    requires LogCoversTable(st) && Enabled(st, Run(pid, c))
    ensures var log', r := RunStep(st, pid, c).log, st.procs[pid];
      && (r.Rotate? ==> log' == st.Revoke(ById(r.id), Rotated).log)
      && (r.Replaying? ==> log' == st.Revoke(OfUser(r.userId), ReplayDetected).log)
      && (r.Revoking? ==> log' == st.Revoke(r.where, r.reason).log)
      && (r.Insert? ==> log' == st.InsertRow(pid, r.mint).log)
      && (!r.Rotate? && !r.Replaying? && !r.Revoking? && !r.Insert? ==> log' == st.log)
  {
    var r := st.procs[pid];
    if r.Rotate? {
      RotateSteps(st, pid, c);
      LosingRotation(st, r.id);
    } else if r.Replaying? || r.Revoking? {
      RevokeSteps(st, pid, c);
    } else if r.Minting() {
      MintSteps(st, pid, c);
    } else {
      OthersLogNothing(st, pid, c);
    }
  }

  lemma OthersLogNothing(st: State, pid: Pid, c: Choice)
    requires Enabled(st, Run(pid, c)) && !Revokes(st.procs[pid]) && !st.procs[pid].Minting()
    ensures RunStep(st, pid, c).log == st.log
  {
    if MayBeginSession(st.procs[pid]) {
      assert StartStep(st, pid, c).log == st.log;
    } else if !OnlyReads(st.procs[pid]) {
      assert StatusStep(st, pid).log == st.log;
    }
  }

  /** The guarded UPDATE of a row no longer unrevoked changes nothing. */
  lemma LosingRotation(st: State, id: RowId)
    requires LogCoversTable(st)
    ensures id !in st.tokens || !st.tokens[id].Live() ==> st.Revoke(ById(id), Rotated).log == st.log
  {
    RevokeEffect(st, ById(id), Rotated);
  }

  /** The state before step `i` of a run. */
  function StateAt(init: State, run: seq<Action>, i: nat): State
    requires ValidRun(init, run) && i <= |run|
    decreases i
  {
    if i == 0 then init else StateAt(Apply(init, run[0]), run[1..], i - 1)
  }

  lemma {:induction false} StateAtNext(init: State, run: seq<Action>, i: nat)
    requires ValidRun(init, run) && i < |run|
    ensures Enabled(StateAt(init, run, i), run[i])
    ensures StateAt(init, run, i + 1) == Apply(StateAt(init, run, i), run[i])
    decreases i
  {
    if i == 0 {
      assert StateAt(init, run, 1) == StateAt(Apply(init, run[0]), run[1..], 0);
    } else {
      StateAtNext(Apply(init, run[0]), run[1..], i - 1);
      assert run[1..][i - 1] == run[i];
    }
  }

  lemma {:induction false} StateAtEnd(init: State, run: seq<Action>)
    requires ValidRun(init, run)
    ensures StateAt(init, run, |run|) == After(init, run)
    decreases |run|
  {
    if run == [] {
    } else {
      StateAtEnd(Apply(init, run[0]), run[1..]);
    }
  }

  lemma {:induction false} StateAtFits(init: State, run: seq<Action>, i: nat)
    requires Inv(init) && ValidRun(init, run) && i <= |run|
    ensures Inv(StateAt(init, run, i))
    decreases i
  {
    if i == 0 {
    } else {
      StepKeeps(init, run[0]);
      StateAtFits(Apply(init, run[0]), run[1..], i - 1);
    }
  }

  /** In this state the request looks up the token of row `ev`, revoked by rotation before and still unexpired. */
  predicate Presents(st: State, a: Action, pid: Pid, ev: RowId) {
    && a.Run? && a.pid == pid && pid in st.procs && st.procs[pid].RefreshLookup?
    && ev in st.tokens && st.tokens[ev].token.tokenHash == st.procs[pid].hash && a.choice.found == Some(ev)
    && st.tokens[ev].RevokedFor(Rotated) && st.tokens[ev].token.expiresAt >= st.now
  }

  /** In this state the request runs the mass revocation, and it revokes row `id`. */
  predicate MassRevokes(st: State, a: Action, pid: Pid, id: RowId) {
    && a.Run? && a.pid == pid && pid in st.procs && st.procs[pid].Replaying?
    && id in st.tokens && st.tokens[id].Live() && st.tokens[id].token.userId == st.procs[pid].userId
  }

  /** A request starts replaying only by presenting such a token. */
  lemma ReplayBegins(st: State, a: Action, pid: Pid)
    requires Enabled(st, a) && pid in Apply(st, a).procs && Apply(st, a).procs[pid].Replaying?
    ensures var r := Apply(st, a).procs[pid];
      || (pid in st.procs && st.procs[pid] == r)
      || (Presents(st, a, pid, r.evidence) && r.userId == st.tokens[r.evidence].token.userId)
  {
    if a.Run? && a.pid == pid { ReplayStarts(st, pid, a.choice); }
  }

  lemma ReplayStarts(st: State, pid: Pid, c: Choice)
    requires Enabled(st, Run(pid, c)) && RunStep(st, pid, c).procs[pid].Replaying?
    ensures var r := RunStep(st, pid, c).procs[pid];
      Presents(st, Run(pid, c), pid, r.evidence) && r.userId == st.tokens[r.evidence].token.userId
  {
    if OnlyReads(st.procs[pid]) {
      assert AfterRead(st, st.procs[pid], c.found).Replaying? ==> st.procs[pid].RefreshLookup?;
    } else {
      WritesNeverReplay(st, pid, c);
    }
  }

  lemma WritesNeverReplay(st: State, pid: Pid, c: Choice)
    requires Enabled(st, Run(pid, c)) && !OnlyReads(st.procs[pid])
    ensures !RunStep(st, pid, c).procs[pid].Replaying?
  {
    var r := st.procs[pid];
    if MayBeginSession(r) {
      assert !StartStep(st, pid, c).procs[pid].Replaying?;
    } else if r.Minting() {
      assert !MintStep(st, pid).procs[pid].Replaying?;
    } else if Revokes(r) {
      assert !RevokeStep(st, pid, c).procs[pid].Replaying?;
    } else {
      assert !StatusStep(st, pid).procs[pid].Replaying?;
    }
  }

  /** Where a replaying request presented its token. */
  lemma {:induction false} FindPresentation(init: State, run: seq<Action>, n: nat, pid: Pid) returns (i: nat)
    requires Init(init) && ValidRun(init, run) && n <= |run|
    requires pid in StateAt(init, run, n).procs && StateAt(init, run, n).procs[pid].Replaying?
    ensures i < n
    ensures var r := StateAt(init, run, n).procs[pid]; var st := StateAt(init, run, i);
      Presents(st, run[i], pid, r.evidence) && r.userId == st.tokens[r.evidence].token.userId
  {
    if n == 0 {
      assert false;
    } else {
      var st := StateAt(init, run, n - 1);
      StateAtNext(init, run, n - 1);
      ReplayBegins(st, run[n - 1], pid);
      if pid in st.procs && st.procs[pid] == StateAt(init, run, n).procs[pid] {
        i := FindPresentation(init, run, n - 1, pid);
      } else {
        i := n - 1;
      }
    }
  }

  /** A step that marks a row `replay_detected` is a mass revocation of a replaying request. */
  lemma NewReplayMark(st: State, a: Action, id: RowId)
    requires Inv(st) && Enabled(st, a) && id in Apply(st, a).log && Apply(st, a).log[id].RevokedFor(ReplayDetected)
    requires id in st.log ==> st.log[id] != Apply(st, a).log[id]
    ensures a.Run? && MassRevokes(st, a, a.pid, id) && Apply(st, a).log[id].token == st.tokens[id].token
  {
    LogChange(st, a);
    if RevocationOf(st, a).Some? {
      var (w, reason) := RevocationOf(st, a).value;
      assert RequestFits(st, st.procs[a.pid]);
      RevokeMarks(st, w, reason, id);
    }
  }

  /** A row an UPDATE changed was unrevoked, matched, and carries its reason. */
  lemma RevokeMarks(st: State, w: Where, reason: Reason, id: RowId)
    requires LogCoversTable(st) && id in st.Revoke(w, reason).log
    ensures id in st.log && st.Revoke(w, reason).log[id].token == st.log[id].token
    ensures st.Revoke(w, reason).log[id] != st.log[id] ==>
      && id in st.tokens && st.tokens[id] == st.log[id] && st.tokens[id].Live() && w.Matches(id, st.tokens[id])
      && st.Revoke(w, reason).log[id].RevokedFor(reason)
  {
    RevokeEffect(st, w, reason);
  }

  /** Where a row was marked, and where the request that marked it presented its token. */
  lemma {:induction false} FindReplay(init: State, run: seq<Action>, n: nat, id: RowId)
    returns (i: nat, j: nat, pid: Pid, ev: RowId)
    requires Init(init) && ValidRun(init, run) && n <= |run|
    requires id in StateAt(init, run, n).log && StateAt(init, run, n).log[id].RevokedFor(ReplayDetected)
    ensures i < j < n && Presents(StateAt(init, run, i), run[i], pid, ev)
    ensures MassRevokes(StateAt(init, run, j), run[j], pid, id)
    ensures StateAt(init, run, j).tokens[id].token == StateAt(init, run, n).log[id].token
    ensures StateAt(init, run, i).tokens[ev].token.userId == StateAt(init, run, n).log[id].token.userId
  {
    if n == 0 {
      assert false;
    } else {
      var st, last := StateAt(init, run, n - 1), StateAt(init, run, n);
      StateAtNext(init, run, n - 1);
      if id in st.log && st.log[id] == last.log[id] {
        i, j, pid, ev := FindReplay(init, run, n - 1, id);
      } else {
        InitEstablishes(init);
        StateAtFits(init, run, n - 1);
        NewReplayMark(st, run[n - 1], id);
        j, pid := n - 1, run[n - 1].pid;
        ev := st.procs[pid].evidence;
        i := FindPresentation(init, run, j, pid);
      }
    }
  }

  /**
   * Mass revocation is earned: for every row ever revoked as
   * `replay_detected`, one request of the run first presented a token of the
   * same user that was then revoked by rotation and unexpired, and later ran
   * the UPDATE that revoked the row.
   */
  lemma ReplayOnlyAfterRotation(init: State, run: seq<Action>, id: RowId)
    requires Init(init) && ValidRun(init, run)
    requires id in After(init, run).log && After(init, run).log[id].RevokedFor(ReplayDetected)
    ensures exists i: nat, j: nat, pid: Pid, ev: RowId ::
      && i < j < |run|
      && Presents(StateAt(init, run, i), run[i], pid, ev)
      && MassRevokes(StateAt(init, run, j), run[j], pid, id)
      && StateAt(init, run, i).tokens[ev].token.userId == After(init, run).log[id].token.userId
  {
    StateAtEnd(init, run);
    var i, j, pid, ev := FindReplay(init, run, |run|, id);
  }

  /** The mass revocation touches exactly the unrevoked rows of the evidence's user. */
  lemma MassRevocationIsExact(st: State, pid: Pid, c: Choice, id: RowId)
    requires Inv(st) && Enabled(st, Run(pid, c)) && st.procs[pid].Replaying? && id in st.tokens
    ensures var ev := st.procs[pid].evidence; var st' := Apply(st, Run(pid, c));
      && ev in st.log && st.log[ev].RevokedFor(Rotated)
      && st'.tokens.Keys == st.tokens.Keys
      && (st'.tokens[id] != st.tokens[id] <==>
            st.tokens[id].Live() && st.tokens[id].token.userId == st.log[ev].token.userId)
      && (st'.tokens[id] != st.tokens[id] ==> st'.tokens[id].RevokedFor(ReplayDetected))
  {
    assert RequestFits(st, st.procs[pid]);
  }

  /** Requests past every check of `u`'s status that still have a row to write. */
  ghost function Cleared(st: State, u: UserId): set<Pid> {
    set pid | pid in st.procs && st.procs[pid].ClearedFor(u)
  }

  ghost function RowsOf(st: State, u: UserId): set<RowId> {
    set id | id in st.log && st.log[id].token.userId == u
  }

  predicate DeniedUser(st: State, u: UserId) {
    u in st.users && st.users[u] == Denied && st.defaultUser != Some(u)
  }

  /** No login, refresh, registration or claimed poll that reads a denied user becomes cleared for it. */
  lemma DeniedReadsClearNobody(st: State, a: Action, u: UserId)
    requires Inv(st) && Enabled(st, a) && DeniedUser(st, u)
    ensures Cleared(Apply(st, a), u) <= Cleared(st, u)
    ensures a.Run? && st.procs[a.pid].Insert? ==> a.pid !in Cleared(Apply(st, a), u)
  {
    var st' := Apply(st, a);
    forall pid | pid in Cleared(st', u) ensures pid in Cleared(st, u) {
      if a.Run? && a.pid == pid { MovedOnCleared(st, pid, a.choice, u); }
    }
  }

  lemma MovedOnCleared(st: State, pid: Pid, c: Choice, u: UserId)
    requires Enabled(st, Run(pid, c)) && DeniedUser(st, u)
    ensures RunStep(st, pid, c).procs[pid].ClearedFor(u) ==> st.procs[pid].ClearedFor(u)
  {
    if OnlyReads(st.procs[pid]) {
      ReadClearsNobody(st, st.procs[pid], c.found, u);
    } else {
      WriteClearsNobody(st, pid, c, u);
    }
  }

  lemma ReadClearsNobody(st: State, r: Request, found: Option<RowId>, u: UserId)
    requires found.Some? && (r.RefreshLookup? || r.StatusLookup? || r.OthersLookup?) ==> found.value in st.tokens
    requires DeniedUser(st, u)
    ensures !AfterRead(st, r, found).ClearedFor(u)
  {
  }

  lemma WriteClearsNobody(st: State, pid: Pid, c: Choice, u: UserId)
    requires Enabled(st, Run(pid, c)) && DeniedUser(st, u) && !OnlyReads(st.procs[pid])
    ensures RunStep(st, pid, c).procs[pid].ClearedFor(u) ==> st.procs[pid].ClearedFor(u)
  {
    var r := st.procs[pid];
    if MayBeginSession(r) {
      assert !StartStep(st, pid, c).procs[pid].ClearedFor(u);
    } else if r.Minting() {
      assert MintStep(st, pid).procs[pid].ClearedFor(u) ==> r.ClearedFor(u);
    } else if Revokes(r) {
      assert RevokeStep(st, pid, c).procs[pid].ClearedFor(u) ==> r.ClearedFor(u);
    } else {
      assert !StatusStep(st, pid).procs[pid].ClearedFor(u);
    }
  }

  /** Each row written for a denied user uses up one request that was cleared before. */
  lemma StepSpendsClearance(st: State, a: Action, u: UserId)
    requires Inv(st) && Enabled(st, a) && DeniedUser(st, u)
    ensures Cleared(Apply(st, a), u) <= Cleared(st, u)
    ensures |RowsOf(Apply(st, a), u)| + |Cleared(Apply(st, a), u)| <= |RowsOf(st, u)| + |Cleared(st, u)|
  {
    DeniedReadsClearNobody(st, a, u);
    RowsGained(st, a, u);
    var cleared' := Cleared(Apply(st, a), u);
    SubsetSize(cleared', Cleared(st, u));
    if RowsOf(Apply(st, a), u) != RowsOf(st, u) {
      SubsetSize(cleared', Cleared(st, u) - {a.pid});
    }
  }

  /** A user's rows only grow by the insert of a request cleared for that user. */
  lemma RowsGained(st: State, a: Action, u: UserId)
    requires LogCoversTable(st) && Enabled(st, a)
    ensures var rows' := RowsOf(Apply(st, a), u);
      || rows' == RowsOf(st, u)
      || (a.Run? && st.procs[a.pid].Insert? && a.pid in Cleared(st, u) && rows' == RowsOf(st, u) + {st.nextRow})
  {
    LogChange(st, a);
    var log' := Apply(st, a).log;
    if RevocationOf(st, a).Some? {
      RevokeEffect(st, RevocationOf(st, a).value.0, RevocationOf(st, a).value.1);
    }
    assert forall id :: id in st.log ==> id in log' && log'[id].token == st.log[id].token;
    if log'.Keys == st.log.Keys {
      assert RowsOf(Apply(st, a), u) == RowsOf(st, u);
    } else if log'[st.nextRow].token.userId == u {
      assert RowsOf(Apply(st, a), u) == RowsOf(st, u) + {st.nextRow};
    } else {
      assert RowsOf(Apply(st, a), u) == RowsOf(st, u);
    }
  }

  /**
   * Denial is final: in every later state the user is still denied (no
   * approve restores it, even one that had loaded the row before), the gate
   * rejects all its sessions, and it only ever gets the rows of requests that
   * had already read the user before the denial.
   */
  lemma {:induction false} DenialIsFinal(st: State, run: seq<Action>, u: UserId, sid: SessionUuid)
    requires Inv(st) && ValidRun(st, run) && DeniedUser(st, u)
    ensures var st' := After(st, run);
      && DeniedUser(st', u)
      && !GateAdmits(st', u, sid)
      && Cleared(st', u) <= Cleared(st, u)
      && |RowsOf(st', u)| + |Cleared(st', u)| <= |RowsOf(st, u)| + |Cleared(st, u)|
    decreases |run|
  {
    if run == [] {
    } else {
      StepKeeps(st, run[0]);
      StepEvolves(st, run[0]);
      StepSpendsClearance(st, run[0], u);
      DenialIsFinal(Apply(st, run[0]), run[1..], u, sid);
    }
  }
}
