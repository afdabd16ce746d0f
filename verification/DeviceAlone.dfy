/**
 * Who a device login signs in: a session is minted only after its owner was
 * found approved, in every interleaving; and what a poll, a denial and a
 * create do when nothing interrupts them.
 */
module DeviceAlone {
  import opened Prelude
  import opened DeviceFlow
  import opened DeviceClaims

  /** The state before the run's i-th action, or after the whole run. */
  function StateAt(cfg: Config, init: State, run: seq<Action>, i: nat): State
    requires ValidRun(cfg, init, run) && i <= |run|
    decreases i
  {
    if i == 0 then init else StateAt(cfg, Apply(cfg, init, run[0]), run[1..], i - 1)
  }

  lemma {:induction false} StateAtNext(cfg: Config, init: State, run: seq<Action>, i: nat)
    requires ValidRun(cfg, init, run) && i < |run|
    ensures Enabled(StateAt(cfg, init, run, i), run[i])
    ensures StateAt(cfg, init, run, i + 1) == Apply(cfg, StateAt(cfg, init, run, i), run[i])
    decreases i
  {
    if i == 0 {
      assert StateAt(cfg, init, run, 1) == StateAt(cfg, Apply(cfg, init, run[0]), run[1..], 0);
    } else {
      StateAtNext(cfg, Apply(cfg, init, run[0]), run[1..], i - 1);
    }
  }

  lemma {:induction false} StateAtEnd(cfg: Config, init: State, run: seq<Action>)
    requires ValidRun(cfg, init, run)
    ensures StateAt(cfg, init, run, |run|) == After(cfg, init, run)
    decreases |run|
  {
    if run == [] {
    } else {
      StateAtEnd(cfg, Apply(cfg, init, run[0]), run[1..]);
    }
  }

  /** Call `p`, having won the request, finds its owner among the users, approved. */
  ghost predicate FindsApproved(st: State, a: Action, p: Pid, id: RowId, s: Session) {
    && a.Step? && a.p == p && p in st.calls && st.calls[p] == ClaimUser(id, Some(s.user), s.keepSignedIn)
    && s.user in st.users && st.users[s.user] == StandingApproved
  }

  /** Call `p` stores the session. */
  ghost predicate Mints(st: State, a: Action, p: Pid, id: RowId, s: Session) {
    && a.Step? && a.p == p && p in st.calls && st.calls[p] == Mint(id, s.user, s.keepSignedIn)
  }

  /** A call comes to mint only by finding the owner approved. */
  lemma ComesToMint(cfg: Config, st: State, a: Action, p: Pid)
    requires Enabled(st, a) && p in Apply(cfg, st, a).calls && Apply(cfg, st, a).calls[p].Mint?
    ensures var m := Apply(cfg, st, a).calls[p];
      || (p in st.calls && st.calls[p] == m)
      || FindsApproved(st, a, p, m.id, Session(m.user, m.keepSignedIn))
  {
    if a.Step? && a.p == p {
      var call := st.calls[p];
      if call.ClaimUser? {
      } else {
        StepMintsNot(cfg, st, p, a.c);
      }
    } else if a.Step? {
      OthersStay(cfg, st, a.p, a.c, p);
    }
  }

  lemma StepMintsNot(cfg: Config, st: State, p: Pid, c: Choice)
    requires Enabled(st, Step(p, c)) && !st.calls[p].ClaimUser?
    ensures p in RunStep(cfg, st, p, c).calls && !RunStep(cfg, st, p, c).calls[p].Mint?
  {
  }

  lemma OthersStay(cfg: Config, st: State, p: Pid, c: Choice, other: Pid)
    requires Enabled(st, Step(p, c)) && other != p
    ensures other in RunStep(cfg, st, p, c).calls <==> other in st.calls
    ensures other in st.calls ==> RunStep(cfg, st, p, c).calls[other] == st.calls[other]
  {
  }

  /** Only a mint adds a session to a request, and only one. */
  lemma MintedChange(cfg: Config, st: State, a: Action, id: RowId)
    requires Enabled(st, a) && id in Apply(cfg, st, a).rows
    ensures var minted := Apply(cfg, st, a).rows[id].minted;
      || minted == []
      || (id in st.rows && minted == st.rows[id].minted)
      || (a.Step? && a.p in st.calls && st.calls[a.p].Mint? && st.calls[a.p].id == id && id in st.rows
          && minted == st.rows[id].minted + [Session(st.calls[a.p].user, st.calls[a.p].keepSignedIn)])
  {
  }

  lemma {:induction false} FindCheck(cfg: Config, init: State, run: seq<Action>, n: nat, p: Pid) returns (i: nat)
    requires Init(init) && ValidRun(cfg, init, run) && n <= |run|
    requires p in StateAt(cfg, init, run, n).calls && StateAt(cfg, init, run, n).calls[p].Mint?
    ensures var m := StateAt(cfg, init, run, n).calls[p];
      i < n && FindsApproved(StateAt(cfg, init, run, i), run[i], p, m.id, Session(m.user, m.keepSignedIn))
    decreases n
  {
    assert n > 0;
    var st := StateAt(cfg, init, run, n - 1);
    StateAtNext(cfg, init, run, n - 1);
    ComesToMint(cfg, st, run[n - 1], p);
    if p in st.calls && st.calls[p] == StateAt(cfg, init, run, n).calls[p] {
      i := FindCheck(cfg, init, run, n - 1, p);
    } else {
      i := n - 1;
    }
  }

  lemma {:induction false} FindMint(cfg: Config, init: State, run: seq<Action>, n: nat, id: RowId, k: nat)
    returns (j: nat, p: Pid)
    requires Init(init) && ValidRun(cfg, init, run) && n <= |run|
    requires id in StateAt(cfg, init, run, n).rows && k < |StateAt(cfg, init, run, n).rows[id].minted|
    ensures j < n && Mints(StateAt(cfg, init, run, j), run[j], p, id, StateAt(cfg, init, run, n).rows[id].minted[k])
    decreases n
  {
    assert n > 0;
    var st := StateAt(cfg, init, run, n - 1);
    StateAtNext(cfg, init, run, n - 1);
    MintedChange(cfg, st, run[n - 1], id);
    if id in st.rows && k < |st.rows[id].minted| {
      j, p := FindMint(cfg, init, run, n - 1, id, k);
    } else {
      j, p := n - 1, run[n - 1].p;
    }
  }

  /**
   * In every interleaving each session a request gave was stored by a call
   * that, after winning the request, found exactly that session's user
   * among the users, approved.
   */
  lemma {:induction false} SessionsAreForApprovedUsers(
      cfg: Config, init: State, run: seq<Action>, id: RowId, s: Session)
    requires Init(init) && ValidRun(cfg, init, run)
    requires id in After(cfg, init, run).rows && s in After(cfg, init, run).rows[id].minted
    ensures exists i, j, p ::
      && 0 <= i < j < |run|
      && FindsApproved(StateAt(cfg, init, run, i), run[i], p, id, s)
      && Mints(StateAt(cfg, init, run, j), run[j], p, id, s)
  {
    StateAtEnd(cfg, init, run);
    var k :| 0 <= k < |After(cfg, init, run).rows[id].minted| && After(cfg, init, run).rows[id].minted[k] == s;
    var j, p := FindMint(cfg, init, run, |run|, id, k);
    var i := FindCheck(cfg, init, run, j, p);
    assert FindsApproved(StateAt(cfg, init, run, i), run[i], p, id, s);
  }

  // ---- Uninterrupted calls ----

  function Alone(cfg: Config, st: State, p: Pid, c: Choice, n: nat): State
    decreases n
  {
    if n == 0 then st else Alone(cfg, Advance(cfg, st, p, c), p, c, n - 1)
  }

  ghost predicate OnlyRow(st: State, end: State, p: Pid, id: RowId) {
    && p in end.calls && end.calls[p] == Finished && end.rows.Keys == st.rows.Keys
    && forall other :: other in st.rows && other != id ==> end.rows[other] == st.rows[other]
  }

  /** A won claim ends in a session for an approved owner, in a denial for any other, in neither for none. */
  lemma ClaimAlone(cfg: Config, st: State, p: Pid, c: Choice, id: RowId, userId: Option<UserId>, keep: bool)
    requires p in st.calls && st.calls[p] == ClaimUser(id, userId, keep)
    requires id in st.rows && st.rows[id].status == Logged
    ensures var end, row := Alone(cfg, st, p, c, 2), st.rows[id];
      && OnlyRow(st, end, p, id)
      && end.rows[id] == if userId.None? || userId.value !in st.users then row
           else if st.users[userId.value] == StandingApproved
           then row.(minted := row.minted + [Session(userId.value, keep)])
           else row.(status := Denied)
  {
    var next := Advance(cfg, st, p, c);
    assert Alone(cfg, st, p, c, 2) == Alone(cfg, Advance(cfg, next, p, c), p, c, 0);
  }

  /** A request used up: one session for an approved owner, a denial for any other, neither for none. */
  ghost predicate Claimed(st: State, was: Row, row: Row) {
    && row == was.(status := row.status, loggedAt := Some(st.now), claims := was.claims + 1, minted := row.minted)
    && (if was.userId.Some? && was.userId.value in st.users
        then
          (if st.users[was.userId.value] == StandingApproved
           then row.status == Logged && row.minted == was.minted + [Session(was.userId.value, was.keepSignedIn)]
           else row.status == Denied && row.minted == was.minted)
        else row.status == Logged && row.minted == was.minted)
  }

  /**
   * An uninterrupted poll: with the right token an open request past its time
   * expires and an approved one is used up, minting exactly one session when
   * its owner is approved and denying it when the owner is not; nothing else
   * changes any request.
   */
  lemma UninterruptedPoll(cfg: Config, st: State, p: Pid, c: Choice, id: RowId, tokenMatches: bool)
    requires p in st.calls && st.calls[p] == PollLookup(id, tokenMatches)
    ensures var end := Alone(cfg, st, p, c, 4);
      && OnlyRow(st, end, p, id)
      && (id in st.rows ==>
            var was, row := st.rows[id], end.rows[id];
            if tokenMatches && was.status == Open && was.expiresAt < st.now then row == was.(status := Expired)
            else if tokenMatches && was.status == Approved then Claimed(st, was, row)
            else row == was)
  {
    var next := AfterPoll(st, id, tokenMatches);
    assert Alone(cfg, st, p, c, 4) == Alone(cfg, st.Goto(p, next), p, c, 3);
    if next.Claim? {
      PollClaims(cfg, st.Goto(p, next), p, c, id);
    } else if next.ExpireWrite? {
      PollExpires(cfg, st.Goto(p, next), p, c, id);
    } else {
      FinishedStays(cfg, st.Goto(p, next), p, c, 3);
    }
  }

  lemma PollClaims(cfg: Config, st: State, p: Pid, c: Choice, id: RowId)
    requires id in st.rows && st.rows[id].status == Approved
    requires p in st.calls && st.calls[p] == Claim(id, st.rows[id].userId, st.rows[id].keepSignedIn)
    ensures var end, was := Alone(cfg, st, p, c, 3), st.rows[id];
      && OnlyRow(st, end, p, id)
      && Claimed(st, was, end.rows[id])
  {
    var was := st.rows[id];
    var next := Advance(cfg, st, p, c);
    assert next == st.Put(id, Won(was, st.now)).Goto(p, ClaimUser(id, was.userId, was.keepSignedIn));
    assert Alone(cfg, st, p, c, 3) == Alone(cfg, next, p, c, 2);
    ClaimAlone(cfg, next, p, c, id, was.userId, was.keepSignedIn);
  }

  lemma PollExpires(cfg: Config, st: State, p: Pid, c: Choice, id: RowId)
    requires p in st.calls && st.calls[p] == ExpireWrite(id) && id in st.rows
    ensures var end := Alone(cfg, st, p, c, 3);
      OnlyRow(st, end, p, id) && end.rows[id] == st.rows[id].(status := Expired)
  {
    var next := Advance(cfg, st, p, c);
    assert Alone(cfg, st, p, c, 3) == Alone(cfg, next, p, c, 2);
    FinishedStays(cfg, next, p, c, 2);
  }

  lemma {:induction false} FinishedStays(cfg: Config, st: State, p: Pid, c: Choice, n: nat)
    requires p in st.calls && st.calls[p] == Finished
    ensures Alone(cfg, st, p, c, n) == st
    decreases n
  {
    if n == 0 {
    } else {
      FinishedStays(cfg, st, p, c, n - 1);
    }
  }

  /** An uninterrupted denial ends exactly an open request of the caller. */
  lemma UninterruptedDenial(cfg: Config, st: State, p: Pid, c: Choice, id: RowId, caller: UserId)
    requires p in st.calls && st.calls[p] == DenyLookup(id, caller)
    ensures var end := Alone(cfg, st, p, c, 2);
      && OnlyRow(st, end, p, id)
      && (id in st.rows ==>
            end.rows[id] == if st.rows[id].userId == Some(caller) && st.rows[id].status == Open
                            then st.rows[id].(status := Denied) else st.rows[id])
  {
    var read := Advance(cfg, st, p, c);
    assert Alone(cfg, st, p, c, 2) == Alone(cfg, Advance(cfg, read, p, c), p, c, 0);
  }

  /** The open requests of the draft's user leave no room for another. */
  predicate AtCap(cfg: Config, st: State, draft: Draft) {
    draft.userId.Some? && |OpenOf(st.rows, draft.userId.value)| >= cfg.maxOpenPerUser
  }

  /** One open request of the draft's user is stored; at the cap the user's oldest open one has expired. */
  ghost predicate Created(cfg: Config, st: State, p: Pid, oldest: Option<RowId>, draft: Draft, end: State) {
    && p in end.calls && end.calls[p] == Finished && end.nextId == st.nextId + 1
    && end.rows.Keys == st.rows.Keys + {st.nextId}
    && end.rows[st.nextId]
       == Row(draft.userId, draft.keepSignedIn, Open, None, st.now, draft.expiresAt, 0, None, None, 0, 0, 0, [])
    && (forall id :: id in st.rows ==>
          end.rows[id] == if AtCap(cfg, st, draft) && oldest == Some(id)
                          then st.rows[id].(status := Expired) else st.rows[id])
    && (AtCap(cfg, st, draft) && OpenOf(st.rows, draft.userId.value) != {} ==>
          oldest.Some? && IsOldest(st.rows, draft.userId.value, oldest.value))
  }

  /**
   * An uninterrupted create stores one open request for the draft's user and,
   * at the cap, expires the user's oldest open request; every other request
   * stays as it was.
   */
  lemma UninterruptedCreate(cfg: Config, st: State, p: Pid, c: Choice, draft: Draft)
    requires Enabled(st, Create(p, draft)) && OldestFits(st, FindOldest(draft), c.oldest) && st.nextId !in st.rows
    ensures Created(cfg, st, p, c.oldest, draft, Alone(cfg, Apply(cfg, st, Create(p, draft)), p, c, 4))
  {
    var came := Apply(cfg, st, Create(p, draft));
    if draft.userId.Some? {
      var counted := Advance(cfg, came, p, c);
      assert Alone(cfg, came, p, c, 4) == Alone(cfg, counted, p, c, 3);
      if AtCap(cfg, st, draft) {
        assert counted == st.Goto(p, FindOldest(draft));
        CreateAtCap(cfg, st, p, c, draft);
      } else {
        assert counted == st.Goto(p, InsertRequest(draft));
        CreateBelowCap(cfg, st, p, c, draft, 3);
      }
    } else {
      CreateBelowCap(cfg, st, p, c, draft, 4);
    }
  }

  lemma CreateBelowCap(cfg: Config, st: State, p: Pid, c: Choice, draft: Draft, n: nat)
    requires !AtCap(cfg, st, draft) && st.nextId !in st.rows && n > 0
    ensures Created(cfg, st, p, c.oldest, draft, Alone(cfg, st.Goto(p, InsertRequest(draft)), p, c, n))
  {
    InsertAlone(cfg, st.Goto(p, InsertRequest(draft)), p, c, draft, n);
  }

  lemma CreateAtCap(cfg: Config, st: State, p: Pid, c: Choice, draft: Draft)
    requires AtCap(cfg, st, draft) && OldestFits(st, FindOldest(draft), c.oldest) && st.nextId !in st.rows
    ensures Created(cfg, st, p, c.oldest, draft, Alone(cfg, st.Goto(p, FindOldest(draft)), p, c, 3))
  {
    var counted := st.Goto(p, FindOldest(draft));
    assert Enabled(counted, Step(p, c));
    if c.oldest.Some? {
      var found := st.Goto(p, EvictWrite(c.oldest.value, draft));
      assert Advance(cfg, counted, p, c) == found;
      assert Alone(cfg, counted, p, c, 3) == Alone(cfg, found, p, c, 2);
      EvictThenInsert(cfg, found, p, c, c.oldest.value, draft);
      CreatedByEviction(cfg, st, p, c.oldest.value, draft, Alone(cfg, found, p, c, 2));
    } else {
      var found := st.Goto(p, InsertRequest(draft));
      assert Advance(cfg, counted, p, c) == found;
      assert Alone(cfg, counted, p, c, 3) == Alone(cfg, found, p, c, 2);
      InsertAlone(cfg, found, p, c, draft, 2);
    }
  }

  lemma CreatedByEviction(cfg: Config, st: State, p: Pid, id: RowId, draft: Draft, end: State)
    requires AtCap(cfg, st, draft) && IsOldest(st.rows, draft.userId.value, id) && st.nextId !in st.rows
    requires p in end.calls && end.calls[p] == Finished && end.nextId == st.nextId + 1
    requires end.rows == st.rows[id := st.rows[id].(status := Expired)][st.nextId := NewRow(draft, st.now)]
    ensures Created(cfg, st, p, Some(id), draft, end)
  {
  }

  lemma InsertAlone(cfg: Config, st: State, p: Pid, c: Choice, draft: Draft, n: nat)
    requires p in st.calls && st.calls[p] == InsertRequest(draft) && n > 0
    ensures Alone(cfg, st, p, c, n)
         == st.(rows := st.rows[st.nextId := NewRow(draft, st.now)], nextId := st.nextId + 1).Goto(p, Finished)
  {
    FinishedStays(cfg, Advance(cfg, st, p, c), p, c, n - 1);
  }

  lemma EvictThenInsert(cfg: Config, st: State, p: Pid, c: Choice, id: RowId, draft: Draft)
    requires p in st.calls && st.calls[p] == EvictWrite(id, draft) && id in st.rows && st.nextId !in st.rows
    ensures var end, evicted := Alone(cfg, st, p, c, 2), st.rows[id := st.rows[id].(status := Expired)];
      && p in end.calls && end.calls[p] == Finished && end.nextId == st.nextId + 1
      && end.rows == evicted[st.nextId := NewRow(draft, st.now)]
  {
    var next := Advance(cfg, st, p, c);
    assert next == st.Put(id, st.rows[id].(status := Expired)).Goto(p, InsertRequest(draft));
    InsertAlone(cfg, next, p, c, draft, 1);
  }
}
