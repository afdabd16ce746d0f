/** What each request of the connection flow does when nothing interrupts it, stated on the states and the saves. */
module GithubAlone {
  import opened Prelude
  import opened GithubAppFlow
  import opened GithubStates
  import G = GithubInstallations

  /** The statements of one request, up to its longest course. */
  const LONGEST: nat := 8

  /** The request's next statement, if it has one. */
  function Advance(cfg: Config, st: State, p: Pid, c: Choice): State {
    if Enabled(st, Step(p, c)) then RunStep(cfg, st, p, c) else st
  }

  function Alone(cfg: Config, st: State, p: Pid, c: Choice, n: nat): State
    decreases n
  {
    if n == 0 then st else Alone(cfg, Advance(cfg, st, p, c), p, c, n - 1)
  }

  /** The request comes in and runs to its end. */
  function Called(cfg: Config, st: State, a: Action, p: Pid, c: Choice): State
    requires Enabled(st, a)
  {
    Alone(cfg, Apply(cfg, st, a), p, c, LONGEST)
  }

  predicate Ended(st: State, p: Pid) {
    p in st.requests && st.requests[p] == Finished
  }

  /** GitHub listed this app's installation. */
  ghost predicate Lists(cfg: Config, c: Choice, id: nat) {
    exists y :: G.Listed(c.pages, y) && y.appId == cfg.appId && y.id == id
  }

  /** The listing settles on the installation: the claimed one, or without a claim the only one. */
  ghost predicate Proves(cfg: Config, c: Choice, claimed: Option<nat>, id: nat) {
    && Lists(cfg, c, id)
    && (if claimed.Some? then claimed.value == id else forall other :: Lists(cfg, c, other) ==> other == id)
  }

  lemma HasIdIffLists(cfg: Config, c: Choice, id: nat)
    ensures G.HasId(G.Collected(c.pages, cfg.appId), id) <==> Lists(cfg, c, id)
  {
    G.CollectedIsVerified(c.pages, cfg.appId);
    var r := G.Collected(c.pages, cfg.appId);
    if i :| 0 <= i < |r| && r[i].id == id { assert r[i] in r; }
  }

  lemma TwoIds(s: seq<G.Installation>)
    requires G.DistinctIds(s) && |s| > 1
    ensures s[0].id != s[1].id
  {
  }

  lemma PicksProven(cfg: Config, c: Choice, claimed: Option<nat>, id: nat)
    requires Proves(cfg, c, claimed, id)
    ensures G.PickInstallation(G.Collected(c.pages, cfg.appId), claimed) == G.Only(id)
  {
    var r := G.Collected(c.pages, cfg.appId);
    G.CollectedIsVerified(c.pages, cfg.appId);
    HasIdIffLists(cfg, c, id);
    if claimed.None? {
      forall i | 0 <= i < |r| ensures r[i].id == id {
        HasIdIffLists(cfg, c, r[i].id);
      }
      if |r| > 1 {
        TwoIds(r);
        assert false;
      }
    }
  }

  lemma PicksNone(cfg: Config, c: Choice, claimed: Option<nat>)
    requires if claimed.Some? then !Lists(cfg, c, claimed.value) else forall id: nat :: !Lists(cfg, c, id)
    ensures G.PickInstallation(G.Collected(c.pages, cfg.appId), claimed) == G.NotAccessible
  {
    var r := G.Collected(c.pages, cfg.appId);
    if claimed.Some? { HasIdIffLists(cfg, c, claimed.value); }
    else if r != [] {
      HasIdIffLists(cfg, c, r[0].id);
    }
  }

  lemma PicksSeveral(cfg: Config, c: Choice, a: nat, b: nat)
    requires Lists(cfg, c, a) && Lists(cfg, c, b) && a != b
    ensures G.PickInstallation(G.Collected(c.pages, cfg.appId), None) == G.Several
  {
    HasIdIffLists(cfg, c, a);
    HasIdIffLists(cfg, c, b);
  }

  /** Looking up and consuming a state that matches takes it away and goes on with what it says. */
  lemma Consumes(cfg: Config, st: State, p: Pid, c: Choice, id: RowId)
    requires p in st.requests && st.requests[p].Lookup? && c.found == Some(id) && id in st.rows
    requires var r := st.requests[p]; Matches(st.rows[id], r.user, r.uuid, r.secret, r.stage, r.now)
    ensures Alone(cfg, st, p, c, 2)
         == st.(rows := st.rows - {id}).Goto(p, Precheck(st.rows[id].draft, st.requests[p].asked))
  {
    var r := st.requests[p];
    var read := Advance(cfg, st, p, c);
    assert read == st.Goto(p, Consume(r.user, r.secret, r.stage, r.asked, r.now, id, st.rows[id]));
    assert Enabled(read, Step(p, c));
    var end := Advance(cfg, read, p, c);
    assert end.requests == st.requests[p := Precheck(st.rows[id].draft, r.asked)];
    assert Alone(cfg, read, p, c, 1) == Alone(cfg, end, p, c, 0);
  }

  lemma {:induction false} AloneAdds(cfg: Config, st: State, p: Pid, c: Choice, m: nat, n: nat)
    ensures Alone(cfg, st, p, c, m + n) == Alone(cfg, Alone(cfg, st, p, c, m), p, c, n)
    decreases m
  {
    if m == 0 {
    } else {
      AloneAdds(cfg, Advance(cfg, st, p, c), p, c, m - 1, n);
    }
  }

  lemma {:induction false} FinishedStays(cfg: Config, st: State, p: Pid, c: Choice, n: nat)
    requires Ended(st, p)
    ensures Alone(cfg, st, p, c, n) == st
    decreases n
  {
    if n == 0 {
    } else {
      FinishedStays(cfg, st, p, c, n - 1);
    }
  }

  /** A matching state is checked next. */
  lemma Arrives(cfg: Config, st: State, a: Action, p: Pid, c: Choice, id: RowId)
    requires Enabled(st, a) && c.found == Some(id) && id in st.rows
    requires (a.Callback? || a.SelectOne?) && a.p == p
    requires Matches(st.rows[id], a.user, a.uuid, a.secret, if a.Callback? then Redirect else Select, st.now)
    ensures var asked := if a.Callback? then a.claimed else Some(a.installation);
      Called(cfg, st, a, p, c)
      == Alone(cfg, st.(rows := st.rows - {id}).Goto(p, Precheck(st.rows[id].draft, asked)), p, c, LONGEST - 2)
  {
    var asked := if a.Callback? then a.claimed else Some(a.installation);
    var came := Apply(cfg, st, a);
    Consumes(cfg, came, p, c, id);
    assert came.(rows := came.rows - {id}).Goto(p, Precheck(st.rows[id].draft, asked))
        == st.(rows := st.rows - {id}).Goto(p, Precheck(st.rows[id].draft, asked));
    AloneAdds(cfg, came, p, c, 2, LONGEST - 2);
  }

  /** A request that found its installation saves it once. */
  lemma SavesOnce(cfg: Config, st: State, p: Pid, c: Choice, n: nat)
    requires p in st.requests && st.requests[p].Validate? && n >= 2
    ensures var r := st.requests[p]; var d := r.draft;
      Alone(cfg, st, p, c, n)
      == st.(saves := st.saves + [Saved(d.user, d.target, r.installation, d.verifiedBy, d.flow, d.proof)])
           .Goto(p, Finished)
  {
    var r := st.requests[p];
    var valid := Advance(cfg, st, p, c);
    assert valid == st.Goto(p, Save(r.draft, r.installation));
    var end := Advance(cfg, valid, p, c);
    assert end.requests == st.requests[p := Finished];
    assert Alone(cfg, st, p, c, n) == Alone(cfg, end, p, c, n - 2);
    FinishedStays(cfg, end, p, c, n - 2);
  }

  /** The request at GitHub's answer. */
  function Answered(cfg: Config, st: State, p: Pid, c: Choice): State
    requires p in st.requests && st.requests[p].Precheck?
  {
    var r := st.requests[p];
    st.(verifications := st.verifications + [Verification(r.draft.user, c.login, c.pages)])
      .Goto(p, AfterVerify(cfg, r.draft, r.asked, c, |st.verifications|, st.now))
  }

  /** The statements of a callback between its checked state and GitHub's answer. */
  lemma Verifies(cfg: Config, st: State, p: Pid, c: Choice, n: nat)
    requires p in st.requests && st.requests[p].Precheck? && st.requests[p].draft.stage == Redirect
    requires 1 <= |c.pages| <= G.MAX_INSTALLATION_PAGES && n >= 2
    ensures Alone(cfg, st, p, c, n) == Alone(cfg, Answered(cfg, st, p, c), p, c, n - 2)
  {
    var r := st.requests[p];
    var checked := Advance(cfg, st, p, c);
    assert checked == st.Goto(p, Verify(r.draft, r.asked));
    var end := Advance(cfg, checked, p, c);
    assert end.requests == st.requests[p := AfterVerify(cfg, r.draft, r.asked, c, |st.verifications|, st.now)];
    assert Alone(cfg, st, p, c, n) == Alone(cfg, end, p, c, n - 2);
  }

  /** The callback presents the user's redirect state, with its secret and in time, and GitHub answers. */
  ghost predicate Presents(st: State, a: Action, c: Choice, id: RowId) {
    && a.Callback? && Enabled(st, a) && c.found == Some(id) && id in st.rows
    && Matches(st.rows[id], a.user, a.uuid, a.secret, Redirect, st.now)
    && 1 <= |c.pages| <= G.MAX_INSTALLATION_PAGES
  }

  /** A presented callback whose state has been consumed. */
  function Accepted(st: State, a: Action, id: RowId): State
    requires a.Callback? && id in st.rows
  {
    st.(rows := st.rows - {id}).Goto(a.p, Precheck(st.rows[id].draft, a.claimed))
  }

  lemma CallbackIsAnswered(cfg: Config, st: State, a: Action, c: Choice, id: RowId)
    requires Presents(st, a, c, id)
    ensures Called(cfg, st, a, a.p, c) == Alone(cfg, Answered(cfg, Accepted(st, a, id), a.p, c), a.p, c, LONGEST - 4)
  {
    Arrives(cfg, st, a, a.p, c, id);
    Verifies(cfg, Accepted(st, a, id), a.p, c, LONGEST - 2);
  }

  /** A callback whose listing settles on an installation saves exactly that one, for the flow's user and target. */
  lemma CallbackSaves(cfg: Config, st: State, a: Action, c: Choice, id: RowId, installation: nat)
    requires Presents(st, a, c, id) && Proves(cfg, c, a.claimed, installation)
    ensures var end, d := Called(cfg, st, a, a.p, c), st.rows[id].draft;
      && Ended(end, a.p) && end.rows == st.rows - {id}
      && end.saves == st.saves + [Saved(a.user, d.target, installation, c.login, d.flow, |st.verifications|)]
  {
    CallbackIsAnswered(cfg, st, a, c, id);
    PicksProven(cfg, c, a.claimed, installation);
    var next := Answered(cfg, Accepted(st, a, id), a.p, c);
    SavesOnce(cfg, next, a.p, c, LONGEST - 4);
  }

  /** A claim GitHub does not list, or nothing listed at all, saves nothing. */
  lemma CallbackRefuses(cfg: Config, st: State, a: Action, c: Choice, id: RowId)
    requires Presents(st, a, c, id)
    requires if a.claimed.Some? then !Lists(cfg, c, a.claimed.value) else forall n: nat :: !Lists(cfg, c, n)
    ensures var end := Called(cfg, st, a, a.p, c);
      Ended(end, a.p) && end.rows == st.rows - {id} && end.saves == st.saves
  {
    CallbackIsAnswered(cfg, st, a, c, id);
    PicksNone(cfg, c, a.claimed);
    var next := Answered(cfg, Accepted(st, a, id), a.p, c);
    FinishedStays(cfg, next, a.p, c, LONGEST - 4);
  }

  /** What may be offered: installations GitHub listed for this app, each once, in order, all of them unless cut. */
  ghost predicate Offers(cfg: Config, c: Choice, ids: seq<nat>) {
    && (exists entries: seq<G.Installation> ::
          && G.Sorted(cfg.rank, entries) && G.DistinctIds(entries) && IdsOf(entries) == ids
          && forall y :: y in entries ==> y.appId == cfg.appId && G.Listed(c.pages, y))
    && |ids| <= G.MAX_CANDIDATES
    && (|ids| < G.MAX_CANDIDATES ==> forall id: nat :: Lists(cfg, c, id) ==> id in ids)
  }

  lemma SelectionOffers(cfg: Config, c: Choice)
    ensures Offers(cfg, c, IdsOf(G.SelectionEntries(cfg.rank, G.Collected(c.pages, cfg.appId))))
  {
    var verified := G.Collected(c.pages, cfg.appId);
    var entries := G.SelectionEntries(cfg.rank, verified);
    G.CollectedIsVerified(c.pages, cfg.appId);
    G.SelectionIsFaithful(cfg.rank, verified);
    if |entries| < G.MAX_CANDIDATES {
      forall id: nat | Lists(cfg, c, id) ensures id in IdsOf(entries) {
        HasIdIffLists(cfg, c, id);
        var i :| 0 <= i < |verified| && verified[i].id == id;
        assert verified[i] in verified && G.HasId(entries, id);
        var k :| 0 <= k < |entries| && entries[k].id == id;
        assert IdsOf(entries)[k] == id;
      }
    }
  }

  lemma IssueIsSolo(cfg: Config, st: State, p: Pid, c: Choice)
    requires p in st.requests && st.requests[p].Purge? && UnusedUuid(st.rows, c.uuid)
    ensures var end := SoloIssue(cfg, st, p, c);
      Alone(cfg, st, p, c, 4) == end && Ended(end, p) && end.saves == st.saves && end.now == st.now
  {
    var r, purged := st.requests[p], Advance(cfg, st, p, c);
    assert purged == st.(rows := st.rows - Expired(st.rows, r.now)).Goto(p, FindPending(r.draft, r.now));
    var found := Advance(cfg, purged, p, c);
    assert found == purged.Goto(p, AfterFind(purged, r.draft, r.now));
    assert Alone(cfg, st, p, c, 4) == Alone(cfg, purged, p, c, 3) == Alone(cfg, found, p, c, 2);
    EndOfIssue(cfg, found, p, c);
  }

  /** What is left of an issue after listing: the delete, when there is something to delete, and the insert. */
  lemma EndOfIssue(cfg: Config, st: State, p: Pid, c: Choice)
    requires p in st.requests && (st.requests[p].DeleteStale? || st.requests[p].Insert?) && UnusedUuid(st.rows, c.uuid)
    ensures var kept := if st.requests[p].DeleteStale? then RunStep(cfg, st, p, c) else st;
      && Enabled(kept, Step(p, c)) && kept.requests[p].Insert?
      && (var end := RunStep(cfg, kept, p, c);
          Alone(cfg, st, p, c, 2) == end && Ended(end, p) && end.saves == st.saves && end.now == st.now)
  {
    if st.requests[p].DeleteStale? {
      var kept := Advance(cfg, st, p, c);
      assert Alone(cfg, st, p, c, 2) == Alone(cfg, kept, p, c, 1) == Alone(cfg, Advance(cfg, kept, p, c), p, c, 0);
    } else {
      var end := Advance(cfg, st, p, c);
      assert Alone(cfg, st, p, c, 2) == Alone(cfg, end, p, c, 1);
      FinishedStays(cfg, end, p, c, 1);
    }
  }

  lemma IssueAlone(cfg: Config, st: State, p: Pid, c: Choice, n: nat)
    requires p in st.requests && st.requests[p].Purge? && UnusedUuid(st.rows, c.uuid) && n >= 4
    ensures var r, end := st.requests[p], Alone(cfg, st, p, c, n);
      && Ended(end, p) && end.nextId == st.nextId + 1 && end.saves == st.saves && end.now == st.now
      && end.rows == Kept(st.rows, r.draft.user, r.now)[st.nextId := Row(r.draft, c.uuid, c.secret, r.now + STATE_TTL)]
  {
    IssueIsSolo(cfg, st, p, c);
    UninterruptedIssue(cfg, st, p, c);
    AloneAdds(cfg, st, p, c, 4, n - 4);
    FinishedStays(cfg, SoloIssue(cfg, st, p, c), p, c, n - 4);
  }

  /** The select state an answer that leaves a choice asks for. */
  function Offer(cfg: Config, st: State, p: Pid, c: Choice): Draft
    requires p in st.requests && st.requests[p].Precheck?
  {
    var entries, d := G.SelectionEntries(cfg.rank, G.Collected(c.pages, cfg.appId)), st.requests[p].draft;
    Draft(d.user, Select, d.target, IdsOf(entries), c.login, d.flow, |st.verifications|)
  }

  lemma AnswerOffers(cfg: Config, st: State, p: Pid, c: Choice, x: nat, y: nat)
    requires p in st.requests && st.requests[p].Precheck? && st.requests[p].asked.None?
    requires Lists(cfg, c, x) && Lists(cfg, c, y) && x != y
    ensures var next := Answered(cfg, st, p, c);
      && next.requests[p] == Purge(Offer(cfg, st, p, c), st.now)
      && next.rows == st.rows && next.nextId == st.nextId && next.saves == st.saves
    ensures Offers(cfg, c, Offer(cfg, st, p, c).candidates)
  {
    PicksSeveral(cfg, c, x, y);
    SelectionOffers(cfg, c);
  }

  lemma AcceptedKeeps(st: State, a: Action, id: RowId, uuid: string)
    requires a.Callback? && id in st.rows && UnusedUuid(st.rows, uuid)
    ensures var t := Accepted(st, a, id);
      && UnusedUuid(t.rows, uuid) && t.nextId == st.nextId && t.saves == st.saves && t.now == st.now
      && t.verifications == st.verifications
      && a.p in t.requests && t.requests[a.p] == Precheck(st.rows[id].draft, a.claimed)
  {
  }

  /** A callback that leaves a choice saves nothing and stores one select state that keeps the flow and its proof. */
  lemma CallbackOffers(cfg: Config, st: State, a: Action, c: Choice, id: RowId, x: nat, y: nat)
    requires Presents(st, a, c, id) && a.claimed.None? && UnusedUuid(st.rows, c.uuid)
    requires Lists(cfg, c, x) && Lists(cfg, c, y) && x != y
    ensures var end, d := Called(cfg, st, a, a.p, c), st.rows[id].draft;
      && Ended(end, a.p) && end.saves == st.saves
      && st.nextId in end.rows
      && (var row := end.rows[st.nextId];
          && row == Row(Draft(a.user, Select, d.target, row.draft.candidates, c.login, d.flow, |st.verifications|),
                        c.uuid, c.secret, st.now + STATE_TTL)
          && Offers(cfg, c, row.draft.candidates))
  {
    CallbackIsAnswered(cfg, st, a, c, id);
    AcceptedKeeps(st, a, id, c.uuid);
    AnswerOffers(cfg, Accepted(st, a, id), a.p, c, x, y);
    IssueAlone(cfg, Answered(cfg, Accepted(st, a, id), a.p, c), a.p, c, LONGEST - 4);
  }

  /** A state that does not match saves nothing, and is gone if it was the user's. */
  lemma MismatchSavesNothing(cfg: Config, st: State, a: Action, p: Pid, c: Choice)
    requires (a.Callback? || a.SelectOne?) && a.p == p && Enabled(st, a) && Enabled(Apply(cfg, st, a), Step(p, c))
    requires c.found.None?
          || !Matches(st.rows[c.found.value], a.user, a.uuid, a.secret,
                      if a.Callback? then Redirect else Select, st.now)
    ensures var end := Called(cfg, st, a, p, c);
      && Ended(end, p) && end.saves == st.saves
      && end.rows == if c.found.Some? then st.rows - {c.found.value} else st.rows
  {
    var came := Apply(cfg, st, a);
    var read := Advance(cfg, came, p, c);
    if c.found.None? {
      FinishedStays(cfg, read, p, c, LONGEST - 1);
    } else {
      var end := Advance(cfg, read, p, c);
      assert Alone(cfg, came, p, c, LONGEST) == Alone(cfg, read, p, c, LONGEST - 1);
      assert Alone(cfg, read, p, c, LONGEST - 1) == Alone(cfg, end, p, c, LONGEST - 2);
      FinishedStays(cfg, end, p, c, LONGEST - 2);
    }
  }

  /** A selection saves exactly the chosen installation when it was offered, and nothing otherwise. */
  lemma SelectSaves(cfg: Config, st: State, a: Action, c: Choice, id: RowId)
    requires a.SelectOne? && Enabled(st, a) && c.found == Some(id) && id in st.rows
    requires Matches(st.rows[id], a.user, a.uuid, a.secret, Select, st.now)
    ensures var end, d := Called(cfg, st, a, a.p, c), st.rows[id].draft;
      && Ended(end, a.p) && end.rows == st.rows - {id}
      && end.saves == st.saves + if a.installation in d.candidates
           then [Saved(a.user, d.target, a.installation, d.verifiedBy, d.flow, d.proof)] else []
  {
    Arrives(cfg, st, a, a.p, c, id);
    var mid := st.(rows := st.rows - {id}).Goto(a.p, Precheck(st.rows[id].draft, Some(a.installation)));
    Chooses(cfg, mid, a.p, c, LONGEST - 2);
  }

  /** The check of a selection, and the save when it was offered. */
  lemma Chooses(cfg: Config, st: State, p: Pid, c: Choice, n: nat)
    requires p in st.requests && st.requests[p].Precheck? && st.requests[p].draft.stage == Select && n >= 3
    requires st.requests[p].asked.Some?
    ensures var r := st.requests[p]; var d, id := r.draft, r.asked.value;
      Alone(cfg, st, p, c, n)
      == st.(saves := st.saves + if id in d.candidates
                                 then [Saved(d.user, d.target, id, d.verifiedBy, d.flow, d.proof)] else [])
           .Goto(p, Finished)
  {
    var d, id := st.requests[p].draft, st.requests[p].asked.value;
    assert Alone(cfg, st, p, c, n) == Alone(cfg, Advance(cfg, st, p, c), p, c, n - 1);
    if id in d.candidates {
      assert Advance(cfg, st, p, c) == st.Goto(p, Validate(d, id));
      SavesOnce(cfg, st.Goto(p, Validate(d, id)), p, c, n - 1);
    } else {
      assert Advance(cfg, st, p, c) == st.Goto(p, Finished);
      FinishedStays(cfg, st.Goto(p, Finished), p, c, n - 1);
    }
  }

  /** A start stores one redirect state for its user and target. */
  lemma StartStores(cfg: Config, st: State, p: Pid, user: UserId, target: Target, c: Choice)
    requires p !in st.requests && UnusedUuid(st.rows, c.uuid)
    ensures var end := Called(cfg, st, StartFlow(p, user, target), p, c);
      && Ended(end, p) && end.saves == st.saves && end.now == st.now && st.nextId in end.rows
      && end.rows[st.nextId]
         == Row(Draft(user, Redirect, target, [], "", p, 0), c.uuid, c.secret, st.now + STATE_TTL)
  {
    var came := Apply(cfg, st, StartFlow(p, user, target));
    IssueAlone(cfg, came, p, c, LONGEST);
  }

  /** The first request runs to its end, and then some time passes. */
  ghost predicate Leads(cfg: Config, st: State, a: Action, c: Choice, waiting: State) {
    && Enabled(st, a) && (a.StartFlow? || a.Callback?)
    && waiting.now < st.now + STATE_TTL && waiting == Called(cfg, st, a, a.p, c).(now := waiting.now)
  }

  /**
   * A start and then a callback, within the state's time to live, save the
   * proven installation for the start's user and target.
   */
  lemma StartThenCallback(
      cfg: Config, st: State, start: Action, c: Choice, waiting: State, a: Action, d: Choice, id: nat)
    requires start.StartFlow? && Leads(cfg, st, start, c, waiting) && UnusedUuid(st.rows, c.uuid)
    requires a.Callback? && a.user == start.user && a.uuid == c.uuid && a.secret == c.secret && a.p !in waiting.requests
    requires d.found == Some(st.nextId) && 1 <= |d.pages| <= G.MAX_INSTALLATION_PAGES && Proves(cfg, d, a.claimed, id)
    ensures var end, proof := Called(cfg, waiting, a, a.p, d), |waiting.verifications|;
      && Ended(end, a.p)
      && end.saves == st.saves + [Saved(start.user, start.target, id, d.login, start.p, proof)]
  {
    StartStores(cfg, st, start.p, start.user, start.target, c);
    CallbackSaves(cfg, waiting, a, d, st.nextId, id);
  }

  /** A callback that leaves a choice and then a selection from its offer save the chosen installation once. */
  lemma CallbackThenSelect(
      cfg: Config, st: State, a: Action, c: Choice, id: RowId, x: nat, y: nat, waiting: State, b: Action, d: Choice)
    requires Presents(st, a, c, id) && a.claimed.None? && UnusedUuid(st.rows, c.uuid)
    requires Lists(cfg, c, x) && Lists(cfg, c, y) && x != y && Leads(cfg, st, a, c, waiting)
    requires b.SelectOne? && b.user == a.user && b.uuid == c.uuid && b.secret == c.secret && b.p !in waiting.requests
    requires d.found == Some(st.nextId)
    ensures var end, origin := Called(cfg, waiting, b, b.p, d), st.rows[id].draft;
      && st.nextId in waiting.rows && Ended(end, b.p)
      && end.saves == st.saves + if b.installation in waiting.rows[st.nextId].draft.candidates
           then [Saved(a.user, origin.target, b.installation, c.login, origin.flow, |st.verifications|)] else []
  {
    CallbackOffers(cfg, st, a, c, id, x, y);
    SelectSaves(cfg, waiting, b, d, st.nextId);
  }
}
