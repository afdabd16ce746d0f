/** The table of single-use flow states, run one call at a time: issuing under the pending cap, consuming once. */
module GithubStates {
  import opened Prelude
  import opened GithubAppFlow

  ghost predicate IsLeast(ids: set<RowId>, least: RowId) {
    least in ids && forall id :: id in ids ==> least <= id
  }

  lemma {:induction false} HasLeast(ids: set<RowId>)
    requires ids != {}
    ensures exists least :: IsLeast(ids, least)
    decreases |ids|
  {
    var x :| x in ids;
    if IsLeast(ids, x) {
    } else {
      var y :| y in ids && y < x;
      var rest := ids - {x};
      assert y in rest;
      HasLeast(rest);
      var m :| IsLeast(rest, m);
      forall id | id in ids ensures m <= id {
        assert id == x || id in rest;
      }
      assert IsLeast(ids, m);
    }
  }

  lemma RestIsNewer(ids: set<RowId>, least: RowId)
    requires IsLeast(ids, least)
    ensures Newer(ids, least) == ids - {least}
    ensures forall id :: id in ids - {least} ==> Newer(ids, id) == Newer(ids - {least}, id)
  {
  }

  /** Keeping the newest `keep` ids keeps `keep` of them, or all when there are fewer. */
  lemma {:induction false} OldestCount(ids: set<RowId>, keep: nat)
    ensures |ids - Oldest(ids, keep)| == if |ids| <= keep then |ids| else keep
  {
    if ids == {} {
    } else {
      HasLeast(ids);
      var least :| IsLeast(ids, least);
      var rest := ids - {least};
      OldestCount(rest, keep);
      RestIsNewer(ids, least);
      if |rest| < keep {
        forall id | id in ids ensures id !in Oldest(ids, keep) {
          SubsetSize(Newer(ids, id), rest);
        }
        assert ids - Oldest(ids, keep) == ids;
      } else {
        forall id ensures id in Oldest(ids, keep) <==> id in Oldest(rest, keep) || id == least {
        }
        assert ids - Oldest(ids, keep) == rest - Oldest(rest, keep);
      }
    }
  }

  lemma SameSizeSubset(a: set<RowId>, b: set<RowId>)
    requires a <= b && |a| == |b|
    ensures a == b
  {
    assert b == a + (b - a);
  }

  /** Only ids older than every kept one are dropped. */
  lemma OldestAreOlder(ids: set<RowId>, keep: nat, a: RowId, b: RowId)
    requires a in Oldest(ids, keep) && b in ids - Oldest(ids, keep)
    ensures a < b
  {
    if b <= a { SubsetSize(Newer(ids, a), Newer(ids, b)); }
  }

  /** The rows an issue for this user leaves standing: unexpired, and the user's own among their newest four. */
  function Kept(rows: map<RowId, Row>, user: UserId, now: Time): map<RowId, Row> {
    var live := rows - Expired(rows, now);
    live - Oldest(PendingOf(live, user), MAX_PENDING - 1)
  }

  /** The unexpired rows of the user. */
  function LiveOf(rows: map<RowId, Row>, user: UserId, now: Time): set<RowId> {
    set id | id in rows && rows[id].draft.user == user && rows[id].expiresAt > now
  }

  /** The pending cap: the user keeps their newest four, nobody else's unexpired row is lost, expired ones all are. */
  lemma KeptUnderCap(rows: map<RowId, Row>, user: UserId, now: Time)
    ensures |PendingOf(Kept(rows, user, now), user)| <= MAX_PENDING - 1
    ensures |LiveOf(rows, user, now)| <= MAX_PENDING - 1 ==>
      PendingOf(Kept(rows, user, now), user) == LiveOf(rows, user, now)
    ensures |LiveOf(rows, user, now)| >= MAX_PENDING - 1 ==>
      |PendingOf(Kept(rows, user, now), user)| == MAX_PENDING - 1
    ensures forall id :: id in Kept(rows, user, now) ==>
      id in rows && rows[id].expiresAt > now && Kept(rows, user, now)[id] == rows[id]
    ensures forall id :: id in rows && rows[id].expiresAt > now && rows[id].draft.user != user ==>
      id in Kept(rows, user, now)
    ensures forall a, b ::
      && a in rows && rows[a].draft.user == user && rows[a].expiresAt > now && a !in Kept(rows, user, now)
      && b in PendingOf(Kept(rows, user, now), user)
      ==> a < b
  {
    var live := rows - Expired(rows, now);
    var mine := PendingOf(live, user);
    OldestCount(mine, MAX_PENDING - 1);
    assert mine == LiveOf(rows, user, now);
    if |mine| <= MAX_PENDING - 1 { SameSizeSubset(mine - Oldest(mine, MAX_PENDING - 1), mine); }
    assert PendingOf(Kept(rows, user, now), user) == mine - Oldest(mine, MAX_PENDING - 1);
    forall a, b |
      && a in rows && rows[a].draft.user == user && rows[a].expiresAt > now && a !in Kept(rows, user, now)
      && b in PendingOf(Kept(rows, user, now), user)
      ensures a < b
    {
      assert a in live;
      OldestAreOlder(mine, MAX_PENDING - 1, a, b);
    }
  }

  lemma OneMorePending(rows: map<RowId, Row>, id: RowId, row: Row)
    requires id !in rows
    ensures PendingOf(rows[id := row], row.draft.user) == PendingOf(rows, row.draft.user) + {id}
  {
  }

  /** Ids below the counter, uuids unique. */
  ghost predicate Tidy(rows: map<RowId, Row>, nextId: RowId) {
    && (forall id :: id in rows ==> id < nextId)
    && (forall a, b :: a in rows && b in rows && rows[a].uuid == rows[b].uuid ==> a == b)
  }

  lemma IssueStaysTidy(rows: map<RowId, Row>, nextId: RowId, row: Row, now: Time)
    requires Tidy(rows, nextId) && UnusedUuid(rows, row.uuid)
    ensures Tidy(Kept(rows, row.draft.user, now)[nextId := row], nextId + 1)
  {
    var kept := Kept(rows, row.draft.user, now);
    assert forall id :: id in kept ==> id in rows && kept[id] == rows[id];
  }

  /** Deleting the stale rows, or skipping the statement when there are none, comes to the same. */
  lemma KeptInTwoSteps(rows: map<RowId, Row>, user: UserId, now: Time)
    ensures var live := rows - Expired(rows, now);
      var stale := Oldest(PendingOf(live, user), MAX_PENDING - 1);
      Kept(rows, user, now) == if stale != {} then live - stale else live
  {
  }

  /** The table after an issue: tidy, and the user within the cap. */
  lemma IssuedFits(rows: map<RowId, Row>, nextId: RowId, row: Row, now: Time)
    requires Tidy(rows, nextId) && UnusedUuid(rows, row.uuid)
    ensures var after := Kept(rows, row.draft.user, now)[nextId := row];
      Tidy(after, nextId + 1) && |PendingOf(after, row.draft.user)| <= MAX_PENDING
  {
    IssueStaysTidy(rows, nextId, row, now);
    KeptUnderCap(rows, row.draft.user, now);
    OneMorePending(Kept(rows, row.draft.user, now), nextId, row);
  }

  class StateTable {
    var rows: map<RowId, Row>
    var nextId: RowId

    ghost predicate Valid()
      reads this
    {
      Tidy(rows, nextId)
    }

    /** Purges the expired, prunes the user's oldest, then stores the new state: never more than five pending. */
    method Issue(draft: Draft, uuid: string, secret: string, now: Time)
      requires Valid() && UnusedUuid(rows, uuid)
      modifies this
      ensures Valid() && nextId == old(nextId) + 1
      ensures rows == Kept(old(rows), draft.user, now)[old(nextId) := Row(draft, uuid, secret, now + STATE_TTL)]
      ensures |PendingOf(rows, draft.user)| <= MAX_PENDING
    {
      ghost var before := rows;
      var row := Row(draft, uuid, secret, now + STATE_TTL);
      rows := rows - Expired(rows, now);
      var stale := Oldest(PendingOf(rows, draft.user), MAX_PENDING - 1);
      if stale != {} {
        rows := rows - stale;
      }
      KeptInTwoSteps(before, draft.user, now);
      rows := rows[nextId := row];
      IssuedFits(before, nextId, row, now);
      nextId := nextId + 1;
    }

    /**
     * Consumes the user's state with this uuid, if any: it is gone whatever
     * the outcome, and only the right secret, in time and at the right stage,
     * gets what it recorded.
     */
    method Consume(user: UserId, uuid: string, secret: string, stage: Stage, now: Time) returns (r: Option<Draft>)
      requires Valid()
      modifies this`rows
      ensures Valid()
      ensures rows == map id | id in old(rows) &&
        !(old(rows)[id].uuid == uuid && old(rows)[id].draft.user == user) :: old(rows)[id]
      ensures r.Some? <==> exists id :: id in old(rows) && Matches(old(rows)[id], user, uuid, secret, stage, now)
      ensures forall id :: id in old(rows) && Matches(old(rows)[id], user, uuid, secret, stage, now) ==>
        r == Some(old(rows)[id].draft)
    {
      if !exists id :: id in rows && rows[id].uuid == uuid && rows[id].draft.user == user {
        return None;
      }
      var id :| id in rows && rows[id].uuid == uuid && rows[id].draft.user == user;
      var row := rows[id];
      rows := rows - {id};
      if row.secret == secret && row.expiresAt > now && row.draft.stage == stage {
        assert Matches(row, user, uuid, secret, stage, now);
        r := Some(row.draft);
      } else {
        r := None;
      }
    }
  }

  predicate Matches(row: Row, user: UserId, uuid: string, secret: string, stage: Stage, now: Time) {
    && row.uuid == uuid && row.draft.user == user
    && row.secret == secret && row.expiresAt > now && row.draft.stage == stage
  }

  // ---- The same two operations as runs of the protocol nobody interrupts ----

  /** The statements of an issue: purge, find, delete when there is something to delete, insert. */
  function SoloIssue(cfg: Config, st: State, p: Pid, c: Choice): State
    requires p in st.requests && st.requests[p].Purge? && UnusedUuid(st.rows, c.uuid)
  {
    var found := RunStep(cfg, RunStep(cfg, st, p, c), p, c);
    RunStep(cfg, if found.requests[p].DeleteStale? then RunStep(cfg, found, p, c) else found, p, c)
  }

  /** An uninterrupted issue leaves the table that `Issue` computes. */
  lemma UninterruptedIssue(cfg: Config, st: State, p: Pid, c: Choice)
    requires p in st.requests && st.requests[p].Purge? && UnusedUuid(st.rows, c.uuid)
    ensures var r, end := st.requests[p], SoloIssue(cfg, st, p, c);
      && end.requests[p] == Finished && end.nextId == st.nextId + 1
      && end.rows == Kept(st.rows, r.draft.user, r.now)[st.nextId := Row(r.draft, c.uuid, c.secret, r.now + STATE_TTL)]
  {
    var r := st.requests[p];
    var purged := RunStep(cfg, st, p, c);
    assert purged == st.(rows := st.rows - Expired(st.rows, r.now)).Goto(p, FindPending(r.draft, r.now));
    var stale := Oldest(PendingOf(purged.rows, r.draft.user), MAX_PENDING - 1);
    var found := RunStep(cfg, purged, p, c);
    assert found == purged.Goto(p, AfterFind(purged, r.draft, r.now));
    if stale == {} { assert purged.rows - stale == purged.rows; }
  }

  /** An uninterrupted consumption goes on with what the row recorded exactly when `Consume` answers it. */
  lemma UninterruptedConsume(cfg: Config, st: State, p: Pid, c: Choice, id: RowId)
    requires Tidy(st.rows, st.nextId) && Enabled(st, Step(p, c)) && st.requests[p].Lookup?
    ensures var r, read := st.requests[p], RunStep(cfg, st, p, c);
      && (c.found.None? ==> read.requests[p] == Finished && read.rows == st.rows)
      && (c.found.Some? ==>
            var row, end := st.rows[c.found.value], RunStep(cfg, read, p, c);
            && end.rows == st.rows - {c.found.value}
            && end.requests[p] == if Matches(row, r.user, r.uuid, r.secret, r.stage, r.now)
                 then Precheck(row.draft, r.asked) else Finished)
      && (id in st.rows && Matches(st.rows[id], r.user, r.uuid, r.secret, r.stage, r.now) ==> c.found == Some(id))
  {
  }
}
