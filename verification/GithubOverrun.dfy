/** Runs that leave a user as many pending flow states as the bound allows. */
module GithubOverrun {
  import opened Prelude
  import opened GithubAppFlow
  import opened GithubPending
  import GithubStates

  const OWNER: UserId := 7
  const TARGET: Target := Create("work")
  const NOBODY: State := State(0, map[], 0, map[], map[], [], [])
  const ANY: Choice := Choice(None, "", "", "", [])

  /** A value of its own for each request. */
  function ValueOf(p: Pid): string {
    seq(p, _ => 'x')
  }

  /** Reached with at most `k` of the user's issues ever overlapping. */
  ghost predicate Reaches(cfg: Config, st: State, t: State, k: nat) {
    exists run :: ValidRun(cfg, st, run) && Overlap(cfg, st, run, OWNER, k) && After(cfg, st, run) == t
  }

  lemma {:induction false} ExtendRun(cfg: Config, st: State, run: seq<Action>, a: Action, k: nat)
    requires ValidRun(cfg, st, run) && Overlap(cfg, st, run, OWNER, k) && Enabled(After(cfg, st, run), a)
    requires |IssuingCalls(Apply(cfg, After(cfg, st, run), a), OWNER)| <= k
    ensures ValidRun(cfg, st, run + [a]) && Overlap(cfg, st, run + [a], OWNER, k)
    ensures After(cfg, st, run + [a]) == Apply(cfg, After(cfg, st, run), a)
    decreases |run|
  {
    if run == [] {
      assert run + [a] == [a];
      assert ValidRun(cfg, Apply(cfg, st, a), [a][1..]);
    } else {
      ExtendRun(cfg, Apply(cfg, st, run[0]), run[1..], a, k);
      assert (run + [a])[1..] == run[1..] + [a];
    }
  }

  lemma Next(cfg: Config, st: State, t: State, k: nat, a: Action, u: State)
    requires Reaches(cfg, st, t, k) && Enabled(t, a) && Apply(cfg, t, a) == u && |IssuingCalls(u, OWNER)| <= k
    ensures Reaches(cfg, st, u, k)
  {
    var run :| ValidRun(cfg, st, run) && Overlap(cfg, st, run, OWNER, k) && After(cfg, st, run) == t;
    ExtendRun(cfg, st, run, a, k);
  }

  /** At time 0, `n` unexpired pending states, and `j` issues about to store theirs: those with the last ids used. */
  ghost predicate Scene(t: State, n: nat, first: Pid, j: nat) {
    && t.now == 0 && |PendingOf(t.rows, OWNER)| == n
    && (forall id :: id in t.rows ==> id < t.nextId && t.rows[id].expiresAt > 0 && |t.rows[id].uuid| < first)
    && (forall p :: p in t.requests ==> p < first + j)
    && (forall p :: p in t.requests && p < first ==> t.requests[p] == Finished)
    && (forall p: Pid :: first <= p < first + j ==>
          p in t.requests && t.requests[p].Insert? && t.requests[p].draft.user == OWNER && t.requests[p].now == 0)
  }

  lemma FewIssuing(t: State, first: Pid, j: nat, k: nat)
    requires j <= k && forall p :: p in IssuingCalls(t, OWNER) ==> first <= p < first + j
    ensures |IssuingCalls(t, OWNER)| <= k
  {
    SubsetSize(IssuingCalls(t, OWNER), Interval(first, j));
  }

  function DraftOf(p: Pid): Draft {
    Draft(OWNER, Redirect, TARGET, [], "", p, 0)
  }

  /** `t` with one more call, of a flow that has started. */
  function Joining(t: State, p: Pid, r: Request): State {
    t.(starts := t.starts[p := Started(OWNER, TARGET)]).Goto(p, r)
  }

  lemma Begins(cfg: Config, t: State, n: nat, first: Pid, j: nat, k: nat)
    requires Reaches(cfg, NOBODY, t, k) && Scene(t, n, first, j) && j <= k
    ensures Reaches(cfg, NOBODY, Joining(t, first + j, Purge(DraftOf(first + j), 0)), k)
  {
    var p := first + j;
    var started := Joining(t, p, Purge(DraftOf(p), 0));
    FewIssuing(started, first, j, k);
    Next(cfg, NOBODY, t, k, StartFlow(p, OWNER, TARGET), started);
  }

  lemma Purges(cfg: Config, t: State, n: nat, first: Pid, j: nat, k: nat)
    requires Reaches(cfg, NOBODY, t, k) && Scene(t, n, first, j) && j <= k
    ensures Reaches(cfg, NOBODY, Joining(t, first + j, FindPending(DraftOf(first + j), 0)), k)
  {
    var p := first + j;
    var started, listing := Joining(t, p, Purge(DraftOf(p), 0)), Joining(t, p, FindPending(DraftOf(p), 0));
    Begins(cfg, t, n, first, j, k);
    assert Expired(t.rows, 0) == {};
    assert t.rows - {} == t.rows;
    assert RunStep(cfg, started, p, ANY) == listing;
    FewIssuing(listing, first, j, k);
    Next(cfg, NOBODY, started, k, Step(p, ANY), listing);
  }

  /** One more issue starts and lists, up to its insert; with at most four pending it finds nothing stale. */
  lemma Joins(cfg: Config, t: State, n: nat, first: Pid, j: nat, k: nat) returns (u: State)
    requires Reaches(cfg, NOBODY, t, k) && Scene(t, n, first, j) && n <= MAX_PENDING - 1 && j < k
    ensures Reaches(cfg, NOBODY, u, k) && Scene(u, n, first, j + 1) && u.rows == t.rows
  {
    var p := first + j;
    var listing := Joining(t, p, FindPending(DraftOf(p), 0));
    u := Joining(t, p, Insert(DraftOf(p), 0, t.nextId));
    Purges(cfg, t, n, first, j, k);
    FindsNothingStale(cfg, t, p);
    JoinedScene(t, n, first, j);
    FewIssuing(u, first, j + 1, k);
    Next(cfg, NOBODY, listing, k, Step(p, ANY), u);
  }

  lemma FindsNothingStale(cfg: Config, t: State, p: Pid)
    requires |PendingOf(t.rows, OWNER)| <= MAX_PENDING - 1
    ensures RunStep(cfg, Joining(t, p, FindPending(DraftOf(p), 0)), p, ANY)
      == Joining(t, p, Insert(DraftOf(p), 0, t.nextId))
  {
    GithubStates.OldestCount(PendingOf(t.rows, OWNER), MAX_PENDING - 1);
    NothingStale(PendingOf(t.rows, OWNER), MAX_PENDING - 1);
  }

  lemma JoinedScene(t: State, n: nat, first: Pid, j: nat)
    requires Scene(t, n, first, j)
    ensures Scene(Joining(t, first + j, Insert(DraftOf(first + j), 0, t.nextId)), n, first, j + 1)
  {
  }

  lemma NothingStale(ids: set<RowId>, keep: nat)
    requires |ids| <= keep && |ids - Oldest(ids, keep)| == |ids|
    ensures Oldest(ids, keep) == {}
  {
    assert |ids - Oldest(ids, keep)| == |ids| - |Oldest(ids, keep)|;
  }

  lemma {:induction false} Gathers(cfg: Config, t: State, n: nat, first: Pid, j: nat, k: nat) returns (u: State)
    requires Reaches(cfg, NOBODY, t, k) && Scene(t, n, first, 0) && n <= MAX_PENDING - 1 && j <= k
    ensures Reaches(cfg, NOBODY, u, k) && Scene(u, n, first, j)
  {
    if j == 0 {
      u := t;
    } else {
      u := Gathers(cfg, t, n, first, j - 1, k);
      u := Joins(cfg, u, n, first, j - 1, k);
    }
  }

  /** The first waiting issue stores its state. */
  lemma Stores(cfg: Config, t: State, n: nat, first: Pid, j: nat, k: nat) returns (u: State)
    requires Reaches(cfg, NOBODY, t, k) && Scene(t, n, first, j) && 0 < j <= k
    ensures Reaches(cfg, NOBODY, u, k) && Scene(u, n + 1, first + 1, j - 1)
  {
    var row := Row(t.requests[first].draft, ValueOf(first), ValueOf(first), STATE_TTL);
    var c := ANY.(uuid := ValueOf(first), secret := ValueOf(first));
    u := Stored(t, first, row);
    assert UnusedUuid(t.rows, c.uuid);
    assert RunStep(cfg, t, first, c) == u;
    FewIssuing(u, first, j, k);
    Next(cfg, NOBODY, t, k, Step(first, c), u);
    StoredScene(t, n, first, j, row);
  }

  lemma StoredScene(t: State, n: nat, first: Pid, j: nat, row: Row)
    requires Scene(t, n, first, j) && j > 0 && row.draft.user == OWNER && row.expiresAt > 0 && |row.uuid| == first
    ensures Scene(Stored(t, first, row), n + 1, first + 1, j - 1)
  {
    GithubStates.OneMorePending(t.rows, t.nextId, row);
  }

  lemma {:induction false} AllStore(cfg: Config, t: State, n: nat, first: Pid, j: nat, k: nat) returns (u: State)
    requires Reaches(cfg, NOBODY, t, k) && Scene(t, n, first, j) && j <= k
    ensures Reaches(cfg, NOBODY, u, k) && Scene(u, n + j, first + j, 0)
    decreases j
  {
    if j == 0 {
      u := t;
    } else {
      u := Stores(cfg, t, n, first, j, k);
      u := AllStore(cfg, u, n + 1, first + 1, j - 1, k);
    }
  }

  /** One issue at a time, up to four states. */
  lemma {:induction false} Fills(cfg: Config, n: nat, k: nat) returns (t: State)
    requires n <= MAX_PENDING - 1 && k > 0
    ensures Reaches(cfg, NOBODY, t, k) && Scene(t, n, n, 0)
  {
    if n == 0 {
      t := NOBODY;
      assert IssuingCalls(NOBODY, OWNER) == {};
      assert ValidRun(cfg, NOBODY, []) && Overlap(cfg, NOBODY, [], OWNER, k) && After(cfg, NOBODY, []) == NOBODY;
      assert PendingOf(NOBODY.rows, OWNER) == {};
    } else {
      t := Fills(cfg, n - 1, k);
      t := Gathers(cfg, t, n - 1, n - 1, 1, k);
      t := AllStore(cfg, t, n - 1, n - 1, 1, k);
    }
  }

  /** The bound is met: for every `k`, a run in which at most `k` issues overlap and `4 + k` states are pending. */
  lemma PendingBoundIsTight(cfg: Config, k: nat)
    requires k > 0
    ensures exists run ::
      && ValidRun(cfg, NOBODY, run) && Overlap(cfg, NOBODY, run, OWNER, k)
      && |PendingOf(After(cfg, NOBODY, run).rows, OWNER)| == MAX_PENDING - 1 + k
  {
    var four := MAX_PENDING - 1;
    var t := Fills(cfg, four, k);
    t := Gathers(cfg, t, four, four, k, k);
    t := AllStore(cfg, t, four, four, k, k);
  }
}
