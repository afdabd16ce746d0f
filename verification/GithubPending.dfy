/**
 * The cap on pending flow states under concurrency. Issues that overlap can
 * each list the user's states before any of them inserts, so the cap of five
 * is exceeded by exactly as many issues as overlap, less one.
 */
module GithubPending {
  import opened Prelude
  import opened GithubAppFlow
  import GithubStates

  /** Between listing the user's pending states and storing the new one. */
  predicate Issuing(r: Request, user: UserId) {
    (r.DeleteStale? || r.Insert?) && r.draft.user == user
  }

  function IssuingCalls(st: State, user: UserId): set<Pid> {
    set p | p in st.requests && Issuing(st.requests[p], user)
  }

  /** At most `k` issues of the user overlap at any time. */
  ghost predicate Overlap(cfg: Config, st: State, run: seq<Action>, user: UserId, k: nat)
    requires ValidRun(cfg, st, run)
    decreases |run|
  {
    && |IssuingCalls(st, user)| <= k
    && (run != [] ==> Overlap(cfg, Apply(cfg, st, run[0]), run[1..], user, k))
  }

  // ---- The bound ----

  function Below(rows: map<RowId, Row>, user: UserId, m: RowId): set<RowId> {
    set id | id in rows && rows[id].draft.user == user && id < m
  }

  function From(rows: map<RowId, Row>, user: UserId, m: RowId): set<RowId> {
    set id | id in rows && rows[id].draft.user == user && id >= m
  }

  /** Issues in progress that listed no later than the mark. */
  function Earlier(st: State, user: UserId, m: RowId): set<Pid> {
    set p | p in st.requests && Issuing(st.requests[p], user) && st.requests[p].mark <= m
  }

  /** States stored since the mark, and issues still going that had listed by then. */
  ghost predicate Room(st: State, user: UserId, k: nat, m: RowId) {
    |From(st.rows, user, m)| + |Earlier(st, user, m)| <= k
  }

  ghost predicate IssueFits(st: State, user: UserId, k: nat, base: RowId, r: Request) {
    Issuing(r, user) ==>
      && r.mark <= st.nextId
      && (base <= r.mark ==> Room(st, user, k, r.mark))
      && |Below(st.rows, user, r.mark) - (if r.DeleteStale? then r.stale else {})| <= MAX_PENDING - 1
  }

  /** `base` is the latest mark among the issues that have stored their state. */
  ghost predicate Inv(st: State, user: UserId, k: nat, base: RowId) {
    && (forall id :: id in st.rows ==> id < st.nextId)
    && base <= st.nextId && |Below(st.rows, user, base)| <= MAX_PENDING - 1 && Room(st, user, k, base)
    && (forall p :: p in st.requests ==> IssueFits(st, user, k, base, st.requests[p]))
  }

  /** Deleting states, ending an issue, or anything outside the issues makes room. */
  lemma ShrinkKeeps(st: State, t: State, user: UserId, k: nat, base: RowId)
    requires Inv(st, user, k, base) && t.nextId == st.nextId
    requires forall id :: id in t.rows ==> id in st.rows && t.rows[id] == st.rows[id]
    requires forall p :: p in t.requests && Issuing(t.requests[p], user) ==>
      p in st.requests && t.requests[p] == st.requests[p]
    ensures Inv(t, user, k, base)
  {
    RoomGrows(st, t, user, k, base);
    SubsetSize(Below(t.rows, user, base), Below(st.rows, user, base));
    forall p | p in t.requests && Issuing(t.requests[p], user) ensures IssueFits(t, user, k, base, t.requests[p]) {
      var r := t.requests[p];
      assert IssueFits(st, user, k, base, r);
      RoomGrows(st, t, user, k, r.mark);
      var stale := if r.DeleteStale? then r.stale else {};
      SubsetSize(Below(t.rows, user, r.mark) - stale, Below(st.rows, user, r.mark) - stale);
    }
  }

  lemma RoomGrows(st: State, t: State, user: UserId, k: nat, m: RowId)
    requires forall id :: id in t.rows ==> id in st.rows && t.rows[id] == st.rows[id]
    requires forall p :: p in t.requests && Issuing(t.requests[p], user) ==>
      p in st.requests && Issuing(st.requests[p], user) && t.requests[p].mark == st.requests[p].mark
    ensures Room(st, user, k, m) ==> Room(t, user, k, m)
  {
    SubsetSize(From(t.rows, user, m), From(st.rows, user, m));
    SubsetSize(Earlier(t, user, m), Earlier(st, user, m));
  }

  /** Listing: the new mark is past every stored state, and at most `k` issues are under way. */
  lemma FindKeeps(st: State, p: Pid, next: Request, user: UserId, k: nat, base: RowId)
    requires Inv(st, user, k, base) && p in st.requests && st.requests[p].FindPending?
    requires (next.DeleteStale? || next.Insert?) && next == AfterFind(st, next.draft, next.now)
    requires |IssuingCalls(st.Goto(p, next), user)| <= k
    ensures Inv(st.Goto(p, next), user, k, base)
  {
    if Issuing(next, user) {
      OwnFindKeeps(st, p, next, user, k, base);
    } else {
      ShrinkKeeps(st, st.Goto(p, next), user, k, base);
    }
  }

  lemma OwnFindKeeps(st: State, p: Pid, next: Request, user: UserId, k: nat, base: RowId)
    requires Inv(st, user, k, base) && p in st.requests && !Issuing(st.requests[p], user) && Issuing(next, user)
    requires next == AfterFind(st, next.draft, next.now) && |IssuingCalls(st.Goto(p, next), user)| <= k
    ensures Inv(st.Goto(p, next), user, k, base)
  {
    var t := st.Goto(p, next);
    FreshMark(t, user, k);
    ListedFits(st, next, user);
    MarksAgree(st, p, next, user, k, base);
    forall q | q in t.requests ensures IssueFits(t, user, k, base, t.requests[q]) {
      if q != p { FindFits(st, p, next, user, k, base, st.requests[q]); }
    }
  }

  lemma FindFits(st: State, p: Pid, next: Request, user: UserId, k: nat, base: RowId, r: Request)
    requires Issuing(next, user) && next.mark == st.nextId && p in st.requests && !Issuing(st.requests[p], user)
    requires Room(st.Goto(p, next), user, k, st.nextId) && IssueFits(st, user, k, base, r)
    ensures IssueFits(st.Goto(p, next), user, k, base, r)
  {
    if Issuing(r, user) && base <= r.mark { MarksAgree(st, p, next, user, k, r.mark); }
  }

  lemma FreshMark(t: State, user: UserId, k: nat)
    requires (forall id :: id in t.rows ==> id < t.nextId) && |IssuingCalls(t, user)| <= k
    ensures Room(t, user, k, t.nextId)
  {
    assert From(t.rows, user, t.nextId) == {};
    SubsetSize(Earlier(t, user, t.nextId), IssuingCalls(t, user));
  }

  lemma ListedFits(st: State, next: Request, user: UserId)
    requires (next.DeleteStale? || next.Insert?) && next == AfterFind(st, next.draft, next.now) &&
      next.draft.user == user
    requires forall id :: id in st.rows ==> id < st.nextId
    ensures |Below(st.rows, user, next.mark) - (if next.DeleteStale? then next.stale else {})| <= MAX_PENDING - 1
  {
    var mine := PendingOf(st.rows, user);
    GithubStates.OldestCount(mine, MAX_PENDING - 1);
    assert Below(st.rows, user, next.mark) == mine;
    if next.Insert? { assert mine - Oldest(mine, MAX_PENDING - 1) == mine - {}; }
  }

  /** A new listing leaves the room at every earlier mark as it was. */
  lemma MarksAgree(st: State, p: Pid, next: Request, user: UserId, k: nat, m: RowId)
    requires Issuing(next, user) && next.mark == st.nextId && p in st.requests && !Issuing(st.requests[p], user)
    requires Room(st, user, k, m) && Room(st.Goto(p, next), user, k, st.nextId) && m <= st.nextId
    ensures Room(st.Goto(p, next), user, k, m)
  {
    if m < st.nextId { assert Earlier(st.Goto(p, next), user, m) == Earlier(st, user, m); }
  }

  /** Deleting: what the issue listed and did not mark stale is all that is left below its mark. */
  lemma DeleteKeeps(st: State, p: Pid, user: UserId, k: nat, base: RowId)
    requires Inv(st, user, k, base) && p in st.requests && st.requests[p].DeleteStale?
    ensures var r := st.requests[p];
      Inv(st.(rows := st.rows - r.stale).Goto(p, Insert(r.draft, r.now, r.mark)), user, k, base)
  {
    var r := st.requests[p];
    var mid := st.(rows := st.rows - r.stale);
    assert IssueFits(st, user, k, base, r);
    ShrinkKeeps(st, mid, user, k, base);
    StaleGone(st, user, r.mark, r.stale);
    ReadyKeeps(mid, p, user, k, base);
  }

  lemma StaleGone(st: State, user: UserId, m: RowId, stale: set<RowId>)
    ensures Below(st.rows - stale, user, m) - {} == Below(st.rows, user, m) - stale
  {
  }

  lemma ReadyKeeps(st: State, p: Pid, user: UserId, k: nat, base: RowId)
    requires Inv(st, user, k, base) && p in st.requests && st.requests[p].DeleteStale?
    requires var r := st.requests[p]; Issuing(r, user) ==> |Below(st.rows, user, r.mark) - {}| <= MAX_PENDING - 1
    ensures var r := st.requests[p]; Inv(st.Goto(p, Insert(r.draft, r.now, r.mark)), user, k, base)
  {
    var r := st.requests[p];
    var t := st.Goto(p, Insert(r.draft, r.now, r.mark));
    SameRoom(st, p, user, k, base);
    forall q | q in t.requests ensures IssueFits(t, user, k, base, t.requests[q]) {
      assert IssueFits(st, user, k, base, st.requests[q]);
      if Issuing(t.requests[q], user) { SameRoom(st, p, user, k, t.requests[q].mark); }
    }
  }

  lemma SameRoom(st: State, p: Pid, user: UserId, k: nat, m: RowId)
    requires p in st.requests && st.requests[p].DeleteStale?
    ensures var r := st.requests[p]; Room(st, user, k, m) <==>
      Room(st.Goto(p, Insert(r.draft, r.now, r.mark)), user, k, m)
  {
    var r := st.requests[p];
    assert Earlier(st.Goto(p, Insert(r.draft, r.now, r.mark)), user, m) == Earlier(st, user, m);
  }

  /** Storing: one state more at every later mark, one issue less. */
  lemma InsertMakesRoom(st: State, t: State, p: Pid, user: UserId, k: nat, m: RowId, row: Row)
    requires p in st.requests && st.requests[p].Insert? && st.requests[p].draft.user == user && st.requests[p].mark <= m
    requires t == Stored(st, p, row)
    requires st.nextId !in st.rows && row.draft.user == user && m <= st.nextId && Room(st, user, k, m)
    ensures Room(t, user, k, m)
  {
    assert From(t.rows, user, m) == From(st.rows, user, m) + {st.nextId};
    assert Earlier(t, user, m) == Earlier(st, user, m) - {p};
    assert p in Earlier(st, user, m);
  }

  lemma InsertKeeps(st: State, p: Pid, user: UserId, k: nat, base: RowId, row: Row) returns (next: RowId)
    requires Inv(st, user, k, base) && p in st.requests && st.requests[p].Insert? && st.requests[p].draft == row.draft
    ensures Inv(Stored(st, p, row), user, k, next)
  {
    var t := Stored(st, p, row);
    if row.draft.user != user {
      next := base;
      OthersInsert(st, t, p, user, k, base, row);
    } else {
      var mark := st.requests[p].mark;
      assert IssueFits(st, user, k, base, st.requests[p]);
      next := if base <= mark then mark else base;
      InsertMakesRoom(st, t, p, user, k, next, row);
      BelowStays(st, t, user, next, row);
      assert Below(st.rows, user, mark) - {} == Below(st.rows, user, mark);
      forall q | q in t.requests ensures IssueFits(t, user, k, next, t.requests[q]) {
        if q != p { InsertFits(st, p, user, k, base, next, row, st.requests[q]); }
      }
    }
  }

  lemma InsertFits(st: State, p: Pid, user: UserId, k: nat, base: RowId, next: RowId, row: Row, r: Request)
    requires p in st.requests && st.requests[p].Insert? && st.requests[p].draft == row.draft && row.draft.user == user
    requires st.nextId !in st.rows && base <= next && st.requests[p].mark <= next && IssueFits(st, user, k, base, r)
    ensures IssueFits(Stored(st, p, row), user, k, next, r)
  {
    if Issuing(r, user) {
      BelowStays(st, Stored(st, p, row), user, r.mark, row);
      if next <= r.mark { InsertMakesRoom(st, Stored(st, p, row), p, user, k, r.mark, row); }
    }
  }

  lemma BelowStays(st: State, t: State, user: UserId, m: RowId, row: Row)
    requires t.rows == st.rows[st.nextId := row] && st.nextId !in st.rows && m <= st.nextId
    ensures Below(t.rows, user, m) == Below(st.rows, user, m)
  {
  }

  lemma OthersInsert(st: State, t: State, p: Pid, user: UserId, k: nat, base: RowId, row: Row)
    requires Inv(st, user, k, base) && p in st.requests && row.draft.user != user && st.requests[p].Insert?
    requires st.requests[p].draft == row.draft
    requires t == Stored(st, p, row)
    ensures Inv(t, user, k, base)
  {
    OthersMakeRoom(st, t, p, user, k, base, row);
    forall q | q in t.requests ensures IssueFits(t, user, k, base, t.requests[q]) {
      if q != p && Issuing(t.requests[q], user) {
        assert IssueFits(st, user, k, base, st.requests[q]);
        OthersMakeRoom(st, t, p, user, k, t.requests[q].mark, row);
      }
    }
  }

  lemma OthersMakeRoom(st: State, t: State, p: Pid, user: UserId, k: nat, m: RowId, row: Row)
    requires p in st.requests && row.draft.user != user && st.requests[p].Insert? && st.requests[p].draft == row.draft
    requires t == Stored(st, p, row) && st.nextId !in st.rows
    ensures Below(t.rows, user, m) == Below(st.rows, user, m)
    ensures Room(st, user, k, m) ==> Room(t, user, k, m)
  {
    assert From(t.rows, user, m) == From(st.rows, user, m);
    assert Earlier(t, user, m) == Earlier(st, user, m);
  }

  lemma StepKeeps(cfg: Config, st: State, a: Action, user: UserId, k: nat, base: RowId) returns (next: RowId)
    requires Inv(st, user, k, base) && Enabled(st, a) && |IssuingCalls(Apply(cfg, st, a), user)| <= k
    ensures Inv(Apply(cfg, st, a), user, k, next)
  {
    next := base;
    if a.Step? && st.requests[a.p].FindPending? {
      var r := st.requests[a.p];
      FindKeeps(st, a.p, AfterFind(st, r.draft, r.now), user, k, base);
    } else if a.Step? && st.requests[a.p].DeleteStale? {
      DeleteKeeps(st, a.p, user, k, base);
    } else if a.Step? && st.requests[a.p].Insert? {
      next := InsertStepKeeps(cfg, st, a.p, a.c, user, k, base);
    } else {
      OtherStepsShrink(cfg, st, a, user);
      ShrinkKeeps(st, Apply(cfg, st, a), user, k, base);
    }
  }

  lemma InsertStepKeeps(cfg: Config, st: State, p: Pid, c: Choice, user: UserId, k: nat, base: RowId)
    returns (next: RowId)
    requires Inv(st, user, k, base) && Enabled(st, Step(p, c)) && st.requests[p].Insert?
    ensures Inv(RunStep(cfg, st, p, c), user, k, next)
  {
    var r := st.requests[p];
    var row := Row(r.draft, c.uuid, c.secret, r.now + STATE_TTL);
    StoreSteps(cfg, st, p, c);
    next := InsertKeeps(st, p, user, k, base, row);
  }

  /** Nothing stored, no issue under way that was not. */
  ghost predicate Shrinks(st: State, t: State, user: UserId) {
    && t.nextId == st.nextId
    && (forall id :: id in t.rows ==> id in st.rows && t.rows[id] == st.rows[id])
    && (forall p :: p in t.requests && Issuing(t.requests[p], user) ==>
          p in st.requests && t.requests[p] == st.requests[p])
  }

  lemma GotoShrinks(st: State, p: Pid, r: Request, user: UserId)
    requires !Issuing(r, user)
    ensures Shrinks(st, st.Goto(p, r), user)
  {
  }

  lemma OtherStepsShrink(cfg: Config, st: State, a: Action, user: UserId)
    requires Enabled(st, a)
    requires a.Step? ==> !st.requests[a.p].FindPending? && !st.requests[a.p].DeleteStale? && !st.requests[a.p].Insert?
    ensures Shrinks(st, Apply(cfg, st, a), user)
  {
    if a.Step? {
      OtherStatementsShrink(cfg, st, a.p, a.c, user);
    } else if !a.Tick? {
      GotoShrinks(st, a.p, Apply(cfg, st, a).requests[a.p], user);
    }
  }

  lemma OtherStatementsShrink(cfg: Config, st: State, p: Pid, c: Choice, user: UserId)
    requires Enabled(st, Step(p, c))
    requires !st.requests[p].FindPending? && !st.requests[p].DeleteStale? && !st.requests[p].Insert?
    ensures Shrinks(st, RunStep(cfg, st, p, c), user)
  {
    var next := RunStep(cfg, st, p, c);
    assert !Issuing(next.requests[p], user);
    GotoShrinks(st, p, next.requests[p], user);
    assert next.nextId == st.nextId && next.requests == st.requests[p := next.requests[p]];
  }

  lemma {:induction false} RunKeeps(cfg: Config, st: State, run: seq<Action>, user: UserId, k: nat, base: RowId)
    returns (last: RowId)
    requires Inv(st, user, k, base) && ValidRun(cfg, st, run) && Overlap(cfg, st, run, user, k)
    ensures Inv(After(cfg, st, run), user, k, last)
    decreases |run|
  {
    if run == [] {
      last := base;
    } else {
      var next := StepKeeps(cfg, st, run[0], user, k, base);
      last := RunKeeps(cfg, Apply(cfg, st, run[0]), run[1..], user, k, next);
    }
  }

  /** When at most `k` issues of a user overlap, the user never has more than `4 + k` pending states. */
  lemma PendingBound(cfg: Config, st: State, run: seq<Action>, user: UserId, k: nat)
    requires Init(st) && ValidRun(cfg, st, run) && Overlap(cfg, st, run, user, k)
    ensures |PendingOf(After(cfg, st, run).rows, user)| <= MAX_PENDING - 1 + k
  {
    InitFits(st, user, k);
    var base := RunKeeps(cfg, st, run, user, k, 0);
    InvBounds(After(cfg, st, run), user, k, base);
  }

  lemma InitFits(st: State, user: UserId, k: nat)
    requires Init(st)
    ensures Inv(st, user, k, 0)
  {
    assert Below(st.rows, user, 0) == {} && From(st.rows, user, 0) == {} && Earlier(st, user, 0) == {};
  }

  lemma InvBounds(st: State, user: UserId, k: nat, base: RowId)
    requires Inv(st, user, k, base)
    ensures |PendingOf(st.rows, user)| <= MAX_PENDING - 1 + k
  {
    assert PendingOf(st.rows, user) == Below(st.rows, user, base) + From(st.rows, user, base);
  }
}
