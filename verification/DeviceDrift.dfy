/**
 * The cap on open requests when creates overlap: no number bounds them, even
 * if never more than two calls are in progress. Two creates that find the
 * same oldest request expire it once and insert twice. The pairs lie far
 * enough apart for every create limit: each finds its window empty.
 */
module DeviceDrift {
  import opened Prelude
  import opened DeviceFlow
  import opened DeviceRuns
  import opened DeviceCap
  import DeviceOverrun

  const OWNER: UserId := DeviceOverrun.OWNER
  const NOBODY: State := DeviceOverrun.NOBODY
  const TTL: Time := 3_600_000
  const ANY: Choice := Choice(true, None)

  function DraftAt(now: Time): Draft {
    Draft(Some(OWNER), false, now + TTL)
  }

  function InFlight(st: State): set<Pid> {
    set p | p in st.calls && !st.calls[p].Finished?
  }

  /** No request was created within the last `window`, whatever its IP and username. */
  predicate Quiet(st: State, window: nat) {
    forall id :: id in st.rows ==> st.rows[id].createdAt <= st.now - window
  }

  /** At most two calls in progress, and every create finds its window empty, so that any limit admits it. */
  function Calm(window: nat): Condition {
    (st: State, a: Action) => |InFlight(st)| <= 2 && (a.Create? ==> Quiet(st, window))
  }

  function InWindow(rows: map<RowId, Row>, start: Time, window: nat): set<RowId> {
    set id | id in rows && start < rows[id].createdAt <= start + window
  }

  /** No window of that length holds more than two requests. */
  ghost predicate Sparse(rows: map<RowId, Row>, window: nat) {
    forall start :: |InWindow(rows, start, window)| <= 2
  }

  /** Nothing in progress, `n` open requests. */
  ghost predicate AtRest(t: State, n: nat, window: nat) {
    && |OpenOf(t.rows, OWNER)| == n && InFlight(t) == {} && Sparse(t.rows, window)
    && (forall id :: id in t.rows ==> id < t.nextId && t.rows[id].createdAt <= t.now)
  }

  // ---- Two calls at a time ----

  /** Two calls, everything else as in `t`. */
  function Two(t: State, p: Pid, x: Call, q: Pid, y: Call): State {
    t.(calls := t.calls[p := x][q := y])
  }

  lemma TwoInFlight(t: State, p: Pid, x: Call, q: Pid, y: Call)
    requires InFlight(t) == {}
    ensures |InFlight(Two(t, p, x, q, y))| <= 2
  {
    var s := InFlight(Two(t, p, x, q, y));
    assert forall r :: r in s && r != p && r != q ==> r in InFlight(t);
    SubsetSize(s, {p, q});
  }

  /** One of the two calls runs a statement; `t2` is `t` with the table it leaves. */
  lemma TwoStep(cfg: Config, w: nat, t: State, p: Pid, x: Call, q: Pid, y: Call, a: Action, u: State)
    requires Reaches(cfg, NOBODY, Two(t, p, x, q, y), Calm(w)) && InFlight(t) == {} && a.Step?
    requires Enabled(Two(t, p, x, q, y), a) && Apply(cfg, Two(t, p, x, q, y), a) == u
    ensures Reaches(cfg, NOBODY, u, Calm(w))
  {
    TwoInFlight(t, p, x, q, y);
    ReachesNext(cfg, NOBODY, Two(t, p, x, q, y), a, u, Calm(w));
  }

  lemma BeginOne(cfg: Config, w: nat, t: State, p: Pid)
    requires Reaches(cfg, NOBODY, t, Calm(w)) && InFlight(t) == {} && Quiet(t, w) && p !in t.calls
    ensures var count := CountOpen(DraftAt(t.now)); Reaches(cfg, NOBODY, Two(t, p, count, p, count), Calm(w))
  {
    var count := CountOpen(DraftAt(t.now));
    ReachesNext(cfg, NOBODY, t, Create(p, DraftAt(t.now)), Two(t, p, count, p, count), Calm(w));
  }

  lemma BeginBoth(cfg: Config, w: nat, t: State, p: Pid, q: Pid)
    requires Reaches(cfg, NOBODY, t, Calm(w)) && InFlight(t) == {} && Quiet(t, w)
    requires p !in t.calls && q !in t.calls && p != q
    ensures var count := CountOpen(DraftAt(t.now)); Reaches(cfg, NOBODY, Two(t, p, count, q, count), Calm(w))
  {
    var count := CountOpen(DraftAt(t.now));
    BeginOne(cfg, w, t, p);
    TwoInFlight(t, p, count, p, count);
    var one, both := Two(t, p, count, p, count), Two(t, p, count, q, count);
    ReachesNext(cfg, NOBODY, one, Create(q, DraftAt(t.now)), both, Calm(w));
  }

  function Inserted(t: State): State {
    t.(rows := t.rows[t.nextId := NewRow(DraftAt(t.now), t.now)], nextId := t.nextId + 1)
  }

  // ---- What a round leaves ----

  lemma InsertOpens(t: State)
    requires t.nextId !in t.rows
    ensures OpenOf(Inserted(t).rows, OWNER) == OpenOf(t.rows, OWNER) + {t.nextId}
  {
  }

  lemma EvictCloses(t: State, id: RowId)
    requires id in t.rows
    ensures OpenOf(SetStatus(t, id, Expired).rows, OWNER) == OpenOf(t.rows, OWNER) - {id}
  {
  }

  /** `u` is `t` with rows `a` and `b` new at most, created now, and other rows keeping their creation time. */
  ghost predicate AddsTwo(t: State, u: State, a: RowId, b: RowId) {
    u.now == t.now && forall id :: id in u.rows ==>
      if id == a || id == b then u.rows[id].createdAt == t.now
      else id in t.rows && u.rows[id].createdAt == t.rows[id].createdAt
  }

  lemma StaysSparse(t: State, u: State, w: nat, a: RowId, b: RowId)
    requires Sparse(t.rows, w) && Quiet(t, w) && AddsTwo(t, u, a, b)
    ensures Sparse(u.rows, w)
  {
    forall start ensures |InWindow(u.rows, start, w)| <= 2 {
      if start < t.now <= start + w {
        SubsetSize(InWindow(u.rows, start, w), {a, b});
      } else {
        SubsetSize(InWindow(u.rows, start, w), InWindow(t.rows, start, w));
      }
    }
  }

  lemma RestAgain(t: State, u: State, w: nat, n: nat, p: Pid, q: Pid)
    requires InFlight(t) == {} && u.calls == t.calls && u.now == t.now && Sparse(u.rows, w)
    requires |OpenOf(u.rows, OWNER)| == n && forall id :: id in u.rows ==>
      id < u.nextId && u.rows[id].createdAt <= u.now
    ensures AtRest(Two(u, p, Finished, q, Finished), n, w)
  {
    var s := InFlight(Two(u, p, Finished, q, Finished));
    assert forall r :: r in s ==> r in InFlight(t);
  }

  // ---- One create alone ----

  lemma CountAlone(cfg: Config, w: nat, t: State, n: nat, p: Pid)
    requires Reaches(cfg, NOBODY, t, Calm(w)) && AtRest(t, n, w) && Quiet(t, w) && p !in t.calls
    requires n < cfg.maxOpenPerUser || n == 0
    ensures var insert := InsertRequest(DraftAt(t.now)); Reaches(cfg, NOBODY, Two(t, p, insert, p, insert), Calm(w))
  {
    var d := DraftAt(t.now);
    var count, find, insert := CountOpen(d), FindOldest(d), InsertRequest(d);
    BeginOne(cfg, w, t, p);
    if n < cfg.maxOpenPerUser {
      assert RunStep(cfg, Two(t, p, count, p, count), p, ANY) == Two(t, p, insert, p, insert);
      TwoStep(cfg, w, t, p, count, p, count, Step(p, ANY), Two(t, p, insert, p, insert));
    } else {
      assert OpenOf(t.rows, OWNER) == {};
      assert RunStep(cfg, Two(t, p, count, p, count), p, ANY) == Two(t, p, find, p, find);
      TwoStep(cfg, w, t, p, count, p, count, Step(p, ANY), Two(t, p, find, p, find));
      assert RunStep(cfg, Two(t, p, find, p, find), p, ANY) == Two(t, p, insert, p, insert);
      TwoStep(cfg, w, t, p, find, p, find, Step(p, ANY), Two(t, p, insert, p, insert));
    }
  }

  /** Below the cap (or with none open) a create alone adds one. */
  lemma OneMore(cfg: Config, w: nat, t: State, n: nat, p: Pid) returns (u: State)
    requires Reaches(cfg, NOBODY, t, Calm(w)) && AtRest(t, n, w) && Quiet(t, w) && p !in t.calls
    requires n < cfg.maxOpenPerUser || n == 0
    ensures Reaches(cfg, NOBODY, u, Calm(w)) && AtRest(u, n + 1, w) && u.calls.Keys == t.calls.Keys + {p}
  {
    var insert := InsertRequest(DraftAt(t.now));
    u := Two(Inserted(t), p, Finished, p, Finished);
    CountAlone(cfg, w, t, n, p);
    assert RunStep(cfg, Two(t, p, insert, p, insert), p, ANY) == u;
    TwoStep(cfg, w, t, p, insert, p, insert, Step(p, ANY), u);
    InsertRests(t, w, n, p);
  }

  lemma InsertRests(t: State, w: nat, n: nat, p: Pid)
    requires AtRest(t, n, w) && Quiet(t, w)
    ensures AtRest(Two(Inserted(t), p, Finished, p, Finished), n + 1, w)
  {
    InsertOpens(t);
    StaysSparse(t, Inserted(t), w, t.nextId, t.nextId);
    RestAgain(t, Inserted(t), w, n + 1, p, p);
  }

  // ---- Two creates together ----

  /** At the cap, both count. */
  lemma BothCount(cfg: Config, w: nat, t: State, n: nat, p: Pid, q: Pid)
    requires Reaches(cfg, NOBODY, t, Calm(w)) && AtRest(t, n, w) && Quiet(t, w) && n >= cfg.maxOpenPerUser
    requires p !in t.calls && q !in t.calls && p != q
    ensures var find := FindOldest(DraftAt(t.now)); Reaches(cfg, NOBODY, Two(t, p, find, q, find), Calm(w))
  {
    var count, find := CountOpen(DraftAt(t.now)), FindOldest(DraftAt(t.now));
    BeginBoth(cfg, w, t, p, q);
    CountsOver(cfg, t, p, count, q, count, p);
    TwoStep(cfg, w, t, p, count, q, count, Step(p, ANY), Two(t, p, find, q, count));
    CountsOver(cfg, t, p, find, q, count, q);
    TwoStep(cfg, w, t, p, find, q, count, Step(q, ANY), Two(t, p, find, q, find));
  }

  /** A count at the cap goes on to find the oldest. */
  lemma CountsOver(cfg: Config, t: State, p: Pid, x: Call, q: Pid, y: Call, r: Pid)
    requires p != q && (r == p || r == q) && |OpenOf(t.rows, OWNER)| >= cfg.maxOpenPerUser
    requires (if r == p then x else y) == CountOpen(DraftAt(t.now))
    ensures var find := FindOldest(DraftAt(t.now));
      RunStep(cfg, Two(t, p, x, q, y), r, ANY) == if r == p then Two(t, p, find, q, y) else Two(t, p, x, q, find)
  {
  }

  /** Both find the same oldest request. */
  lemma BothFind(cfg: Config, w: nat, t: State, p: Pid, q: Pid, id: RowId)
    requires InFlight(t) == {} && p != q && IsOldest(t.rows, OWNER, id)
    requires var find := FindOldest(DraftAt(t.now)); Reaches(cfg, NOBODY, Two(t, p, find, q, find), Calm(w))
    ensures var evict := EvictWrite(id, DraftAt(t.now)); Reaches(cfg, NOBODY, Two(t, p, evict, q, evict), Calm(w))
  {
    var find, evict := FindOldest(DraftAt(t.now)), EvictWrite(id, DraftAt(t.now));
    var c := Choice(true, Some(id));
    assert RunStep(cfg, Two(t, p, find, q, find), p, c) == Two(t, p, evict, q, find);
    TwoStep(cfg, w, t, p, find, q, find, Step(p, c), Two(t, p, evict, q, find));
    assert RunStep(cfg, Two(t, p, evict, q, find), q, c) == Two(t, p, evict, q, evict);
    TwoStep(cfg, w, t, p, evict, q, find, Step(q, c), Two(t, p, evict, q, evict));
  }

  /** Both expire it, once between them. */
  lemma BothEvict(cfg: Config, w: nat, t: State, p: Pid, q: Pid, id: RowId)
    requires InFlight(t) == {} && p != q && id in t.rows
    requires var evict := EvictWrite(id, DraftAt(t.now)); Reaches(cfg, NOBODY, Two(t, p, evict, q, evict), Calm(w))
    ensures var insert := InsertRequest(DraftAt(t.now));
      Reaches(cfg, NOBODY, Two(SetStatus(t, id, Expired), p, insert, q, insert), Calm(w))
  {
    var evict, insert := EvictWrite(id, DraftAt(t.now)), InsertRequest(DraftAt(t.now));
    var gone := SetStatus(t, id, Expired);
    assert gone.rows[id := gone.rows[id]] == gone.rows;
    assert RunStep(cfg, Two(t, p, evict, q, evict), p, ANY) == Two(gone, p, insert, q, evict);
    TwoStep(cfg, w, t, p, evict, q, evict, Step(p, ANY), Two(gone, p, insert, q, evict));
    assert RunStep(cfg, Two(gone, p, insert, q, evict), q, ANY) == Two(gone, p, insert, q, insert);
    TwoStep(cfg, w, gone, p, insert, q, evict, Step(q, ANY), Two(gone, p, insert, q, insert));
  }

  /** Both insert. */
  lemma BothInsert(cfg: Config, w: nat, t: State, p: Pid, q: Pid)
    requires InFlight(t) == {} && p != q
    requires var insert := InsertRequest(DraftAt(t.now)); Reaches(cfg, NOBODY, Two(t, p, insert, q, insert), Calm(w))
    ensures Reaches(cfg, NOBODY, Two(Inserted(Inserted(t)), p, Finished, q, Finished), Calm(w))
  {
    var insert, one, two := InsertRequest(DraftAt(t.now)), Inserted(t), Inserted(Inserted(t));
    assert RunStep(cfg, Two(t, p, insert, q, insert), p, ANY) == Two(one, p, Finished, q, insert);
    TwoStep(cfg, w, t, p, insert, q, insert, Step(p, ANY), Two(one, p, Finished, q, insert));
    assert RunStep(cfg, Two(one, p, Finished, q, insert), q, ANY) == Two(two, p, Finished, q, Finished);
    TwoStep(cfg, w, one, p, Finished, q, insert, Step(q, ANY), Two(two, p, Finished, q, Finished));
  }

  /** The net effect on the table: one open request more. */
  lemma NetOneMore(t: State, w: nat, n: nat, id: RowId, p: Pid, q: Pid)
    requires AtRest(t, n, w) && Quiet(t, w) && id in OpenOf(t.rows, OWNER)
    ensures AtRest(Two(Inserted(Inserted(SetStatus(t, id, Expired))), p, Finished, q, Finished), n + 1, w)
  {
    var gone := SetStatus(t, id, Expired);
    var end := Inserted(Inserted(gone));
    EvictCloses(t, id);
    InsertOpens(gone);
    InsertOpens(Inserted(gone));
    assert OpenOf(end.rows, OWNER) == OpenOf(t.rows, OWNER) - {id} + {t.nextId} + {t.nextId + 1};
    assert AddsTwo(t, end, t.nextId, t.nextId + 1);
    StaysSparse(t, end, w, t.nextId, t.nextId + 1);
    RestAgain(t, end, w, n + 1, p, q);
  }

  lemma {:induction false} HasOldest(rows: map<RowId, Row>, ids: set<RowId>)
    requires ids != {} && forall id :: id in ids ==> id in rows
    ensures exists id :: id in ids && forall other :: other in ids ==> rows[id].createdAt <= rows[other].createdAt
    decreases |ids|
  {
    var x :| x in ids;
    var rest := ids - {x};
    if rest == {} {
      assert ids == {x};
    } else {
      HasOldest(rows, rest);
      var m :| m in rest && forall other :: other in rest ==> rows[m].createdAt <= rows[other].createdAt;
      var least := if rows[x].createdAt <= rows[m].createdAt then x else m;
      forall other | other in ids ensures rows[least].createdAt <= rows[other].createdAt {
        assert other == x || other in rest;
      }
    }
  }

  lemma PairAddsOne(cfg: Config, w: nat, t: State, n: nat, p: Pid, q: Pid) returns (u: State)
    requires Reaches(cfg, NOBODY, t, Calm(w)) && AtRest(t, n, w) && Quiet(t, w) && n >= cfg.maxOpenPerUser && n > 0
    requires p !in t.calls && q !in t.calls && p != q
    ensures Reaches(cfg, NOBODY, u, Calm(w)) && AtRest(u, n + 1, w) && u.calls.Keys == t.calls.Keys + {p, q}
  {
    var open := OpenOf(t.rows, OWNER);
    HasOldest(t.rows, open);
    var id :| id in open && forall other :: other in open ==> t.rows[id].createdAt <= t.rows[other].createdAt;
    BothCount(cfg, w, t, n, p, q);
    BothFind(cfg, w, t, p, q, id);
    BothEvict(cfg, w, t, p, q, id);
    BothInsert(cfg, w, SetStatus(t, id, Expired), p, q);
    u := Two(Inserted(Inserted(SetStatus(t, id, Expired))), p, Finished, q, Finished);
    NetOneMore(t, w, n, id, p, q);
  }

  // ---- Any number ----

  /** The clock passes the window. */
  lemma Waits(cfg: Config, w: nat, t: State, n: nat) returns (u: State)
    requires Reaches(cfg, NOBODY, t, Calm(w)) && AtRest(t, n, w)
    ensures Reaches(cfg, NOBODY, u, Calm(w)) && AtRest(u, n, w) && Quiet(u, w) && u.calls == t.calls
  {
    u := t.(now := t.now + w);
    ReachesNext(cfg, NOBODY, t, Tick(t.now + w), u, Calm(w));
    assert InFlight(u) == InFlight(t);
  }

  lemma {:induction false} Grow(cfg: Config, w: nat, n: nat) returns (t: State)
    ensures Reaches(cfg, NOBODY, t, Calm(w)) && AtRest(t, n, w) && forall p :: p in t.calls ==> p < 2 * n
  {
    if n == 0 {
      t := NOBODY;
      ReachesSelf(cfg, NOBODY, Calm(w));
      assert OpenOf(NOBODY.rows, OWNER) == {} && forall start :: InWindow(NOBODY.rows, start, w) == {};
    } else {
      t := Grow(cfg, w, n - 1);
      t := Waits(cfg, w, t, n - 1);
      var p := 2 * n - 2;
      if n - 1 < cfg.maxOpenPerUser || n == 1 {
        t := OneMore(cfg, w, t, n - 1, p);
      } else {
        t := PairAddsOne(cfg, w, t, n - 1, p, p + 1);
      }
    }
  }

  /**
   * For every n, every cap and every window: a run of creates of one user,
   * never more than two in progress, each beginning when no request was
   * created within the window, that leaves n open requests; no window of that
   * length holds more than two requests.
   */
  lemma OpenCapDrifts(cfg: Config, w: nat, n: nat)
    ensures exists run ::
      && ValidRun(cfg, NOBODY, run) && Always(cfg, NOBODY, run, Calm(w))
      && |OpenOf(After(cfg, NOBODY, run).rows, OWNER)| == n && Sparse(After(cfg, NOBODY, run).rows, w)
  {
    var t := Grow(cfg, w, n);
  }

  // ---- Exactly when the cap holds ----

  /** In every run in which at most `k` creates of a user overlap, the user stays within the cap. */
  ghost predicate KeepsCap(cfg: Config, k: nat) {
    forall st, run, user :: Init(st) && ValidRun(cfg, st, run) && Overlap(cfg, st, run, user, k) ==>
      |OpenOf(After(cfg, st, run).rows, user)| <= Cap(cfg)
  }

  lemma {:induction false} CalmOverlap(cfg: Config, st: State, run: seq<Action>, w: nat, k: nat)
    requires ValidRun(cfg, st, run) && Always(cfg, st, run, Calm(w)) && k >= 2
    ensures Overlap(cfg, st, run, OWNER, k)
    decreases |run|
  {
    if run == [] {
    } else {
      SubsetSize(CreatingCalls(st, OWNER), InFlight(st));
      CalmOverlap(cfg, Apply(cfg, st, run[0]), run[1..], w, k);
    }
  }

  /** The cap on open requests holds in all runs with at most `k` overlapping creates if and only if `k <= 1`. */
  lemma OpenCapIff(cfg: Config, k: nat)
    ensures KeepsCap(cfg, k) <==> k <= 1
  {
    if k <= 1 {
      forall st, run, user | Init(st) && ValidRun(cfg, st, run) && Overlap(cfg, st, run, user, k)
        ensures |OpenOf(After(cfg, st, run).rows, user)| <= Cap(cfg)
      {
        FewerOverlap(cfg, st, run, user, k);
        CapHoldsAlone(cfg, st, run, user);
      }
    } else {
      OpenCapDrifts(cfg, 0, Cap(cfg) + 1);
      var run :| ValidRun(cfg, NOBODY, run) && Always(cfg, NOBODY, run, Calm(0))
        && |OpenOf(After(cfg, NOBODY, run).rows, OWNER)| == Cap(cfg) + 1;
      CalmOverlap(cfg, NOBODY, run, 0, k);
      assert Init(NOBODY);
    }
  }

  lemma {:induction false} FewerOverlap(cfg: Config, st: State, run: seq<Action>, user: UserId, k: nat)
    requires ValidRun(cfg, st, run) && Overlap(cfg, st, run, user, k) && k <= 1
    ensures Overlap(cfg, st, run, user, 1)
    decreases |run|
  {
    if run == [] {
    } else {
      FewerOverlap(cfg, Apply(cfg, st, run[0]), run[1..], user, k);
    }
  }
}
