/**
 * Creating authorization requests, one whole call at a time: the sliding
 * window limit per IP and per username, and the per-user cap on open
 * requests with eviction of the oldest.
 */
module DeviceCreate {
  import opened Prelude
  import DeviceFlow

  datatype Entry = Entry(
    username: string, ip: string, userId: Option<UserId>, status: DeviceFlow.Status, createdAt: Time)

  datatype Config = Config(createLimit: int, createWindow: int, maxOpenPerUser: int)

  /** The table, in insertion order, and the clock. */
  datatype Db = Db(now: Time, rows: seq<Entry>)

  function Count(rows: seq<Entry>, f: Entry -> bool): nat {
    if rows == [] then 0
    else Count(rows[..|rows| - 1], f) + if f(rows[|rows| - 1]) then 1 else 0
  }

  /** Whose creations a limit counts. */
  datatype Key = Ip(ip: string) | Username(username: string)

  predicate Has(e: Entry, key: Key) {
    match key
    case Ip(ip) => e.ip == ip
    case Username(username) => e.username == username
  }

  function CreatedAfter(key: Key, start: Time): Entry -> bool {
    (e: Entry) => Has(e, key) && e.createdAt > start
  }

  function CreatedWithin(key: Key, start: Time, end: Time): Entry -> bool {
    (e: Entry) => Has(e, key) && start < e.createdAt <= end
  }

  function OpenFor(user: UserId): Entry -> bool {
    (e: Entry) => e.userId == Some(user) && e.status == DeviceFlow.Open
  }

  predicate OverLimit(cfg: Config, rows: seq<Entry>, now: Time, ip: string, username: string) {
    || Count(rows, CreatedAfter(Ip(ip), now - cfg.createWindow)) >= cfg.createLimit
    || Count(rows, CreatedAfter(Username(username), now - cfg.createWindow)) >= cfg.createLimit
  }

  /** An open request of the user none of whose other open requests is older. */
  predicate IsOldest(rows: seq<Entry>, user: UserId, i: nat) {
    && i < |rows| && OpenFor(user)(rows[i])
    && forall j :: 0 <= j < |rows| && OpenFor(user)(rows[j]) ==> rows[i].createdAt <= rows[j].createdAt
  }

  /** `evicted` is the row the open cap expires, if any. */
  datatype Action =
    | Create(at: Time, username: string, ip: string, userId: Option<UserId>, evicted: Option<nat>)
    | Transition(i: nat, status: DeviceFlow.Status)

  predicate CapReached(cfg: Config, rows: seq<Entry>, userId: Option<UserId>) {
    userId.Some? && Count(rows, OpenFor(userId.value)) >= cfg.maxOpenPerUser
  }

  predicate Evicts(cfg: Config, rows: seq<Entry>, userId: Option<UserId>) {
    CapReached(cfg, rows, userId) && Count(rows, OpenFor(userId.value)) > 0
  }

  predicate Enabled(cfg: Config, db: Db, a: Action) {
    match a
    case Create(at, username, ip, userId, evicted) =>
      && at >= db.now
      && (if !OverLimit(cfg, db.rows, at, ip, username) && Evicts(cfg, db.rows, userId)
          then evicted.Some? && IsOldest(db.rows, userId.value, evicted.value)
          else evicted.None?)
    // A request leaves the open status (authorized, denied, expired, claimed) and never returns to it.
    case Transition(i, status) => i < |db.rows| && status != DeviceFlow.Open
  }

  function Evict(rows: seq<Entry>, evicted: Option<nat>): seq<Entry> {
    if evicted.Some? && evicted.value < |rows|
    then rows[evicted.value := rows[evicted.value].(status := DeviceFlow.Expired)]
    else rows
  }

  function Apply(cfg: Config, db: Db, a: Action): Db
    requires Enabled(cfg, db, a)
  {
    match a
    case Create(at, username, ip, userId, evicted) =>
      if OverLimit(cfg, db.rows, at, ip, username) then db.(now := at)
      else Db(at, Evict(db.rows, evicted) + [Entry(username, ip, userId, DeviceFlow.Open, at)])
    case Transition(i, status) => db.(rows := db.rows[i := db.rows[i].(status := status)])
  }

  predicate ValidRun(cfg: Config, db: Db, run: seq<Action>)
    decreases |run|
  {
    run == [] || (Enabled(cfg, db, run[0]) && ValidRun(cfg, Apply(cfg, db, run[0]), run[1..]))
  }

  function After(cfg: Config, db: Db, run: seq<Action>): Db
    requires ValidRun(cfg, db, run)
    decreases |run|
  {
    if run == [] then db else After(cfg, Apply(cfg, db, run[0]), run[1..])
  }

  // ---- Counting ----

  lemma CountAppend(rows: seq<Entry>, e: Entry, f: Entry -> bool)
    ensures Count(rows + [e], f) == Count(rows, f) + if f(e) then 1 else 0
  {
    assert (rows + [e])[..|rows|] == rows;
  }

  lemma {:induction false} CountUpdate(rows: seq<Entry>, i: nat, e: Entry, f: Entry -> bool)
    requires i < |rows|
    ensures Count(rows[i := e], f) == Count(rows, f) - (if f(rows[i]) then 1 else 0) + (if f(e) then 1 else 0)
    ensures f(rows[i]) ==> Count(rows, f) > 0
  {
    var n := |rows| - 1;
    if i == n {
      assert rows[i := e][..n] == rows[..n];
    } else {
      assert rows[i := e][..n] == rows[..n][i := e];
      CountUpdate(rows[..n], i, e, f);
    }
  }

  lemma {:induction false} CountMonotone(rows: seq<Entry>, f: Entry -> bool, g: Entry -> bool)
    requires forall e :: e in rows && f(e) ==> g(e)
    ensures Count(rows, f) <= Count(rows, g)
  {
    if rows == [] {
    } else {
      CountMonotone(rows[..|rows| - 1], f, g);
    }
  }

  lemma {:induction false} CountPositive(rows: seq<Entry>, user: UserId)
    requires Count(rows, OpenFor(user)) > 0
    ensures exists i: nat :: IsOldest(rows, user, i)
  {
    var n := |rows| - 1;
    var init := rows[..n];
    if Count(init, OpenFor(user)) > 0 {
      CountPositive(init, user);
      var i: nat :| IsOldest(init, user, i);
      if OpenFor(user)(rows[n]) && rows[n].createdAt < rows[i].createdAt {
        assert forall j :: 0 <= j < |init| && OpenFor(user)(rows[j]) ==> init[j] == rows[j];
        assert IsOldest(rows, user, n);
      } else {
        assert forall j :: 0 <= j < |init| && OpenFor(user)(rows[j]) ==> init[j] == rows[j];
        assert IsOldest(rows, user, i);
      }
    } else {
      forall j | 0 <= j < n ensures !OpenFor(user)(rows[j]) {
        if OpenFor(user)(init[j]) { CountUpdate(init, j, init[j], OpenFor(user)); }
      }
      assert IsOldest(rows, user, n);
    }
  }

  /** With the request stored, the window that ends with it holds more than the limit for its IP or username. */
  ghost predicate WouldExceed(cfg: Config, rows: seq<Entry>, e: Entry) {
    exists key ::
      && Has(e, key)
      && Count(rows + [e], CreatedWithin(key, e.createdAt - cfg.createWindow, e.createdAt)) > cfg.createLimit
  }

  /** The window ending at the new request holds what was created after its start, and the request. */
  lemma OneMoreInWindow(rows: seq<Entry>, e: Entry, key: Key, start: Time)
    requires Has(e, key) && e.createdAt > start && forall i :: 0 <= i < |rows| ==> rows[i].createdAt <= e.createdAt
    ensures Count(rows + [e], CreatedWithin(key, start, e.createdAt)) == Count(rows, CreatedAfter(key, start)) + 1
  {
    CountAppend(rows, e, CreatedWithin(key, start, e.createdAt));
    CountMonotone(rows, CreatedWithin(key, start, e.createdAt), CreatedAfter(key, start));
    CountMonotone(rows, CreatedAfter(key, start), CreatedWithin(key, start, e.createdAt));
  }

  // ---- The window limit ----

  /** Any window of the configured length holds at most the limit, for every IP and every username. */
  ghost predicate WindowHolds(cfg: Config, rows: seq<Entry>, key: Key, start: Time) {
    Count(rows, CreatedWithin(key, start, start + cfg.createWindow)) <= Max(cfg.createLimit, 0)
  }

  ghost predicate Throttled(cfg: Config, db: Db) {
    && (forall i :: 0 <= i < |db.rows| ==> db.rows[i].createdAt <= db.now)
    && (forall key, start :: WindowHolds(cfg, db.rows, key, start))
  }

  lemma EvictKeepsWindow(cfg: Config, rows: seq<Entry>, evicted: Option<nat>, key: Key, start: Time)
    requires WindowHolds(cfg, rows, key, start)
    ensures WindowHolds(cfg, Evict(rows, evicted), key, start)
    ensures Count(Evict(rows, evicted), CreatedWithin(key, start, start + cfg.createWindow))
      == Count(rows, CreatedWithin(key, start, start + cfg.createWindow))
  {
    if evicted.Some? && evicted.value < |rows| {
      CountUpdate(rows, evicted.value, rows[evicted.value].(status := DeviceFlow.Expired),
        CreatedWithin(key, start, start + cfg.createWindow));
    }
  }

  lemma CreateKeepsWindow(cfg: Config, rows: seq<Entry>, evicted: Option<nat>, e: Entry, key: Key, start: Time)
    requires WindowHolds(cfg, rows, key, start) && !OverLimit(cfg, rows, e.createdAt, e.ip, e.username)
    ensures WindowHolds(cfg, Evict(rows, evicted) + [e], key, start)
  {
    var within, after := CreatedWithin(key, start, start + cfg.createWindow),
      CreatedAfter(key, e.createdAt - cfg.createWindow);
    EvictKeepsWindow(cfg, rows, evicted, key, start);
    CountAppend(Evict(rows, evicted), e, within);
    if within(e) {
      CountMonotone(rows, within, after);
      assert key == Ip(e.ip) || key == Username(e.username);
    }
  }

  lemma StepKeepsThrottled(cfg: Config, db: Db, a: Action)
    requires Throttled(cfg, db) && Enabled(cfg, db, a)
    ensures Throttled(cfg, Apply(cfg, db, a))
  {
    var next := Apply(cfg, db, a);
    forall key, start ensures WindowHolds(cfg, next.rows, key, start) {
      assert WindowHolds(cfg, db.rows, key, start);
      match a
      case Create(at, username, ip, userId, evicted) =>
        if !OverLimit(cfg, db.rows, at, ip, username) {
          CreateKeepsWindow(cfg, db.rows, evicted, Entry(username, ip, userId, DeviceFlow.Open, at), key, start);
        }
      case Transition(i, status) =>
        CountUpdate(db.rows, i, db.rows[i].(status := status), CreatedWithin(key, start, start + cfg.createWindow));
    }
  }

  lemma {:induction false} RunKeepsThrottled(cfg: Config, db: Db, run: seq<Action>)
    requires Throttled(cfg, db) && ValidRun(cfg, db, run)
    ensures Throttled(cfg, After(cfg, db, run))
    decreases |run|
  {
    if run == [] {
    } else {
      StepKeepsThrottled(cfg, db, run[0]);
      RunKeepsThrottled(cfg, Apply(cfg, db, run[0]), run[1..]);
    }
  }

  /** Over every run from an empty table: no window of the configured length holds more than the limit. */
  lemma WindowLimit(cfg: Config, db: Db, run: seq<Action>, key: Key, start: Time)
    requires db.rows == [] && ValidRun(cfg, db, run)
    ensures Count(After(cfg, db, run).rows, CreatedWithin(key, start, start + cfg.createWindow))
      <= Max(cfg.createLimit, 0)
  {
    assert forall key, start :: WindowHolds(cfg, db.rows, key, start);
    RunKeepsThrottled(cfg, db, run);
    assert WindowHolds(cfg, After(cfg, db, run).rows, key, start);
  }

  // ---- The open cap ----

  lemma StepKeepsCap(cfg: Config, db: Db, a: Action, user: UserId, bound: int)
    requires Enabled(cfg, db, a) && bound >= Max(cfg.maxOpenPerUser, 1) && Count(db.rows, OpenFor(user)) <= bound
    ensures Count(Apply(cfg, db, a).rows, OpenFor(user)) <= bound
  {
    match a
    case Create(at, username, ip, userId, evicted) =>
      if !OverLimit(cfg, db.rows, at, ip, username) {
        CountAppend(Evict(db.rows, evicted), Entry(username, ip, userId, DeviceFlow.Open, at), OpenFor(user));
        if evicted.Some? {
          CountUpdate(db.rows, evicted.value, db.rows[evicted.value].(status := DeviceFlow.Expired), OpenFor(user));
        }
      }
    case Transition(i, status) => CountUpdate(db.rows, i, db.rows[i].(status := status), OpenFor(user));
  }

  /** A user's open requests never outnumber the cap, what they started with, or one. */
  lemma {:induction false} OpenCap(cfg: Config, db: Db, run: seq<Action>, user: UserId, bound: int)
    requires ValidRun(cfg, db, run) && bound >= Max(cfg.maxOpenPerUser, 1) && Count(db.rows, OpenFor(user)) <= bound
    ensures Count(After(cfg, db, run).rows, OpenFor(user)) <= bound
    decreases |run|
  {
    if run == [] {
    } else {
      StepKeepsCap(cfg, db, run[0], user, bound);
      OpenCap(cfg, Apply(cfg, db, run[0]), run[1..], user, bound);
    }
  }

  /** The table the service updates. */
  class Requests {
    const cfg: Config
    var rows: seq<Entry>

    constructor (cfg: Config)
      ensures this.cfg == cfg && rows == []
    {
      this.cfg := cfg;
      rows := [];
    }

    /**
     * On a monotone clock: whether storing the request now would put more
     * than the limit into the window that ends now, for its IP or username.
     */
    method IsOverCreateLimit(now: Time, ip: string, username: string) returns (over: bool)
      ensures over == OverLimit(cfg, rows, now, ip, username)
      ensures cfg.createWindow > 0 && (forall i :: 0 <= i < |rows| ==> rows[i].createdAt <= now) ==>
        forall e: Entry :: e.ip == ip && e.username == username && e.createdAt == now ==>
          (over <==> WouldExceed(cfg, rows, e))
    {
      var windowStart := now - cfg.createWindow;
      var ipCount := Count(rows, CreatedAfter(Ip(ip), windowStart));
      var usernameCount := Count(rows, CreatedAfter(Username(username), windowStart));
      over := ipCount >= cfg.createLimit || usernameCount >= cfg.createLimit;
      if cfg.createWindow > 0 && (forall i :: 0 <= i < |rows| ==> rows[i].createdAt <= now) {
        forall e: Entry | e.ip == ip && e.username == username && e.createdAt == now
          ensures over <==> WouldExceed(cfg, rows, e)
        {
          OneMoreInWindow(rows, e, Ip(ip), windowStart);
          OneMoreInWindow(rows, e, Username(username), windowStart);
          assert forall key :: Has(e, key) <==> key == Ip(ip) || key == Username(username);
        }
      }
    }

    /** At the cap, the user's oldest open request, and nothing else, expires. */
    method EnforceOpenCapFor(user: UserId) returns (evicted: Option<nat>)
      modifies this
      ensures rows == Evict(old(rows), evicted)
      ensures evicted.Some? <==> CapReached(cfg, old(rows), Some(user)) && Count(old(rows), OpenFor(user)) > 0
      ensures evicted.Some? ==> IsOldest(old(rows), user, evicted.value)
    {
      var openCount := Count(rows, OpenFor(user));
      if openCount < cfg.maxOpenPerUser || openCount == 0 {
        return None;
      }
      CountPositive(rows, user);
      var i: nat :| i < |rows| && IsOldest(rows, user, i);
      evicted := Some(i);
      rows := rows[i := rows[i].(status := DeviceFlow.Expired)];
    }

    /** One whole call is one step of the runs above; over the limit it changes nothing. */
    method CreateRequest(now: Time, username: string, ip: string, userId: Option<UserId>)
      returns (created: bool, ghost a: Action)
      modifies this
      ensures created <==> !OverLimit(cfg, old(rows), now, ip, username)
      ensures a.Create? && a.at == now && a.username == username && a.ip == ip && a.userId == userId
      ensures Enabled(cfg, Db(now, old(rows)), a) && rows == Apply(cfg, Db(now, old(rows)), a).rows
      ensures !created ==> rows == old(rows)
      ensures created ==>
        && |rows| == |old(rows)| + 1 && rows[|old(rows)|] == Entry(username, ip, userId, DeviceFlow.Open, now)
        && (forall i :: 0 <= i < |old(rows)| ==>
              rows[i] == if a.evicted == Some(i) then old(rows)[i].(status := DeviceFlow.Expired) else old(rows)[i])
        && (a.evicted.Some? ==> userId.Some? && IsOldest(old(rows), userId.value, a.evicted.value))
    {
      var overLimit := IsOverCreateLimit(now, ip, username);
      if overLimit {
        return false, Create(now, username, ip, userId, None);
      }
      var evicted: Option<nat> := None;
      if userId.Some? {
        evicted := EnforceOpenCapFor(userId.value);
      }
      rows := rows + [Entry(username, ip, userId, DeviceFlow.Open, now)];
      return true, Create(now, username, ip, userId, evicted);
    }
  }
}
