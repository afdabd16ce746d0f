/**
 * The create limit when creates interleave: each call counts the recent
 * requests of its IP and of its username, in two statements, and stores its
 * own later. The open cap in between changes no column the limit looks at and
 * is left to `DeviceFlow`.
 */
module DeviceWindow {
  import opened Prelude
  import opened DeviceCreate
  import DeviceFlow

  /** What a count answered, and how many rows there were (history). */
  datatype Seen = Seen(count: nat, mark: nat)

  datatype Call =
    | Counting(username: string, ip: string, start: Time, ipSeen: Option<Seen>, userSeen: Option<Seen>)
    | Inserting(username: string, ip: string, ipMark: nat, userMark: nat)
    | Done

  datatype State = State(now: Time, rows: seq<Entry>, calls: map<Pid, Call>) {
    function Goto(p: Pid, c: Call): State {
      this.(calls := calls[p := c])
    }
  }

  datatype Step =
    | Tick(to: Time)
    | Begin(p: Pid, username: string, ip: string)
    | CountIp(p: Pid)
    | CountUsername(p: Pid)
    | Insert(p: Pid)

  predicate CanStep(st: State, s: Step) {
    match s
    case Tick(to) => to >= st.now
    case Begin(p, _, _) => p !in st.calls
    case CountIp(p) => p in st.calls && st.calls[p].Counting? && st.calls[p].ipSeen.None?
    case CountUsername(p) => p in st.calls && st.calls[p].Counting? && st.calls[p].userSeen.None?
    case Insert(p) => p in st.calls && st.calls[p].Inserting?
  }

  function Look(st: State, key: Key, start: Time): Seen {
    Seen(Count(st.rows, CreatedAfter(key, start)), |st.rows|)
  }

  /** Once both counts are in, the call goes on below the limit and answers a throwaway request otherwise. */
  function Decide(cfg: Config, c: Call): Call
    requires c.Counting?
  {
    if c.ipSeen.None? || c.userSeen.None? then c
    else if c.ipSeen.value.count >= cfg.createLimit || c.userSeen.value.count >= cfg.createLimit then Done
    else Inserting(c.username, c.ip, c.ipSeen.value.mark, c.userSeen.value.mark)
  }

  function Run(cfg: Config, st: State, s: Step): State
    requires CanStep(st, s)
  {
    match s
    case Tick(to) => st.(now := to)
    case Begin(p, username, ip) => st.Goto(p, Counting(username, ip, st.now - cfg.createWindow, None, None))
    case CountIp(p) =>
      var c := st.calls[p];
      st.Goto(p, Decide(cfg, c.(ipSeen := Some(Look(st, Ip(c.ip), c.start)))))
    case CountUsername(p) =>
      var c := st.calls[p];
      st.Goto(p, Decide(cfg, c.(userSeen := Some(Look(st, Username(c.username), c.start)))))
    case Insert(p) =>
      var c := st.calls[p];
      st.(rows := st.rows + [Entry(c.username, c.ip, None, DeviceFlow.Open, st.now)]).Goto(p, Done)
  }

  predicate ValidSteps(cfg: Config, st: State, run: seq<Step>)
    decreases |run|
  {
    run == [] || (CanStep(st, run[0]) && ValidSteps(cfg, Run(cfg, st, run[0]), run[1..]))
  }

  function End(cfg: Config, st: State, run: seq<Step>): State
    requires ValidSteps(cfg, st, run)
    decreases |run|
  {
    if run == [] then st else End(cfg, Run(cfg, st, run[0]), run[1..])
  }

  /** Where a call that passed the key's count, and has not stored its request, took that count. */
  function Passed(cfg: Config, c: Call, key: Key): Option<nat> {
    match c
    case Done => None
    case Inserting(username, ip, ipMark, userMark) =>
      if key == Ip(ip) then Some(ipMark) else if key == Username(username) then Some(userMark) else None
    case Counting(username, ip, _, ipSeen, userSeen) =>
      var seen := if key == Ip(ip) then ipSeen else if key == Username(username) then userSeen else None;
      if seen.Some? && seen.value.count < cfg.createLimit then Some(seen.value.mark) else None
  }

  /** The calls between passing the key's count and storing their request. */
  function Between(cfg: Config, st: State, key: Key): set<Pid> {
    set p | p in st.calls && Passed(cfg, st.calls[p], key).Some?
  }

  ghost predicate Overlap(cfg: Config, st: State, run: seq<Step>, key: Key, k: nat)
    requires ValidSteps(cfg, st, run)
    decreases |run|
  {
    |Between(cfg, st, key)| <= k && (run != [] ==> Overlap(cfg, Run(cfg, st, run[0]), run[1..], key, k))
  }

  // ---- The bound ----

  function Keyed(key: Key): Entry -> bool {
    (e: Entry) => Has(e, key)
  }

  function Earlier(cfg: Config, st: State, key: Key, m: nat): set<Pid> {
    set p | p in st.calls && Passed(cfg, st.calls[p], key).Some? && Passed(cfg, st.calls[p], key).value <= m
  }

  /** Requests stored since the mark, and calls still going that had counted by then. */
  ghost predicate Room(cfg: Config, st: State, key: Key, k: nat, m: nat)
    requires m <= |st.rows|
  {
    Count(st.rows[m..], Keyed(key)) + |Earlier(cfg, st, key, m)| <= k
  }

  /** Few of the window's requests lie before the mark. */
  ghost predicate Few(cfg: Config, rows: seq<Entry>, key: Key, start: Time, m: nat)
    requires m <= |rows|
  {
    Count(rows[..m], CreatedWithin(key, start, start + cfg.createWindow)) <= Max(cfg.createLimit - 1, 0)
  }

  ghost predicate CallFits(cfg: Config, st: State, key: Key, start: Time, k: nat, base: nat, c: Call) {
    && (c.Counting? ==> c.start <= st.now - cfg.createWindow)
    && (Passed(cfg, c, key).Some? ==>
          var m := Passed(cfg, c, key).value;
          m <= |st.rows| && Few(cfg, st.rows, key, start, m) && (base <= m ==> Room(cfg, st, key, k, m)))
  }

  /** Until the window closes; `base` is the latest mark among the calls that have stored their request. */
  ghost predicate Opened(cfg: Config, st: State, key: Key, start: Time, k: nat, base: nat) {
    && base <= |st.rows| && Few(cfg, st.rows, key, start, base) && Room(cfg, st, key, k, base)
    && (forall p :: p in st.calls ==> CallFits(cfg, st, key, start, k, base, st.calls[p]))
  }

  ghost predicate Bounded(cfg: Config, rows: seq<Entry>, key: Key, start: Time, k: nat) {
    Count(rows, CreatedWithin(key, start, start + cfg.createWindow)) <= Max(cfg.createLimit - 1, 0) + k
  }

  ghost predicate Inv(cfg: Config, st: State, key: Key, start: Time, k: nat, base: nat) {
    if st.now <= start + cfg.createWindow then Opened(cfg, st, key, start, k, base)
    else Bounded(cfg, st.rows, key, start, k)
  }

  lemma {:induction false} CountConcat(a: seq<Entry>, b: seq<Entry>, f: Entry -> bool)
    ensures Count(a + b, f) == Count(a, f) + Count(b, f)
  {
    if b == [] {
      assert a + b == a;
    } else {
      var n := |b| - 1;
      assert (a + b)[..|a + b| - 1] == a + b[..n] && (a + b)[|a + b| - 1] == b[n];
      CountConcat(a, b[..n], f);
    }
  }

  lemma OpenedIsBounded(cfg: Config, st: State, key: Key, start: Time, k: nat, base: nat)
    requires Opened(cfg, st, key, start, k, base)
    ensures Bounded(cfg, st.rows, key, start, k)
  {
    var within := CreatedWithin(key, start, start + cfg.createWindow);
    assert st.rows == st.rows[..base] + st.rows[base..];
    CountConcat(st.rows[..base], st.rows[base..], within);
    CountMonotone(st.rows[base..], within, Keyed(key));
  }

  /** A call that moves without passing the key's count anew. */
  lemma MoveKeeps(cfg: Config, st: State, p: Pid, c: Call, key: Key, start: Time, k: nat, base: nat)
    requires Opened(cfg, st, key, start, k, base) && (c.Counting? ==> c.start <= st.now - cfg.createWindow)
    requires Passed(cfg, c, key).Some? ==> p in st.calls && Passed(cfg, c, key) == Passed(cfg, st.calls[p], key)
    ensures Opened(cfg, st.Goto(p, c), key, start, k, base)
  {
    var t := st.Goto(p, c);
    RoomGrows(cfg, st, p, c, key, k, base);
    forall q | q in t.calls ensures CallFits(cfg, t, key, start, k, base, t.calls[q]) {
      if Passed(cfg, t.calls[q], key).Some? {
        assert CallFits(cfg, st, key, start, k, base, st.calls[q]);
        RoomGrows(cfg, st, p, c, key, k, Passed(cfg, t.calls[q], key).value);
      } else if q != p {
        assert CallFits(cfg, st, key, start, k, base, st.calls[q]);
      }
    }
  }

  lemma RoomGrows(cfg: Config, st: State, p: Pid, c: Call, key: Key, k: nat, m: nat)
    requires Passed(cfg, c, key).Some? ==> p in st.calls && Passed(cfg, c, key) == Passed(cfg, st.calls[p], key)
    requires m <= |st.rows|
    ensures Room(cfg, st, key, k, m) ==> Room(cfg, st.Goto(p, c), key, k, m)
  {
    SubsetSize(Earlier(cfg, st.Goto(p, c), key, m), Earlier(cfg, st, key, m));
  }

  /** Passing the count: it saw every stored request of the window, fewer than the limit. */
  lemma PassKeeps(cfg: Config, st: State, p: Pid, c: Call, key: Key, start: Time, k: nat, base: nat, since: Time)
    requires Opened(cfg, st, key, start, k, base) && p in st.calls && Passed(cfg, st.calls[p], key).None?
    requires Passed(cfg, c, key) == Some(|st.rows|) && (c.Counting? ==> c.start <= st.now - cfg.createWindow)
    requires since <= start && Count(st.rows, CreatedAfter(key, since)) < cfg.createLimit
    requires |Between(cfg, st.Goto(p, c), key)| <= k
    ensures Opened(cfg, st.Goto(p, c), key, start, k, base)
  {
    var t := st.Goto(p, c);
    LatestMark(cfg, t, key, k);
    SeenAll(cfg, st.rows, key, start, since);
    RoomStays(cfg, st, p, c, key, k, base);
    forall q | q in t.calls ensures CallFits(cfg, t, key, start, k, base, t.calls[q]) {
      if q != p {
        assert CallFits(cfg, st, key, start, k, base, st.calls[q]);
        if Passed(cfg, st.calls[q], key).Some? && base <= Passed(cfg, st.calls[q], key).value {
          RoomStays(cfg, st, p, c, key, k, Passed(cfg, st.calls[q], key).value);
        }
      }
    }
  }

  lemma SeenAll(cfg: Config, rows: seq<Entry>, key: Key, start: Time, since: Time)
    requires since <= start && Count(rows, CreatedAfter(key, since)) < cfg.createLimit
    ensures Few(cfg, rows, key, start, |rows|)
  {
    assert rows[..|rows|] == rows;
    CountMonotone(rows, CreatedWithin(key, start, start + cfg.createWindow), CreatedAfter(key, since));
  }

  lemma LatestMark(cfg: Config, t: State, key: Key, k: nat)
    requires |Between(cfg, t, key)| <= k
    ensures Room(cfg, t, key, k, |t.rows|)
  {
    assert t.rows[|t.rows|..] == [];
    SubsetSize(Earlier(cfg, t, key, |t.rows|), Between(cfg, t, key));
  }

  lemma RoomStays(cfg: Config, st: State, p: Pid, c: Call, key: Key, k: nat, m: nat)
    requires m <= |st.rows| && Room(cfg, st, key, k, m) && Room(cfg, st.Goto(p, c), key, k, |st.rows|)
    requires p in st.calls && Passed(cfg, st.calls[p], key).None? && Passed(cfg, c, key) == Some(|st.rows|)
    ensures Room(cfg, st.Goto(p, c), key, k, m)
  {
    if m < |st.rows| { assert Earlier(cfg, st.Goto(p, c), key, m) == Earlier(cfg, st, key, m); }
  }

  function Stored(st: State, p: Pid, e: Entry): State {
    st.(rows := st.rows + [e]).Goto(p, Done)
  }

  /** Storing: one request more at every later mark, one call less. */
  lemma StoreMakesRoom(cfg: Config, st: State, p: Pid, e: Entry, key: Key, k: nat, m: nat)
    requires p in st.calls && m <= |st.rows| && Room(cfg, st, key, k, m)
    requires Has(e, key) ==> Passed(cfg, st.calls[p], key).Some? && Passed(cfg, st.calls[p], key).value <= m
    ensures Room(cfg, Stored(st, p, e), key, k, m)
  {
    var t := Stored(st, p, e);
    assert t.rows[m..] == st.rows[m..] + [e];
    CountAppend(st.rows[m..], e, Keyed(key));
    assert Earlier(cfg, t, key, m) == Earlier(cfg, st, key, m) - {p};
    if Has(e, key) { assert p in Earlier(cfg, st, key, m); }
    SubsetSize(Earlier(cfg, t, key, m), Earlier(cfg, st, key, m));
  }

  lemma StoreFits(cfg: Config, st: State, p: Pid, e: Entry, key: Key, start: Time, k: nat, base: nat, next: nat,
      c: Call)
    requires p in st.calls && base <= next && CallFits(cfg, st, key, start, k, base, c)
    requires Has(e, key) ==> Passed(cfg, st.calls[p], key).Some? && Passed(cfg, st.calls[p], key).value <= next
    ensures CallFits(cfg, Stored(st, p, e), key, start, k, next, c)
  {
    if Passed(cfg, c, key).Some? {
      var m := Passed(cfg, c, key).value;
      assert (st.rows + [e])[..m] == st.rows[..m];
      if next <= m { StoreMakesRoom(cfg, st, p, e, key, k, m); }
    }
  }

  lemma StoreKeeps(cfg: Config, st: State, p: Pid, e: Entry, key: Key, start: Time, k: nat, base: nat)
    returns (next: nat)
    requires Opened(cfg, st, key, start, k, base) && p in st.calls
    requires Has(e, key) ==> Passed(cfg, st.calls[p], key).Some?
    ensures Opened(cfg, Stored(st, p, e), key, start, k, next)
  {
    var t := Stored(st, p, e);
    assert CallFits(cfg, st, key, start, k, base, st.calls[p]);
    next := base;
    if Has(e, key) && Passed(cfg, st.calls[p], key).value >= base { next := Passed(cfg, st.calls[p], key).value; }
    assert t.rows[..next] == st.rows[..next];
    StoreMakesRoom(cfg, st, p, e, key, k, next);
    forall q | q in t.calls ensures CallFits(cfg, t, key, start, k, next, t.calls[q]) {
      if q != p { StoreFits(cfg, st, p, e, key, start, k, base, next, st.calls[q]); }
    }
  }

  /** After the window closed nothing is stored in it. */
  lemma ClosedKeeps(cfg: Config, st: State, s: Step, key: Key, start: Time, k: nat)
    requires CanStep(st, s) && st.now > start + cfg.createWindow && Bounded(cfg, st.rows, key, start, k)
    ensures Bounded(cfg, Run(cfg, st, s).rows, key, start, k)
  {
    if s.Insert? {
      var c := st.calls[s.p];
      CountAppend(st.rows, Entry(c.username, c.ip, None, DeviceFlow.Open, st.now),
        CreatedWithin(key, start, start + cfg.createWindow));
    }
  }

  /** `c` is the call after its count of `counted`. */
  predicate AfterCount(st: State, was: Call, counted: Key, c: Call)
    requires was.Counting?
  {
    match counted
    case Ip(ip) => was.ipSeen.None? && ip == was.ip && c == was.(ipSeen := Some(Look(st, counted, was.start)))
    case Username(name) =>
      was.userSeen.None? && name == was.username && c == was.(userSeen := Some(Look(st, counted, was.start)))
  }

  /** One of a call's two counts: it passes the key's count, or leaves it as it was. */
  lemma CountKeeps(cfg: Config, st: State, p: Pid, c: Call, counted: Key, key: Key, start: Time, k: nat, base: nat)
    requires Opened(cfg, st, key, start, k, base) && st.now <= start + cfg.createWindow
    requires p in st.calls && st.calls[p].Counting? && c.Counting?
    requires AfterCount(st, st.calls[p], counted, c)
    requires |Between(cfg, st.Goto(p, Decide(cfg, c)), key)| <= k
    ensures Opened(cfg, st.Goto(p, Decide(cfg, c)), key, start, k, base)
  {
    assert CallFits(cfg, st, key, start, k, base, st.calls[p]);
    var next := Decide(cfg, c);
    if key == counted && Passed(cfg, next, key).Some? {
      PassKeeps(cfg, st, p, next, key, start, k, base, c.start);
    } else {
      MoveKeeps(cfg, st, p, next, key, start, k, base);
    }
  }

  lemma OpenStepKeeps(cfg: Config, st: State, s: Step, key: Key, start: Time, k: nat, base: nat) returns (next: nat)
    requires Inv(cfg, st, key, start, k, base) && CanStep(st, s) && st.now <= start + cfg.createWindow
    requires |Between(cfg, Run(cfg, st, s), key)| <= k
    ensures Inv(cfg, Run(cfg, st, s), key, start, k, next)
  {
    next := base;
    match s
    case Tick(to) => TickKeeps(cfg, st, to, key, start, k, base);
    case Begin(p, username, ip) => BeginKeeps(cfg, st, p, username, ip, key, start, k, base);
    case CountIp(p) => CountIpKeeps(cfg, st, p, key, start, k, base);
    case CountUsername(p) => CountUsernameKeeps(cfg, st, p, key, start, k, base);
    case Insert(p) => next := InsertKeeps(cfg, st, p, key, start, k, base);
  }

  lemma BeginKeeps(cfg: Config, st: State, p: Pid, username: string, ip: string, key: Key, start: Time, k: nat,
      base: nat)
    requires Inv(cfg, st, key, start, k, base) && p !in st.calls && st.now <= start + cfg.createWindow
    ensures Inv(cfg, Run(cfg, st, Begin(p, username, ip)), key, start, k, base)
  {
    MoveKeeps(cfg, st, p, Counting(username, ip, st.now - cfg.createWindow, None, None), key, start, k, base);
  }

  lemma CountIpKeeps(cfg: Config, st: State, p: Pid, key: Key, start: Time, k: nat, base: nat)
    requires Inv(cfg, st, key, start, k, base) && CanStep(st, CountIp(p)) && st.now <= start + cfg.createWindow
    requires |Between(cfg, Run(cfg, st, CountIp(p)), key)| <= k
    ensures Inv(cfg, Run(cfg, st, CountIp(p)), key, start, k, base)
  {
    var c := st.calls[p];
    CountKeeps(cfg, st, p, c.(ipSeen := Some(Look(st, Ip(c.ip), c.start))), Ip(c.ip), key, start, k, base);
  }

  lemma CountUsernameKeeps(cfg: Config, st: State, p: Pid, key: Key, start: Time, k: nat, base: nat)
    requires Inv(cfg, st, key, start, k, base) && CanStep(st, CountUsername(p)) && st.now <= start + cfg.createWindow
    requires |Between(cfg, Run(cfg, st, CountUsername(p)), key)| <= k
    ensures Inv(cfg, Run(cfg, st, CountUsername(p)), key, start, k, base)
  {
    var c := st.calls[p];
    var counted := Username(c.username);
    CountKeeps(cfg, st, p, c.(userSeen := Some(Look(st, counted, c.start))), counted, key, start, k, base);
  }

  lemma InsertKeeps(cfg: Config, st: State, p: Pid, key: Key, start: Time, k: nat, base: nat) returns (next: nat)
    requires Inv(cfg, st, key, start, k, base) && CanStep(st, Insert(p)) && st.now <= start + cfg.createWindow
    ensures Inv(cfg, Run(cfg, st, Insert(p)), key, start, k, next)
  {
    var c := st.calls[p];
    next := StoreKeeps(cfg, st, p, Entry(c.username, c.ip, None, DeviceFlow.Open, st.now), key, start, k, base);
  }

  lemma TickKeeps(cfg: Config, st: State, to: Time, key: Key, start: Time, k: nat, base: nat)
    requires Inv(cfg, st, key, start, k, base) && to >= st.now && st.now <= start + cfg.createWindow
    ensures Inv(cfg, st.(now := to), key, start, k, base)
  {
    var t := st.(now := to);
    OpenedIsBounded(cfg, st, key, start, k, base);
    forall m: nat | m <= |st.rows| ensures Room(cfg, st, key, k, m) ==> Room(cfg, t, key, k, m) {
      assert Earlier(cfg, t, key, m) == Earlier(cfg, st, key, m);
    }
    forall p | p in t.calls ensures CallFits(cfg, t, key, start, k, base, t.calls[p]) {
      assert CallFits(cfg, st, key, start, k, base, st.calls[p]);
    }
  }

  lemma {:induction false} RunKeeps(cfg: Config, st: State, run: seq<Step>, key: Key, start: Time, k: nat, base: nat)
    requires Inv(cfg, st, key, start, k, base) && ValidSteps(cfg, st, run) && Overlap(cfg, st, run, key, k)
    ensures Bounded(cfg, End(cfg, st, run).rows, key, start, k)
    decreases |run|
  {
    if run == [] {
      if st.now <= start + cfg.createWindow { OpenedIsBounded(cfg, st, key, start, k, base); }
    } else if st.now <= start + cfg.createWindow {
      var next := OpenStepKeeps(cfg, st, run[0], key, start, k, base);
      RunKeeps(cfg, Run(cfg, st, run[0]), run[1..], key, start, k, next);
    } else {
      ClosedKeeps(cfg, st, run[0], key, start, k);
      RunKeeps(cfg, Run(cfg, st, run[0]), run[1..], key, start, k, base);
    }
  }

  /**
   * When at most `k` calls of an IP (or username) overlap between passing its
   * count and storing their request, every window of the configured length
   * holds at most `limit - 1 + k` of its requests.
   */
  lemma ConcurrentWindow(cfg: Config, st: State, run: seq<Step>, key: Key, start: Time, k: nat)
    requires st.rows == [] && st.calls == map[] && ValidSteps(cfg, st, run) && Overlap(cfg, st, run, key, k)
    ensures Count(End(cfg, st, run).rows, CreatedWithin(key, start, start + cfg.createWindow))
      <= Max(cfg.createLimit - 1, 0) + k
  {
    assert Earlier(cfg, st, key, 0) == {};
    RunKeeps(cfg, st, run, key, start, k, 0);
  }

  function Advance(cfg: Config, st: State, s: Step): State {
    if CanStep(st, s) then Run(cfg, st, s) else st
  }

  /** An uninterrupted create is refused exactly over the limit, and otherwise stores its request. */
  lemma UninterruptedCreate(cfg: Config, st: State, p: Pid, username: string, ip: string)
    requires p !in st.calls
    ensures var came := Run(cfg, st, Begin(p, username, ip));
      var end := Advance(cfg, Advance(cfg, Advance(cfg, came, CountIp(p)), CountUsername(p)), Insert(p));
      && p in end.calls && end.calls[p] == Done && end.now == st.now
      && end.rows == st.rows + if OverLimit(cfg, st.rows, st.now, ip, username) then []
                               else [Entry(username, ip, None, DeviceFlow.Open, st.now)]
  {
    var start := st.now - cfg.createWindow;
    var came := Run(cfg, st, Begin(p, username, ip));
    var first := Advance(cfg, came, CountIp(p));
    var seen := Look(st, Ip(ip), start);
    assert first == came.Goto(p, Counting(username, ip, start, Some(seen), None));
    var second := Advance(cfg, first, CountUsername(p));
    var other := Look(st, Username(username), start);
    assert second == first.Goto(p, Decide(cfg, Counting(username, ip, start, Some(seen), Some(other))));
  }
}
