/**
 * The per-user cap on integrations: create locks the owner's lockout row,
 * counts, inserts and commits as separate steps, interleaved with other
 * creates, renames, deletes and rollbacks. The unique (user, normalised
 * label) index is checked by each write.
 */
module IntegrationCap {
  import opened Prelude

  /** `writer` is the transaction that inserted the row, until it commits; others do not see the row before. */
  datatype Row = Row(user: UserId, name: string, key: string, writer: Option<Pid>)

  datatype Call =
    | WantLock(user: UserId, name: string)
    | CountOwned(user: UserId, name: string)
    | Insert(user: UserId, name: string)
    | Commit(user: UserId, id: RowId)
    | RenameFind(user: UserId, id: RowId, name: string)
    | RenameCheck(user: UserId, id: RowId, name: string)
    | RenameWrite(user: UserId, id: RowId, name: string)
    | DeleteFind(user: UserId, id: RowId)
    | DeleteWrite(user: UserId, id: RowId)
    | Finished

  /** The cap and the label normalisation (trim and lower-case). */
  datatype Config = Config(maxPerUser: int, normalize: string -> string)

  datatype State = State(rows: map<RowId, Row>, nextId: RowId, locks: map<UserId, Pid>, calls: map<Pid, Call>)
  {
    function Goto(p: Pid, c: Call): State {
      this.(calls := calls[p := c])
    }
  }

  datatype Action = Begin(p: Pid, call: Call) | Step(p: Pid) | Abort(p: Pid)

  function RowsOf(rows: map<RowId, Row>, user: UserId): set<RowId> {
    set id | id in rows && rows[id].user == user
  }

  /** The rows of the user a plain read sees. */
  function CommittedOf(rows: map<RowId, Row>, user: UserId): set<RowId> {
    set id | id in rows && rows[id].user == user && rows[id].writer.None?
  }

  predicate Owned(st: State, user: UserId, id: RowId) {
    id in CommittedOf(st.rows, user)
  }

  /** Another row of the user holds the key. */
  predicate KeyTaken(rows: map<RowId, Row>, user: UserId, key: string, except: Option<RowId>) {
    exists id :: id in rows && rows[id].user == user && rows[id].key == key && except != Some(id)
  }

  /** `assertLabelFree`: a plain read finds the key on another row of the user. */
  predicate KeySeen(rows: map<RowId, Row>, user: UserId, key: string, except: RowId) {
    exists other :: other in CommittedOf(rows, user) && rows[other].key == key && other != except
  }

  /** Another transaction's uncommitted row holds the key: the writer waits on its index entry. */
  predicate KeyPending(rows: map<RowId, Row>, p: Pid, user: UserId, key: string) {
    exists id :: id in rows && rows[id].user == user && rows[id].key == key && rows[id].writer.Some? &&
      rows[id].writer != Some(p)
  }

  predicate Enabled(cfg: Config, st: State, a: Action) {
    match a
    case Begin(p, call) => p !in st.calls && (call.WantLock? || call.RenameFind? || call.DeleteFind?)
    case Abort(p) => p in st.calls
    case Step(p) =>
      p in st.calls &&
      match st.calls[p]
      case WantLock(user, _) => user !in st.locks
      case Insert(user, name) => !KeyPending(st.rows, p, user, cfg.normalize(name))
      case RenameWrite(user, _, name) => !KeyPending(st.rows, p, user, cfg.normalize(name))
      case _ => true
  }

  function WithoutLocksOf(locks: map<UserId, Pid>, p: Pid): map<UserId, Pid> {
    map user | user in locks && locks[user] != p :: locks[user]
  }

  /** Rollback: the transaction's uncommitted rows and its locks go. */
  function RolledBack(st: State, p: Pid): State {
    st.(rows := map id | id in st.rows && st.rows[id].writer != Some(p) :: st.rows[id],
        locks := WithoutLocksOf(st.locks, p))
      .Goto(p, Finished)
  }

  function Committed(st: State, p: Pid, id: RowId): State {
    st.(rows := if id in st.rows then st.rows[id := st.rows[id].(writer := None)] else st.rows,
        locks := WithoutLocksOf(st.locks, p))
      .Goto(p, Finished)
  }

  function Apply(cfg: Config, st: State, a: Action): State
    requires Enabled(cfg, st, a)
  {
    match a
    case Begin(p, call) => st.Goto(p, call)
    case Abort(p) => RolledBack(st, p)
    case Step(p) => RunStep(cfg, st, p)
  }

  function RunStep(cfg: Config, st: State, p: Pid): State
    requires p in st.calls
  {
    match st.calls[p]
    case WantLock(user, name) => st.(locks := st.locks[user := p]).Goto(p, CountOwned(user, name))
    case CountOwned(user, name) =>
      if |CommittedOf(st.rows, user)| >= cfg.maxPerUser then RolledBack(st, p) else st.Goto(p, Insert(user, name))
    case Insert(user, name) =>
      if KeyTaken(st.rows, user, cfg.normalize(name), None) then RolledBack(st, p)
      else
        st.(rows := st.rows[st.nextId := Row(user, name, cfg.normalize(name), Some(p))], nextId := st.nextId + 1)
          .Goto(p, Commit(user, st.nextId))
    case Commit(_, id) => Committed(st, p, id)
    case RenameFind(user, id, name) => st.Goto(p, if Owned(st, user, id) then RenameCheck(user, id, name) else Finished)
    case RenameCheck(user, id, name) =>
      st.Goto(p, if KeySeen(st.rows, user, cfg.normalize(name), id) then Finished else RenameWrite(user, id, name))
    case RenameWrite(user, id, name) =>
      (if Owned(st, user, id) && !KeyTaken(st.rows, user, cfg.normalize(name), Some(id))
       then st.(rows := st.rows[id := st.rows[id].(name := name, key := cfg.normalize(name))])
       else st).Goto(p, Finished)
    case DeleteFind(user, id) => st.Goto(p, if Owned(st, user, id) then DeleteWrite(user, id) else Finished)
    case DeleteWrite(user, id) => (if Owned(st, user, id) then st.(rows := st.rows - {id}) else st).Goto(p, Finished)
    case Finished => st
  }

  predicate ValidRun(cfg: Config, st: State, run: seq<Action>)
    decreases |run|
  {
    run == [] || (Enabled(cfg, st, run[0]) && ValidRun(cfg, Apply(cfg, st, run[0]), run[1..]))
  }

  function After(cfg: Config, st: State, run: seq<Action>): State
    requires ValidRun(cfg, st, run)
    decreases |run|
  {
    if run == [] then st else After(cfg, Apply(cfg, st, run[0]), run[1..])
  }

  // ---- The invariant ----

  /** Inside the transaction, after the lock. */
  predicate InTransaction(c: Call) {
    c.CountOwned? || c.Insert? || c.Commit?
  }

  /** A transaction holds its owner's lock, and an uncommitted row is the one its lock holder is about to commit. */
  ghost predicate Locked(st: State) {
    && (forall p :: p in st.calls && InTransaction(st.calls[p]) ==>
          st.calls[p].user in st.locks && st.locks[st.calls[p].user] == p)
    && (forall id :: id in st.rows && st.rows[id].writer.Some? ==>
          && st.rows[id].writer.value in st.calls
          && st.calls[st.rows[id].writer.value] == Commit(st.rows[id].user, id))
    && (forall id :: id in st.rows ==> id < st.nextId)
  }

  /** The user's rows, committed or not, stay within the bound, with room left for an insert that passed its count. */
  ghost predicate Capped(cfg: Config, st: State, user: UserId, bound: int) {
    && |RowsOf(st.rows, user)| <= bound
    && (forall p :: p in st.calls && st.calls[p].Insert? && st.calls[p].user == user ==>
          |RowsOf(st.rows, user)| < cfg.maxPerUser)
  }

  ghost predicate Distinct(cfg: Config, rows: map<RowId, Row>) {
    && (forall a, b :: a in rows && b in rows && a != b && rows[a].user == rows[b].user ==> rows[a].key != rows[b].key)
    && (forall id :: id in rows ==> rows[id].key == cfg.normalize(rows[id].name))
  }

  ghost predicate Inv(cfg: Config, st: State, user: UserId, bound: int) {
    Locked(st) && Capped(cfg, st, user, bound) && Distinct(cfg, st.rows)
  }

  lemma RolledBackKeeps(cfg: Config, st: State, p: Pid, user: UserId, bound: int)
    requires Inv(cfg, st, user, bound)
    ensures Inv(cfg, RolledBack(st, p), user, bound)
  {
    var t := RolledBack(st, p);
    SubsetSize(RowsOf(t.rows, user), RowsOf(st.rows, user));
    assert forall q :: q in t.calls && InTransaction(t.calls[q]) ==> q != p;
  }

  lemma CommittedKeeps(cfg: Config, st: State, p: Pid, user: UserId, bound: int)
    requires Inv(cfg, st, user, bound) && p in st.calls && st.calls[p].Commit?
    ensures Inv(cfg, Committed(st, p, st.calls[p].id), user, bound)
  {
    var t := Committed(st, p, st.calls[p].id);
    assert RowsOf(t.rows, user) == RowsOf(st.rows, user);
    assert forall q :: q in t.calls && InTransaction(t.calls[q]) ==> q != p;
  }

  lemma OneInTransaction(st: State, p: Pid, q: Pid)
    requires Locked(st) && p in st.calls && q in st.calls
    ensures InTransaction(st.calls[p]) && InTransaction(st.calls[q]) && st.calls[p].user == st.calls[q].user ==> p == q
  {
  }

  /** What the lock buys: the count its holder takes misses no row. */
  lemma CountIsComplete(st: State, p: Pid, user: UserId)
    requires Locked(st) && p in st.calls && st.calls[p].CountOwned? && st.calls[p].user == user
    ensures CommittedOf(st.rows, user) == RowsOf(st.rows, user)
  {
    forall id | id in RowsOf(st.rows, user) ensures st.rows[id].writer.None? {
      if st.rows[id].writer.Some? { OneInTransaction(st, p, st.rows[id].writer.value); }
    }
  }

  lemma CountKeeps(cfg: Config, st: State, p: Pid, user: UserId, bound: int)
    requires Inv(cfg, st, user, bound) && p in st.calls && st.calls[p].CountOwned?
    ensures Inv(cfg, RunStep(cfg, st, p), user, bound)
  {
    var u := st.calls[p].user;
    assert InTransaction(st.calls[p]);
    if |CommittedOf(st.rows, u)| >= cfg.maxPerUser {
      RolledBackKeeps(cfg, st, p, user, bound);
    } else {
      CountIsComplete(st, p, u);
    }
  }

  lemma InsertLocks(cfg: Config, st: State, p: Pid)
    requires Locked(st) && p in st.calls && st.calls[p].Insert? &&
      !KeyTaken(st.rows, st.calls[p].user, cfg.normalize(st.calls[p].name), None)
    ensures Locked(RunStep(cfg, st, p))
  {
    assert InTransaction(st.calls[p]);
  }

  lemma InsertCaps(cfg: Config, st: State, p: Pid, user: UserId, bound: int)
    requires Locked(st) && Capped(cfg, st, user, bound) && p in st.calls && st.calls[p].Insert? &&
      bound >= cfg.maxPerUser
    requires !KeyTaken(st.rows, st.calls[p].user, cfg.normalize(st.calls[p].name), None)
    ensures Capped(cfg, RunStep(cfg, st, p), user, bound)
  {
    var t := RunStep(cfg, st, p);
    assert RowsOf(t.rows, user) == RowsOf(st.rows, user) + (if st.calls[p].user == user then {st.nextId} else {});
    forall q | q in t.calls && t.calls[q].Insert? && t.calls[q].user == user
      ensures |RowsOf(t.rows, user)| < cfg.maxPerUser
    {
      OneInTransaction(st, p, q);
    }
  }

  lemma InsertKeeps(cfg: Config, st: State, p: Pid, user: UserId, bound: int)
    requires Inv(cfg, st, user, bound) && p in st.calls && st.calls[p].Insert? && bound >= cfg.maxPerUser
    ensures Inv(cfg, RunStep(cfg, st, p), user, bound)
  {
    if KeyTaken(st.rows, st.calls[p].user, cfg.normalize(st.calls[p].name), None) {
      RolledBackKeeps(cfg, st, p, user, bound);
    } else {
      InsertLocks(cfg, st, p);
      InsertCaps(cfg, st, p, user, bound);
    }
  }

  lemma RenameKeeps(cfg: Config, st: State, p: Pid, user: UserId, bound: int)
    requires Inv(cfg, st, user, bound) && p in st.calls && st.calls[p].RenameWrite?
    ensures Inv(cfg, RunStep(cfg, st, p), user, bound)
  {
    var t := RunStep(cfg, st, p);
    assert RowsOf(t.rows, user) == RowsOf(st.rows, user);
  }

  lemma DeleteKeeps(cfg: Config, st: State, p: Pid, user: UserId, bound: int)
    requires Inv(cfg, st, user, bound) && p in st.calls && st.calls[p].DeleteWrite?
    ensures Inv(cfg, RunStep(cfg, st, p), user, bound)
  {
    var t := RunStep(cfg, st, p);
    SubsetSize(RowsOf(t.rows, user), RowsOf(st.rows, user));
  }

  lemma LockKeeps(cfg: Config, st: State, p: Pid, user: UserId, bound: int)
    requires Inv(cfg, st, user, bound) && Enabled(cfg, st, Step(p)) && st.calls[p].WantLock?
    ensures Inv(cfg, RunStep(cfg, st, p), user, bound)
  {
  }

  /** A call outside any transaction moves to another place outside. */
  lemma OutsideKeeps(cfg: Config, st: State, p: Pid, c: Call, user: UserId, bound: int)
    requires Inv(cfg, st, user, bound) && !c.CountOwned? && !c.Insert? && !c.Commit?
    requires p in st.calls ==> !st.calls[p].Commit?
    ensures Inv(cfg, st.Goto(p, c), user, bound)
  {
  }

  lemma StepKeeps(cfg: Config, st: State, a: Action, user: UserId, bound: int)
    requires Inv(cfg, st, user, bound) && Enabled(cfg, st, a) && bound >= cfg.maxPerUser
    ensures Inv(cfg, Apply(cfg, st, a), user, bound)
  {
    match a
    case Begin(p, call) => OutsideKeeps(cfg, st, p, call, user, bound);
    case Abort(p) => RolledBackKeeps(cfg, st, p, user, bound);
    case Step(p) =>
      match st.calls[p]
      case WantLock(_, _) => LockKeeps(cfg, st, p, user, bound);
      case CountOwned(_, _) => CountKeeps(cfg, st, p, user, bound);
      case Insert(_, _) => InsertKeeps(cfg, st, p, user, bound);
      case Commit(_, _) => CommittedKeeps(cfg, st, p, user, bound);
      case RenameWrite(_, _, _) => RenameKeeps(cfg, st, p, user, bound);
      case DeleteWrite(_, _) => DeleteKeeps(cfg, st, p, user, bound);
      case Finished =>
      case RenameFind(_, _, _) => OutsideKeeps(cfg, st, p, RunStep(cfg, st, p).calls[p], user, bound);
      case RenameCheck(_, _, _) => OutsideKeeps(cfg, st, p, RunStep(cfg, st, p).calls[p], user, bound);
      case DeleteFind(_, _) => OutsideKeeps(cfg, st, p, RunStep(cfg, st, p).calls[p], user, bound);
  }

  lemma {:induction false} RunKeeps(cfg: Config, st: State, run: seq<Action>, user: UserId, bound: int)
    requires Inv(cfg, st, user, bound) && ValidRun(cfg, st, run) && bound >= cfg.maxPerUser
    ensures Inv(cfg, After(cfg, st, run), user, bound)
    decreases |run|
  {
    if run == [] {
    } else {
      StepKeeps(cfg, st, run[0], user, bound);
      RunKeeps(cfg, Apply(cfg, st, run[0]), run[1..], user, bound);
    }
  }

  /** A quiet database: everything committed, labels distinct, nothing in flight. */
  ghost predicate Init(cfg: Config, st: State) {
    && st.calls == map[] && st.locks == map[] && Distinct(cfg, st.rows)
    && (forall id :: id in st.rows ==> id < st.nextId && st.rows[id].writer.None?)
  }

  /**
   * No interleaving lets a user exceed the cap (or what they already had), or
   * hold two rows with one normalised label.
   */
  lemma CapHolds(cfg: Config, st: State, run: seq<Action>, user: UserId)
    requires Init(cfg, st) && ValidRun(cfg, st, run)
    ensures var rows := After(cfg, st, run).rows;
      && |RowsOf(rows, user)| <= Max(|RowsOf(st.rows, user)|, cfg.maxPerUser)
      && (forall a, b :: a in RowsOf(rows, user) && b in RowsOf(rows, user) && a != b ==>
            cfg.normalize(rows[a].name) != cfg.normalize(rows[b].name))
  {
    RunKeeps(cfg, st, run, user, Max(|RowsOf(st.rows, user)|, cfg.maxPerUser));
  }

  // ---- Uninterrupted calls ----

  function Advance(cfg: Config, st: State, p: Pid): State {
    if Enabled(cfg, st, Step(p)) then RunStep(cfg, st, p) else st
  }

  function Alone(cfg: Config, st: State, p: Pid, n: nat): State
    decreases n
  {
    if n == 0 then st else Alone(cfg, Advance(cfg, st, p), p, n - 1)
  }

  lemma {:induction false} FinishedStays(cfg: Config, st: State, p: Pid, n: nat)
    requires p in st.calls && st.calls[p] == Finished
    ensures Alone(cfg, st, p, n) == st
    decreases n
  {
    if n == 0 {
    } else {
      FinishedStays(cfg, st, p, n - 1);
    }
  }

  ghost predicate Ended(st: State, p: Pid) {
    p in st.calls && st.calls[p] == Finished
  }

  /** A transaction that wrote nothing leaves no row behind when it rolls back. */
  lemma NothingRolledBack(st: State, p: Pid)
    requires p in st.calls && (forall id :: id in st.rows ==> st.rows[id].writer != Some(p))
    ensures RolledBack(st, p).rows == st.rows && Ended(RolledBack(st, p), p)
  {
  }

  /**
   * A create that gets the owner's lock and is not interrupted adds exactly
   * one committed row when the owner is below the cap and the label is free,
   * and otherwise changes no row; either way it gives the lock back.
   */
  lemma UninterruptedCreate(cfg: Config, st: State, p: Pid, user: UserId, name: string)
    requires p in st.calls && st.calls[p] == WantLock(user, name) && user !in st.locks && Locked(st)
    requires !KeyPending(st.rows, p, user, cfg.normalize(name))
    ensures var end, key := Alone(cfg, st, p, 4), cfg.normalize(name);
      && Ended(end, p) && user !in end.locks
      && end.rows == if |CommittedOf(st.rows, user)| < cfg.maxPerUser && !KeyTaken(st.rows, user, key, None)
                     then st.rows[st.nextId := Row(user, name, key, None)] else st.rows
  {
    forall id | id in st.rows ensures st.rows[id].writer != Some(p) {
      assert st.rows[id].writer.Some? ==> st.calls[st.rows[id].writer.value].Commit?;
    }
    var holding := st.(locks := st.locks[user := p]).Goto(p, CountOwned(user, name));
    assert Alone(cfg, st, p, 4) == Alone(cfg, holding, p, 3);
    if |CommittedOf(st.rows, user)| >= cfg.maxPerUser {
      NothingRolledBack(holding, p);
      assert Advance(cfg, holding, p) == RolledBack(holding, p);
      FinishedStays(cfg, RolledBack(holding, p), p, 2);
    } else {
      assert Alone(cfg, holding, p, 3) == Alone(cfg, holding.Goto(p, Insert(user, name)), p, 2);
      InsertAlone(cfg, holding.Goto(p, Insert(user, name)), p);
    }
  }

  lemma InsertAlone(cfg: Config, st: State, p: Pid)
    requires p in st.calls && st.calls[p].Insert? && st.nextId !in st.rows
    requires var r := st.calls[p];
      !KeyPending(st.rows, p, r.user, cfg.normalize(r.name)) && r.user in st.locks && st.locks[r.user] == p
    requires forall id :: id in st.rows ==> st.rows[id].writer != Some(p)
    ensures var end, r := Alone(cfg, st, p, 2), st.calls[p]; var key := cfg.normalize(r.name);
      && Ended(end, p) && r.user !in end.locks
      && end.rows == if KeyTaken(st.rows, r.user, key, None) then st.rows
                     else st.rows[st.nextId := Row(r.user, r.name, key, None)]
  {
    var r, key := st.calls[p], cfg.normalize(st.calls[p].name);
    var next := Advance(cfg, st, p);
    assert Alone(cfg, st, p, 2) == Alone(cfg, next, p, 1);
    if KeyTaken(st.rows, r.user, key, None) {
      NothingRolledBack(st, p);
      FinishedStays(cfg, next, p, 1);
    } else {
      var end := Advance(cfg, next, p);
      assert end == Committed(next, p, st.nextId);
      assert Alone(cfg, next, p, 1) == Alone(cfg, end, p, 0);
      assert next.rows[st.nextId := next.rows[st.nextId].(writer := None)]
          == st.rows[st.nextId := Row(r.user, r.name, key, None)];
    }
  }

  /** An uninterrupted rename changes the name of exactly the owner's row, and only to a free label. */
  lemma UninterruptedRename(cfg: Config, st: State, p: Pid, user: UserId, id: RowId, name: string)
    requires p in st.calls && st.calls[p] == RenameFind(user, id, name)
    requires !KeyPending(st.rows, p, user, cfg.normalize(name))
    ensures var end, key := Alone(cfg, st, p, 3), cfg.normalize(name);
      && Ended(end, p)
      && end.rows == if id in st.rows && st.rows[id].user == user && st.rows[id].writer.None?
                        && !KeyTaken(st.rows, user, key, Some(id))
                     then st.rows[id := Row(user, name, key, None)] else st.rows
  {
    var key := cfg.normalize(name);
    if !Owned(st, user, id) {
      FinishedStays(cfg, st.Goto(p, Finished), p, 2);
    } else {
      var found := st.Goto(p, RenameCheck(user, id, name));
      assert Alone(cfg, st, p, 3) == Alone(cfg, found, p, 2);
      if KeySeen(st.rows, user, key, id) {
        FinishedStays(cfg, found.Goto(p, Finished), p, 1);
      } else {
        var free := found.Goto(p, RenameWrite(user, id, name));
        assert Alone(cfg, found, p, 2) == Alone(cfg, free, p, 1) == Alone(cfg, Advance(cfg, free, p), p, 0);
      }
    }
  }

  /** An uninterrupted delete removes exactly the owner's row. */
  lemma UninterruptedDelete(cfg: Config, st: State, p: Pid, user: UserId, id: RowId)
    requires p in st.calls && st.calls[p] == DeleteFind(user, id)
    ensures var end := Alone(cfg, st, p, 2);
      && Ended(end, p)
      && end.rows == if id in st.rows && st.rows[id].user == user && st.rows[id].writer.None?
                     then st.rows - {id} else st.rows
  {
    var next := Advance(cfg, st, p);
    assert Alone(cfg, st, p, 2) == Alone(cfg, next, p, 1) == Alone(cfg, Advance(cfg, next, p), p, 0);
  }
}
