/**
 * The cap on open requests in every interleaving: it holds when the creates
 * of a user do not overlap between their count and their insert, whatever
 * polls, authorizations, denials and expiries run beside them.
 */
module DeviceCap {
  import opened Prelude
  import opened DeviceFlow
  import opened DeviceRuns

  /** Between counting the user's open requests and storing the new one. */
  predicate Creating(c: Call, user: UserId) {
    (c.FindOldest? || c.EvictWrite? || c.InsertRequest?) && c.draft.userId == Some(user)
  }

  function CreatingCalls(st: State, user: UserId): set<Pid> {
    set p | p in st.calls && Creating(st.calls[p], user)
  }

  function AtMost(user: UserId, k: nat): Condition {
    (st: State, a: Action) => |CreatingCalls(st, user)| <= k
  }

  /** At most `k` creates of the user overlap whenever something happens. */
  ghost predicate Overlap(cfg: Config, st: State, run: seq<Action>, user: UserId, k: nat)
    requires ValidRun(cfg, st, run)
  {
    Always(cfg, st, run, AtMost(user, k))
  }

  function Cap(cfg: Config): int {
    Max(cfg.maxOpenPerUser, 1)
  }

  /** The room a create has made, or found, for its insert. */
  ghost predicate HasRoom(cfg: Config, st: State, c: Call, user: UserId) {
    match c
    case EvictWrite(id, _) => |OpenOf(st.rows, user) - {id}| < Cap(cfg)
    case InsertRequest(_) => |OpenOf(st.rows, user)| < Cap(cfg)
    case _ => true
  }

  ghost predicate Inv(cfg: Config, st: State, user: UserId) {
    && (forall id :: id in st.rows ==> id < st.nextId)
    && |OpenOf(st.rows, user)| <= Cap(cfg)
    && (forall p :: p in st.calls && Creating(st.calls[p], user) ==> HasRoom(cfg, st, st.calls[p], user))
  }

  /** Nothing opens, and no create but the one that steps moves. */
  ghost predicate Shrinks(st: State, t: State, p: Pid, user: UserId) {
    && OpenOf(t.rows, user) <= OpenOf(st.rows, user)
    && (forall id :: id in t.rows ==> id < t.nextId)
    && (forall q :: q in t.calls && q != p ==> q in st.calls && t.calls[q] == st.calls[q])
  }

  lemma RoomStays(cfg: Config, st: State, t: State, c: Call, user: UserId)
    requires OpenOf(t.rows, user) <= OpenOf(st.rows, user) && HasRoom(cfg, st, c, user)
    ensures HasRoom(cfg, t, c, user)
  {
    SubsetSize(OpenOf(t.rows, user), OpenOf(st.rows, user));
    if c.EvictWrite? { SubsetSize(OpenOf(t.rows, user) - {c.id}, OpenOf(st.rows, user) - {c.id}); }
  }

  lemma ShrinkKeeps(cfg: Config, st: State, t: State, p: Pid, user: UserId)
    requires Inv(cfg, st, user) && Shrinks(st, t, p, user)
    requires p in t.calls && Creating(t.calls[p], user) ==> HasRoom(cfg, t, t.calls[p], user)
    ensures Inv(cfg, t, user)
  {
    SubsetSize(OpenOf(t.rows, user), OpenOf(st.rows, user));
    forall q | q in t.calls && Creating(t.calls[q], user) ensures HasRoom(cfg, t, t.calls[q], user) {
      if q != p { RoomStays(cfg, st, t, t.calls[q], user); }
    }
  }

  /** No statement but an insert opens a request. */
  lemma OthersShrink(cfg: Config, st: State, p: Pid, c: Choice, user: UserId)
    requires Enabled(st, Step(p, c)) && !st.calls[p].InsertRequest? && forall id :: id in st.rows ==> id < st.nextId
    ensures Shrinks(st, RunStep(cfg, st, p, c), p, user)
  {
    var t := RunStep(cfg, st, p, c);
    assert t.rows.Keys == st.rows.Keys && t.nextId == st.nextId;
    forall id | id in OpenOf(t.rows, user) ensures id in OpenOf(st.rows, user) {
      assert t.rows[id].userId == st.rows[id].userId;
    }
  }

  /** Counting below the cap and finding make room, or name what will. */
  lemma CountingMakesRoom(cfg: Config, st: State, p: Pid, c: Choice, user: UserId)
    requires Inv(cfg, st, user) && Enabled(st, Step(p, c)) && (st.calls[p].CountOpen? || st.calls[p].FindOldest?)
    ensures var t := RunStep(cfg, st, p, c); Creating(t.calls[p], user) ==> HasRoom(cfg, t, t.calls[p], user)
  {
    assert RunStep(cfg, st, p, c).rows == st.rows;
  }

  /** So does evicting, even when the request has meanwhile closed by itself. */
  lemma EvictingMakesRoom(cfg: Config, st: State, p: Pid, c: Choice, user: UserId)
    requires Inv(cfg, st, user) && Enabled(st, Step(p, c)) && st.calls[p].EvictWrite? && Creating(st.calls[p], user)
    ensures var t := RunStep(cfg, st, p, c); HasRoom(cfg, t, t.calls[p], user)
  {
    var call := st.calls[p];
    assert HasRoom(cfg, st, call, user);
    EvictCloses(st, call.id, user);
    SubsetSize(OpenOf(SetStatus(st, call.id, Expired).rows, user), OpenOf(st.rows, user) - {call.id});
  }

  lemma EvictCloses(st: State, id: RowId, user: UserId)
    ensures OpenOf(SetStatus(st, id, Expired).rows, user) <= OpenOf(st.rows, user) - {id}
  {
  }

  lemma MakesRoom(cfg: Config, st: State, p: Pid, c: Choice, user: UserId)
    requires Inv(cfg, st, user) && Enabled(st, Step(p, c)) && !st.calls[p].InsertRequest?
    ensures var t := RunStep(cfg, st, p, c); Creating(t.calls[p], user) ==> HasRoom(cfg, t, t.calls[p], user)
  {
    if st.calls[p].CountOpen? || st.calls[p].FindOldest? {
      CountingMakesRoom(cfg, st, p, c, user);
    } else if st.calls[p].EvictWrite? && Creating(st.calls[p], user) {
      EvictingMakesRoom(cfg, st, p, c, user);
    } else {
      OthersCreateNothing(cfg, st, p, c, user);
    }
  }

  lemma OthersCreateNothing(cfg: Config, st: State, p: Pid, c: Choice, user: UserId)
    requires Enabled(st, Step(p, c)) && !Creating(st.calls[p], user) && !st.calls[p].CountOpen?
    ensures !Creating(RunStep(cfg, st, p, c).calls[p], user)
  {
  }

  function Stored(st: State, p: Pid, draft: Draft): State {
    st.(rows := st.rows[st.nextId := NewRow(draft, st.now)], nextId := st.nextId + 1).Goto(p, Finished)
  }

  lemma NewRowOpens(st: State, p: Pid, draft: Draft, user: UserId)
    requires st.nextId !in st.rows
    ensures OpenOf(Stored(st, p, draft).rows, user)
      == OpenOf(st.rows, user) + (if draft.userId == Some(user) then {st.nextId} else {})
  {
  }

  lemma NobodyElse(s: set<Pid>, p: Pid)
    requires p in s && |s| <= 1
    ensures s - {p} == {}
  {
    assert |s - {p}| == |s| - 1;
  }

  /** The insert of a create that is alone. */
  lemma OwnInsertKeeps(cfg: Config, st: State, p: Pid, user: UserId)
    requires Inv(cfg, st, user) && p in st.calls && st.calls[p].InsertRequest? && Creating(st.calls[p], user)
    requires |CreatingCalls(st, user)| <= 1
    ensures Inv(cfg, Stored(st, p, st.calls[p].draft), user)
  {
    assert HasRoom(cfg, st, st.calls[p], user);
    OneMoreOpen(st, p, st.calls[p].draft, user);
    NoneLeft(st, p, user);
    NoneKeeps(cfg, Stored(st, p, st.calls[p].draft), user);
  }

  lemma OneMoreOpen(st: State, p: Pid, draft: Draft, user: UserId)
    requires st.nextId !in st.rows
    ensures |OpenOf(Stored(st, p, draft).rows, user)| <= |OpenOf(st.rows, user)| + 1
  {
    NewRowOpens(st, p, draft, user);
  }

  lemma NoneKeeps(cfg: Config, t: State, user: UserId)
    requires forall id :: id in t.rows ==> id < t.nextId
    requires |OpenOf(t.rows, user)| <= Cap(cfg) && forall q :: q in t.calls ==> !Creating(t.calls[q], user)
    ensures Inv(cfg, t, user)
  {
  }

  lemma NoneLeft(st: State, p: Pid, user: UserId)
    requires p in st.calls && Creating(st.calls[p], user) && |CreatingCalls(st, user)| <= 1
    ensures forall q :: q in st.calls && q != p ==> !Creating(st.calls[q], user)
  {
    NobodyElse(CreatingCalls(st, user), p);
    forall q | q in st.calls && q != p ensures !Creating(st.calls[q], user) {
      assert q !in CreatingCalls(st, user) - {p};
    }
  }

  lemma InsertKeeps(cfg: Config, st: State, p: Pid, user: UserId)
    requires Inv(cfg, st, user) && p in st.calls && st.calls[p].InsertRequest? && |CreatingCalls(st, user)| <= 1
    ensures Inv(cfg, Stored(st, p, st.calls[p].draft), user)
  {
    if Creating(st.calls[p], user) {
      OwnInsertKeeps(cfg, st, p, user);
    } else {
      NewRowOpens(st, p, st.calls[p].draft, user);
      ShrinkKeeps(cfg, st, Stored(st, p, st.calls[p].draft), p, user);
    }
  }

  lemma StatementKeeps(cfg: Config, st: State, p: Pid, c: Choice, user: UserId)
    requires Inv(cfg, st, user) && Enabled(st, Step(p, c)) && |CreatingCalls(st, user)| <= 1
    ensures Inv(cfg, RunStep(cfg, st, p, c), user)
  {
    if st.calls[p].InsertRequest? {
      InsertKeeps(cfg, st, p, user);
      assert RunStep(cfg, st, p, c) == Stored(st, p, st.calls[p].draft);
    } else {
      OthersShrink(cfg, st, p, c, user);
      MakesRoom(cfg, st, p, c, user);
      ShrinkKeeps(cfg, st, RunStep(cfg, st, p, c), p, user);
    }
  }

  lemma SameTableKeeps(cfg: Config, st: State, t: State, user: UserId)
    requires Inv(cfg, st, user) && t.rows == st.rows && t.nextId == st.nextId && t.calls == st.calls
    ensures Inv(cfg, t, user)
  {
  }

  lemma BeginKeeps(cfg: Config, st: State, p: Pid, c: Call, user: UserId)
    requires Inv(cfg, st, user) && !Creating(c, user)
    ensures Inv(cfg, st.Goto(p, c), user)
  {
    ShrinkKeeps(cfg, st, st.Goto(p, c), p, user);
  }

  lemma StepKeeps(cfg: Config, st: State, a: Action, user: UserId)
    requires Inv(cfg, st, user) && Enabled(st, a) && |CreatingCalls(st, user)| <= 1
    ensures Inv(cfg, Apply(cfg, st, a), user)
  {
    match a
    case Tick(_) => SameTableKeeps(cfg, st, Apply(cfg, st, a), user);
    case UserChanges(_, _) => SameTableKeeps(cfg, st, Apply(cfg, st, a), user);
    case Create(p, draft) => BeginKeeps(cfg, st, p, Apply(cfg, st, a).calls[p], user);
    case Begin(p, call) => BeginKeeps(cfg, st, p, call, user);
    case Step(p, c) => StatementKeeps(cfg, st, p, c, user);
  }

  lemma {:induction false} RunKeeps(cfg: Config, st: State, run: seq<Action>, user: UserId)
    requires Inv(cfg, st, user) && ValidRun(cfg, st, run) && Overlap(cfg, st, run, user, 1)
    ensures Inv(cfg, After(cfg, st, run), user)
    decreases |run|
  {
    if run == [] {
    } else {
      StepKeeps(cfg, st, run[0], user);
      RunKeeps(cfg, Apply(cfg, st, run[0]), run[1..], user);
    }
  }

  /** One create of the user at a time: never more open requests than the cap (or one, with no cap to speak of). */
  lemma CapHoldsAlone(cfg: Config, st: State, run: seq<Action>, user: UserId)
    requires Init(st) && ValidRun(cfg, st, run) && Overlap(cfg, st, run, user, 1)
    ensures |OpenOf(After(cfg, st, run).rows, user)| <= Cap(cfg)
  {
    assert OpenOf(st.rows, user) == {};
    RunKeeps(cfg, st, run, user);
  }
}
