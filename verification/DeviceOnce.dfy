/**
 * Exactly when an authorization request keeps what the flow promises of it:
 * it is claimed once, it mints one session, a denied one mints none. Each
 * promise hangs on the unguarded writes of one kind to that one request, and
 * on what such a write finds.
 */
module DeviceOnce {
  import opened Prelude
  import opened DeviceFlow
  import opened DeviceRuns
  import opened DeviceClaims

  datatype Promise = ClaimedOnce | MintedOnce | DeniedMintsNone

  /** Won a claim and may still mint. */
  predicate IsMinter(c: Call, id: RowId) {
    (c.ClaimUser? || c.Mint?) && c.id == id
  }

  function Minters(calls: map<Pid, Call>, id: RowId): set<Pid> {
    set p | p in calls && IsMinter(calls[p], id)
  }

  /** Sessions of the request, minted or possibly about to be. */
  function Sold(st: State, id: RowId): nat {
    if id in st.rows then |st.rows[id].minted| + |Minters(st.calls, id)| else 0
  }

  predicate Broken(k: Promise, st: State, id: RowId) {
    id in st.rows &&
    match k
    case ClaimedOnce => st.rows[id].claims >= 2
    case MintedOnce => |st.rows[id].minted| >= 2
    case DeniedMintsNone => st.rows[id].status == Denied && st.rows[id].minted != []
  }

  /** The writes the promise hangs on: approvals for the first two, denials for the last. */
  predicate Writes(k: Promise, st: State, a: Action, id: RowId) {
    && a.Step? && a.p in st.calls && id in st.rows
    && var c := st.calls[a.p];
       if k.DeniedMintsNone?
       then (c.DenyWrite? && c.id == id) || (c.DenyClaimed? && c.id == id && st.rows[id].status == Logged)
       else c.ApproveWrite? && c.id == id
  }

  /** The write comes too late: over a request already claimed, or with a session minted or on its way. */
  predicate TooLate(k: Promise, st: State, a: Action, id: RowId) {
    && Writes(k, st, a, id)
    && (if k.ClaimedOnce? then st.rows[id].loggedAt.Some? else Sold(st, id) > 0)
  }

  function NotTooLate(k: Promise, id: RowId): Condition {
    (st: State, a: Action) => !TooLate(k, st, a, id)
  }

  function NoWrite(k: Promise, id: RowId): Condition {
    (st: State, a: Action) => !Writes(k, st, a, id)
  }

  /** No write of the run comes too late. */
  ghost predicate Timely(cfg: Config, k: Promise, st: State, run: seq<Action>, id: RowId)
    requires ValidRun(cfg, st, run)
  {
    Always(cfg, st, run, NotTooLate(k, id))
  }

  /** No such write at all. */
  ghost predicate Free(cfg: Config, k: Promise, st: State, run: seq<Action>, id: RowId)
    requires ValidRun(cfg, st, run)
  {
    Always(cfg, st, run, NoWrite(k, id))
  }

  /** From here, nothing breaks the promise without a further such write. */
  ghost predicate Safe(cfg: Config, k: Promise, st: State, id: RowId) {
    forall ext :: ValidRun(cfg, st, ext) && Free(cfg, k, st, ext, id) ==> !Broken(k, After(cfg, st, ext), id)
  }

  ghost predicate SafeThroughout(cfg: Config, k: Promise, st: State, run: seq<Action>, id: RowId)
    requires ValidRun(cfg, st, run)
    decreases |run|
  {
    && Safe(cfg, k, st, id)
    && (run != [] ==> SafeThroughout(cfg, k, Apply(cfg, st, run[0]), run[1..], id))
  }

  // ---- Timely runs are safe ----

  ghost predicate Good(k: Promise, st: State, id: RowId) {
    id in st.rows ==>
      var row := st.rows[id];
      match k
      case ClaimedOnce => row.claims <= 1 && (row.status == Approved ==> row.claims == 0)
      case MintedOnce => Sold(st, id) <= 1 && (row.status == Approved ==> Sold(st, id) == 0)
      case DeniedMintsNone => row.status == Denied ==> Sold(st, id) == 0
  }

  lemma MintersMove(calls: map<Pid, Call>, p: Pid, c: Call, id: RowId)
    ensures var was := |Minters(calls, id)|; var next := |Minters(calls[p := c], id)|;
      && (IsMinter(c, id) && p in calls && IsMinter(calls[p], id) ==> next == was)
      && (!IsMinter(c, id) && p in calls && IsMinter(calls[p], id) ==> next == was - 1)
      && (!IsMinter(c, id) && !(p in calls && IsMinter(calls[p], id)) ==> next == was)
      && next <= was + 1
  {
    var was := Minters(calls, id);
    assert Minters(calls[p := c], id) == if IsMinter(c, id) then was + {p} else was - {p};
  }

  /** What a step does to one stored request. */
  lemma RowChange(cfg: Config, st: State, p: Pid, c: Choice, id: RowId)
    requires Enabled(st, Step(p, c)) && id in st.rows && id < st.nextId
    ensures var t, call := RunStep(cfg, st, p, c), st.calls[p];
      && id in t.rows
      && (call.Claim? && call.id == id && st.rows[id].status == Approved ==> t.rows[id] == Won(st.rows[id], st.now))
      && (!(call.Claim? && call.id == id && st.rows[id].status == Approved) ==> t.rows[id].claims == st.rows[id].claims)
      && (call.Mint? && call.id == id ==> |t.rows[id].minted| == |st.rows[id].minted| + 1)
      && (!(call.Mint? && call.id == id) ==> t.rows[id].minted == st.rows[id].minted)
      && (t.rows[id].status == Approved ==>
            st.rows[id].status == Approved || Writes(MintedOnce, st, Step(p, c), id))
      && (t.rows[id].status == Denied ==>
            st.rows[id].status == Denied || Writes(DeniedMintsNone, st, Step(p, c), id))
  {
  }

  /** What a step does to the calls that may mint. */
  lemma MinterChange(cfg: Config, st: State, p: Pid, c: Choice, id: RowId)
    requires Enabled(st, Step(p, c))
    ensures var t, call := RunStep(cfg, st, p, c), st.calls[p];
      && t.calls == st.calls[p := t.calls[p]]
      && (IsMinter(t.calls[p], id) ==>
            || IsMinter(call, id)
            || (call.Claim? && call.id == id && id in st.rows && st.rows[id].status == Approved))
      && (call.Mint? && call.id == id ==> !IsMinter(t.calls[p], id))
  {
  }

  lemma SoldChange(cfg: Config, st: State, p: Pid, c: Choice, id: RowId)
    requires Enabled(st, Step(p, c)) && id in st.rows && id < st.nextId
    ensures var t, call := RunStep(cfg, st, p, c), st.calls[p];
      if call.Claim? && call.id == id && st.rows[id].status == Approved
      then Sold(t, id) <= Sold(st, id) + 1
      else Sold(t, id) <= Sold(st, id)
  {
    var t := RunStep(cfg, st, p, c);
    RowChange(cfg, st, p, c, id);
    MinterChange(cfg, st, p, c, id);
    MintersMove(st.calls, p, t.calls[p], id);
  }

  lemma NewRowSold(cfg: Config, st: State, p: Pid, c: Choice, id: RowId)
    requires Inv(st) && Enabled(st, Step(p, c)) && id !in st.rows && id in RunStep(cfg, st, p, c).rows
    ensures var t := RunStep(cfg, st, p, c); t.rows[id].status == Open && t.rows[id].claims == 0 && Sold(t, id) == 0
  {
    var t := RunStep(cfg, st, p, c);
    assert t == st.(rows := st.rows[st.nextId := t.rows[id]], nextId := st.nextId + 1).Goto(p, Finished);
    NoClaimers(st, id);
    assert forall q :: q in st.calls && IsMinter(st.calls[q], id) ==> q in Claimers(st.calls, id);
    assert Minters(t.calls, id) == {};
  }

  lemma RunStepGood(cfg: Config, k: Promise, st: State, p: Pid, c: Choice, id: RowId)
    requires Inv(st) && Good(k, st, id) && Enabled(st, Step(p, c)) && !TooLate(k, st, Step(p, c), id)
    ensures Good(k, RunStep(cfg, st, p, c), id)
  {
    if id in st.rows {
      RowChange(cfg, st, p, c, id);
      SoldChange(cfg, st, p, c, id);
    } else if id in RunStep(cfg, st, p, c).rows {
      NewRowSold(cfg, st, p, c, id);
    }
  }

  lemma StepGood(cfg: Config, k: Promise, st: State, a: Action, id: RowId)
    requires Inv(st) && Good(k, st, id) && Enabled(st, a) && !TooLate(k, st, a, id)
    ensures Good(k, Apply(cfg, st, a), id)
  {
    match a
    case Step(p, c) => RunStepGood(cfg, k, st, p, c, id);
    case Tick(_) =>
    case UserChanges(_, _) =>
    case Create(p, _) => MintersMove(st.calls, p, Apply(cfg, st, a).calls[p], id);
    case Begin(p, call) => MintersMove(st.calls, p, call, id);
  }

  lemma {:induction false} FreeRunGood(cfg: Config, k: Promise, st: State, run: seq<Action>, id: RowId)
    requires Inv(st) && Good(k, st, id) && ValidRun(cfg, st, run)
    requires Timely(cfg, k, st, run, id) || Free(cfg, k, st, run, id)
    ensures Good(k, After(cfg, st, run), id) && Inv(After(cfg, st, run))
    decreases |run|
  {
    if run == [] {
    } else {
      StepKeeps(cfg, st, run[0]);
      StepGood(cfg, k, st, run[0], id);
      FreeRunGood(cfg, k, Apply(cfg, st, run[0]), run[1..], id);
    }
  }

  lemma GoodIsSafe(cfg: Config, k: Promise, st: State, id: RowId)
    requires Inv(st) && Good(k, st, id)
    ensures Safe(cfg, k, st, id)
  {
    forall ext | ValidRun(cfg, st, ext) && Free(cfg, k, st, ext, id) ensures !Broken(k, After(cfg, st, ext), id) {
      FreeRunGood(cfg, k, st, ext, id);
    }
  }

  // ---- A late write can be exploited ----

  ghost predicate Reach(cfg: Config, k: Promise, st: State, t: State, id: RowId) {
    Reaches(cfg, st, t, NoWrite(k, id))
  }

  lemma ReachNext(cfg: Config, k: Promise, st: State, t: State, a: Action, id: RowId)
    requires Reach(cfg, k, st, t, id) && Inv(t) && Enabled(t, a) && !Writes(k, t, a, id)
    ensures Reach(cfg, k, st, Apply(cfg, t, a), id) && Inv(Apply(cfg, t, a))
  {
    ReachesNext(cfg, st, t, a, Apply(cfg, t, a), NoWrite(k, id));
    StepKeeps(cfg, t, a);
  }

  const ANY: Choice := Choice(true, None)

  /** A call that may mint does, once its user is approved. */
  lemma MinterMints(cfg: Config, k: Promise, st: State, t: State, q: Pid, id: RowId) returns (u: State)
    requires Reach(cfg, k, st, t, id) && Inv(t) && q in t.calls && IsMinter(t.calls[q], id)
    ensures Reach(cfg, k, st, u, id) && Inv(u) && id in t.rows && id in u.rows
    ensures u.rows[id].status == t.rows[id].status && |u.rows[id].minted| == |t.rows[id].minted| + 1
  {
    assert CallFits(t.rows, t.calls[q]);
    u := t;
    if t.calls[q].ClaimUser? {
      var user := t.calls[q].userId.value;
      ReachNext(cfg, k, st, u, UserChanges(user, Some(StandingApproved)), id);
      u := Apply(cfg, u, UserChanges(user, Some(StandingApproved)));
      ReachNext(cfg, k, st, u, Step(q, ANY), id);
      u := Apply(cfg, u, Step(q, ANY));
    }
    assert u.calls[q].Mint? && u.calls[q].id == id && u.rows == t.rows;
    ReachNext(cfg, k, st, u, Step(q, ANY), id);
    u := Apply(cfg, u, Step(q, ANY));
  }

  lemma UnusedPid(calls: map<Pid, Call>) returns (p: Pid)
    ensures p !in calls
  {
    p := Above(calls.Keys);
  }

  lemma {:induction false} Above(s: set<Pid>) returns (p: Pid)
    ensures forall q :: q in s ==> q < p
  {
    if s == {} {
      p := 0;
    } else {
      var q :| q in s;
      p := Above(s - {q});
      if p <= q { p := q + 1; }
      forall r | r in s ensures r < p {
        assert r == q || r in s - {q};
      }
    }
  }

  lemma PollBegins(cfg: Config, k: Promise, st: State, t: State, id: RowId, p: Pid)
    requires Reach(cfg, k, st, t, id) && Inv(t) && p !in t.calls
    ensures Reach(cfg, k, st, t.Goto(p, PollLookup(id, true)), id) && Inv(t.Goto(p, PollLookup(id, true)))
  {
    ReachNext(cfg, k, st, t, Begin(p, PollLookup(id, true)), id);
  }

  lemma PollFinds(cfg: Config, t: State, id: RowId, p: Pid)
    requires id in t.rows && t.rows[id].status == Approved
    ensures var begun := t.Goto(p, PollLookup(id, true));
      Apply(cfg, begun, Step(p, ANY)) == t.Goto(p, Claim(id, t.rows[id].userId, t.rows[id].keepSignedIn))
  {
    var begun, claim := t.Goto(p, PollLookup(id, true)), Claim(id, t.rows[id].userId, t.rows[id].keepSignedIn);
    assert begun.Goto(p, claim) == t.Goto(p, claim);
  }

  /** An approved request is claimed by the next poll. */
  lemma PollClaims(cfg: Config, k: Promise, st: State, t: State, id: RowId) returns (u: State, p: Pid)
    requires Reach(cfg, k, st, t, id) && Inv(t) && id in t.rows && t.rows[id].status == Approved
    ensures Reach(cfg, k, st, u, id) && Inv(u) && id in u.rows && u.rows[id] == Won(t.rows[id], t.now)
    ensures p in u.calls && IsMinter(u.calls[p], id)
  {
    p := UnusedPid(t.calls);
    PollBegins(cfg, k, st, t, id, p);
    PollFinds(cfg, t, id, p);
    ReachNext(cfg, k, st, t.Goto(p, PollLookup(id, true)), Step(p, ANY), id);
    u := t.Goto(p, Claim(id, t.rows[id].userId, t.rows[id].keepSignedIn));
    ReachNext(cfg, k, st, u, Step(p, ANY), id);
    u := Apply(cfg, u, Step(p, ANY));
  }

  /** A session on its way or already there: a state with at least one. */
  lemma OneMinted(cfg: Config, k: Promise, st: State, id: RowId) returns (u: State)
    requires Inv(st) && Sold(st, id) > 0
    ensures Reach(cfg, k, st, u, id) && Inv(u) && id in u.rows && u.rows[id].minted != []
    ensures u.rows[id].status == st.rows[id].status
  {
    ReachesSelf(cfg, st, NoWrite(k, id));
    u := st;
    if st.rows[id].minted == [] {
      var q :| q in Minters(st.calls, id);
      u := MinterMints(cfg, k, st, st, q, id);
    }
  }

  lemma LateApprovalBreaks(cfg: Config, k: Promise, st: State, id: RowId)
    requires Inv(st) && id in st.rows && st.rows[id].status == Approved && !k.DeniedMintsNone?
    requires if k.ClaimedOnce? then st.rows[id].claims > 0 else Sold(st, id) > 0
    ensures !Safe(cfg, k, st, id)
  {
    var u, v, p;
    if k.ClaimedOnce? {
      ReachesSelf(cfg, st, NoWrite(k, id));
      v, p := PollClaims(cfg, k, st, st, id);
    } else {
      u := OneMinted(cfg, k, st, id);
      u, p := PollClaims(cfg, k, st, u, id);
      v := MinterMints(cfg, k, st, u, p, id);
    }
    assert Broken(k, v, id);
  }

  lemma LateDenialBreaks(cfg: Config, st: State, id: RowId)
    requires Inv(st) && id in st.rows && st.rows[id].status == Denied && Sold(st, id) > 0
    ensures !Safe(cfg, DeniedMintsNone, st, id)
  {
    var u := OneMinted(cfg, DeniedMintsNone, st, id);
    assert Broken(DeniedMintsNone, u, id);
  }

  /** What a late write leaves. */
  lemma WriteEffect(cfg: Config, k: Promise, st: State, p: Pid, c: Choice, id: RowId)
    requires Enabled(st, Step(p, c)) && Writes(k, st, Step(p, c), id)
    ensures var t := RunStep(cfg, st, p, c);
      && id in t.rows && Sold(t, id) == Sold(st, id) && t.rows[id].claims == st.rows[id].claims
      && t.rows[id].status == if k.DeniedMintsNone? then Denied else Approved
  {
    MintersMove(st.calls, p, Finished, id);
  }

  lemma TooLateBreaks(cfg: Config, k: Promise, st: State, a: Action, id: RowId)
    requires Inv(st) && Enabled(st, a) && TooLate(k, st, a, id)
    ensures !Safe(cfg, k, Apply(cfg, st, a), id)
  {
    var t := Apply(cfg, st, a);
    StepKeeps(cfg, st, a);
    WriteEffect(cfg, k, st, a.p, a.c, id);
    assert RowFits(st.rows[id]);
    if k.DeniedMintsNone? { LateDenialBreaks(cfg, t, id); } else { LateApprovalBreaks(cfg, k, t, id); }
  }

  // ---- The exact condition ----

  lemma {:induction false} TimelyIff(cfg: Config, k: Promise, st: State, run: seq<Action>, id: RowId)
    requires Inv(st) && Good(k, st, id) && ValidRun(cfg, st, run)
    ensures Timely(cfg, k, st, run, id) <==> SafeThroughout(cfg, k, st, run, id)
    decreases |run|
  {
    GoodIsSafe(cfg, k, st, id);
    if run == [] {
    } else {
      var t := Apply(cfg, st, run[0]);
      if TooLate(k, st, run[0], id) {
        TooLateBreaks(cfg, k, st, run[0], id);
      } else {
        StepKeeps(cfg, st, run[0]);
        StepGood(cfg, k, st, run[0], id);
        TimelyIff(cfg, k, t, run[1..], id);
      }
    }
  }

  /**
   * The exact condition, request by request and promise by promise: along a
   * run the promise cannot be broken without a further write of its kind if
   * and only if no such write came too late.
   */
  lemma PromiseIff(cfg: Config, k: Promise, st: State, run: seq<Action>, id: RowId)
    requires Init(st) && ValidRun(cfg, st, run)
    ensures Timely(cfg, k, st, run, id) <==> SafeThroughout(cfg, k, st, run, id)
    ensures Timely(cfg, k, st, run, id) ==> !Broken(k, After(cfg, st, run), id)
  {
    TimelyIff(cfg, k, st, run, id);
    if Timely(cfg, k, st, run, id) { FreeRunGood(cfg, k, st, run, id); }
  }

  // ---- Runs whose unguarded writes to the request are not stale ----

  predicate IsBlindWrite(c: Call) {
    c.ApproveWrite? || c.DenyWrite? || c.ExpireWrite? || c.EvictWrite?
  }

  /** An unguarded write to the request finds it still open, as it was when the call read it. */
  predicate Prompt(st: State, a: Action, id: RowId) {
    a.Step? && a.p in st.calls && IsBlindWrite(st.calls[a.p]) && st.calls[a.p].id == id && id in st.rows
    ==> st.rows[id].status == Open
  }

  ghost predicate PromptRun(cfg: Config, st: State, run: seq<Action>, id: RowId)
    requires ValidRun(cfg, st, run)
  {
    Always(cfg, st, run, (s, a) => Prompt(s, a, id))
  }

  /** A prompt write finds nothing claimed, minted or minting; the guarded denial only its own claim. */
  lemma PromptIsTimely(k: Promise, st: State, a: Action, id: RowId)
    requires Inv(st) && Good(ClaimedOnce, st, id) && Enabled(st, a) && Prompt(st, a, id)
    ensures !TooLate(k, st, a, id)
  {
    if Writes(k, st, a, id) {
      var claimers := Claimers(st.calls, id);
      assert RowFits(st.rows[id]) && |st.rows[id].minted| + |claimers| <= st.rows[id].claims;
      var others := claimers - (if st.calls[a.p].DenyClaimed? then {a.p} else {});
      assert st.calls[a.p].DenyClaimed? ==> a.p in claimers;
      assert |others| == |claimers| - if st.calls[a.p].DenyClaimed? then 1 else 0;
      SubsetSize(Minters(st.calls, id), others);
    }
  }

  lemma {:induction false} PromptRunIsTimely(cfg: Config, k: Promise, st: State, run: seq<Action>, id: RowId)
    requires Inv(st) && Good(ClaimedOnce, st, id) && ValidRun(cfg, st, run) && PromptRun(cfg, st, run, id)
    ensures Timely(cfg, k, st, run, id)
    decreases |run|
  {
    if run == [] {
    } else {
      PromptIsTimely(k, st, run[0], id);
      PromptIsTimely(ClaimedOnce, st, run[0], id);
      StepKeeps(cfg, st, run[0]);
      StepGood(cfg, ClaimedOnce, st, run[0], id);
      PromptRunIsTimely(cfg, k, Apply(cfg, st, run[0]), run[1..], id);
    }
  }

  /** With no stale unguarded write to it, a request keeps all three promises. */
  lemma PromptRunsKeepPromises(cfg: Config, k: Promise, st: State, run: seq<Action>, id: RowId)
    requires Init(st) && ValidRun(cfg, st, run) && PromptRun(cfg, st, run, id)
    ensures !Broken(k, After(cfg, st, run), id)
  {
    PromptRunIsTimely(cfg, k, st, run, id);
    PromiseIff(cfg, k, st, run, id);
  }

  // ---- Atomic calls ----

  /** Between the read that found the request open and the unguarded write that relies on it. */
  predicate MidWrite(c: Call) {
    IsBlindWrite(c) || c.AuthorizePassword?
  }

  /** Read-then-write is atomic: a call that is between the two is the next to step. */
  predicate Gapless(cfg: Config, st: State, run: seq<Action>)
    requires ValidRun(cfg, st, run)
    decreases |run|
  {
    run != [] ==>
    && (forall p :: p in st.calls && MidWrite(st.calls[p]) ==> run[0].Step? && run[0].p == p)
    && Gapless(cfg, Apply(cfg, st, run[0]), run[1..])
  }

  ghost predicate SeesOpen(rows: map<RowId, Row>, c: Call) {
    MidWrite(c) ==> c.id in rows && rows[c.id].status == Open
  }

  lemma OwnStepSeesOpen(cfg: Config, st: State, p: Pid, c: Choice)
    requires Enabled(st, Step(p, c)) && SeesOpen(st.rows, st.calls[p])
    ensures var t := RunStep(cfg, st, p, c); SeesOpen(t.rows, t.calls[p])
  {
    assert OldestFits(st, st.calls[p], c.oldest);
  }

  lemma StepSeesOpen(cfg: Config, st: State, a: Action, p: Pid)
    requires Enabled(st, a) && p in Apply(cfg, st, a).calls
    requires p in st.calls ==> SeesOpen(st.rows, st.calls[p])
    requires p in st.calls && MidWrite(st.calls[p]) ==> a.Step? && a.p == p
    ensures var t := Apply(cfg, st, a); SeesOpen(t.rows, t.calls[p])
  {
    if a.Step? && a.p == p {
      OwnStepSeesOpen(cfg, st, p, a.c);
    } else if p in st.calls {
      assert Apply(cfg, st, a).calls[p] == st.calls[p];
    }
  }

  lemma {:induction false} GaplessIsPrompt(cfg: Config, st: State, run: seq<Action>, id: RowId)
    requires ValidRun(cfg, st, run) && Gapless(cfg, st, run)
    requires forall p :: p in st.calls ==> SeesOpen(st.rows, st.calls[p])
    ensures PromptRun(cfg, st, run, id)
    decreases |run|
  {
    if run == [] {
    } else {
      var t := Apply(cfg, st, run[0]);
      forall p | p in t.calls ensures SeesOpen(t.rows, t.calls[p]) {
        StepSeesOpen(cfg, st, run[0], p);
      }
      GaplessIsPrompt(cfg, t, run[1..], id);
    }
  }

  /** With atomic authorize, deny, expiry and eviction, every request keeps all three promises. */
  lemma AtomicRunsKeepPromises(cfg: Config, k: Promise, st: State, run: seq<Action>, id: RowId)
    requires Init(st) && ValidRun(cfg, st, run) && Gapless(cfg, st, run)
    ensures !Broken(k, After(cfg, st, run), id)
  {
    GaplessIsPrompt(cfg, st, run, id);
    PromptRunsKeepPromises(cfg, k, st, run, id);
  }
}
