/**
 * The GitHub App connection flow as concurrent requests, one database
 * statement (or GitHub call) at a time: start issues a single-use `redirect`
 * state, callback consumes it and either saves an installation or issues a
 * `select` state, select consumes that one and saves.
 */
module GithubAppFlow {
  import opened Prelude
  import G = GithubInstallations

  const STATE_TTL: Time := 600_000
  const MAX_PENDING: nat := 5

  datatype Stage = Redirect | Select

  datatype Target = Create(name: string) | Replace(integrationUuid: string)

  /**
   * What a state row says. `flow` and `proof` are history: the start request
   * the row descends from and the position of the verification it records.
   */
  datatype Draft = Draft(
    user: UserId, stage: Stage, target: Target,
    candidates: seq<nat>, verifiedBy: string, flow: Pid, proof: nat)

  datatype Row = Row(draft: Draft, uuid: string, secret: string, expiresAt: Time)

  /**
   * The rest of a request, starting at its next statement. `mark` is history:
   * the table's next id when the request listed the user's pending states.
   */
  datatype Request =
    | Purge(draft: Draft, now: Time)
    | FindPending(draft: Draft, now: Time)
    | DeleteStale(draft: Draft, now: Time, stale: set<RowId>, mark: RowId)
    | Insert(draft: Draft, now: Time, mark: RowId)
    | Lookup(user: UserId, uuid: string, secret: string, stage: Stage, asked: Option<nat>, now: Time)
    | Consume(user: UserId, secret: string, stage: Stage, asked: Option<nat>, now: Time, id: RowId, row: Row)
    | Precheck(draft: Draft, asked: Option<nat>)
    | Verify(draft: Draft, asked: Option<nat>)
    | Validate(draft: Draft, installation: nat)
    | Save(draft: Draft, installation: nat)
    | Finished

  datatype Started = Started(user: UserId, target: Target)

  /** One completed ownership check: who asked, GitHub's login and the pages GitHub listed. */
  datatype Verification = Verification(user: UserId, login: string, pages: seq<seq<G.Installation>>)

  datatype Saved = Saved(user: UserId, target: Target, installation: nat, verifiedBy: string, flow: Pid, proof: nat)

  /** The app's id and the collation order of lower-cased logins. */
  datatype Config = Config(appId: int, rank: string -> int)

  datatype State = State(
    now: Time, rows: map<RowId, Row>, nextId: RowId, requests: map<Pid, Request>,
    starts: map<Pid, Started>, verifications: seq<Verification>, saves: seq<Saved>)
  {
    function Goto(p: Pid, r: Request): State {
      this.(requests := requests[p := r])
    }
  }

  datatype Action =
    | Tick(to: Time)
    | StartFlow(p: Pid, user: UserId, target: Target)
    | Callback(p: Pid, user: UserId, uuid: string, secret: string, claimed: Option<nat>)
    | SelectOne(p: Pid, user: UserId, uuid: string, secret: string, installation: nat)
    | Step(p: Pid, c: Choice)
    | Fail(p: Pid)

  /** What the step cannot determine: the row found, the random state value, GitHub's answers. */
  datatype Choice = Choice(
    found: Option<RowId>, uuid: string, secret: string, login: string, pages: seq<seq<G.Installation>>)

  function Expired(rows: map<RowId, Row>, now: Time): set<RowId> {
    set id | id in rows && rows[id].expiresAt <= now
  }

  function PendingOf(rows: map<RowId, Row>, user: UserId): set<RowId> {
    set id | id in rows && rows[id].draft.user == user
  }

  function Newer(ids: set<RowId>, id: RowId): set<RowId> {
    set other | other in ids && other > id
  }

  /** All but the newest `keep` ids: the ids at or past position `keep` in descending order. */
  function Oldest(ids: set<RowId>, keep: nat): set<RowId> {
    set id | id in ids && |Newer(ids, id)| >= keep
  }

  predicate Enabled(st: State, a: Action) {
    match a
    case Tick(to) => to >= st.now
    case StartFlow(p, _, _) => p !in st.requests
    case Callback(p, _, _, _, _) => p !in st.requests
    case SelectOne(p, _, _, _, _) => p !in st.requests
    case Fail(p) => p in st.requests
    case Step(p, c) => p in st.requests && ChoiceFits(st, st.requests[p], c)
  }

  /** The random uuid is no stored state's: the column has a unique index. */
  predicate UnusedUuid(rows: map<RowId, Row>, uuid: string) {
    forall id :: id in rows ==> rows[id].uuid != uuid
  }

  predicate ChoiceFits(st: State, r: Request, c: Choice) {
    match r
    case Lookup(user, uuid, _, _, _, _) =>
      if c.found.Some?
      then c.found.value in st.rows && st.rows[c.found.value].uuid == uuid && st.rows[c.found.value].draft.user == user
      else forall id :: id in st.rows ==> st.rows[id].uuid != uuid || st.rows[id].draft.user != user
    case Verify(_, _) => 1 <= |c.pages| <= G.MAX_INSTALLATION_PAGES
    case Insert(_, _, _) => UnusedUuid(st.rows, c.uuid)
    case Finished => false
    case _ => true
  }

  function Apply(cfg: Config, st: State, a: Action): State
    requires Enabled(st, a)
  {
    match a
    case Tick(to) => st.(now := to)
    case StartFlow(p, user, target) =>
      st.(starts := st.starts[p := Started(user, target)])
        .Goto(p, Purge(Draft(user, Redirect, target, [], "", p, 0), st.now))
    case Callback(p, user, uuid, secret, claimed) => st.Goto(p, Lookup(user, uuid, secret, Redirect, claimed, st.now))
    case SelectOne(p, user, uuid, secret, id) => st.Goto(p, Lookup(user, uuid, secret, Select, Some(id), st.now))
    case Fail(p) => st.Goto(p, Finished)
    case Step(p, c) => RunStep(cfg, st, p, c)
  }

  /** The INSERT that ends an issue. */
  function Stored(st: State, p: Pid, row: Row): State {
    st.(rows := st.rows[st.nextId := row], nextId := st.nextId + 1).Goto(p, Finished)
  }

  /** `prunePending`: the user's states past the newest four are deleted, when there are any. */
  function AfterFind(st: State, draft: Draft, now: Time): Request {
    var stale := Oldest(PendingOf(st.rows, draft.user), MAX_PENDING - 1);
    if stale == {} then Insert(draft, now, st.nextId) else DeleteStale(draft, now, stale, st.nextId)
  }

  function RunStep(cfg: Config, st: State, p: Pid, c: Choice): State
    requires Enabled(st, Step(p, c))
  {
    match st.requests[p]
    case Purge(draft, now) => st.(rows := st.rows - Expired(st.rows, now)).Goto(p, FindPending(draft, now))
    case FindPending(draft, now) => st.Goto(p, AfterFind(st, draft, now))
    case DeleteStale(draft, now, stale, mark) => st.(rows := st.rows - stale).Goto(p, Insert(draft, now, mark))
    case Insert(draft, now, _) => Stored(st, p, Row(draft, c.uuid, c.secret, now + STATE_TTL))
    case Lookup(user, _, secret, stage, asked, now) =>
      st.Goto(p, if c.found.None? then Finished
                 else Consume(user, secret, stage, asked, now, c.found.value, st.rows[c.found.value]))
    case Consume(_, secret, stage, asked, now, id, row) =>
      st.(rows := st.rows - {id}).Goto(p,
        if id in st.rows && secret == row.secret && row.expiresAt > now && row.draft.stage == stage
        then Precheck(row.draft, asked) else Finished)
    case Precheck(draft, asked) =>
      st.Goto(p, if draft.stage == Redirect then Verify(draft, asked)
                 else if asked.Some? && asked.value in draft.candidates then Validate(draft, asked.value)
                 else Finished)
    case Verify(draft, asked) =>
      st.(verifications := st.verifications + [Verification(draft.user, c.login, c.pages)])
        .Goto(p, AfterVerify(cfg, draft, asked, c, |st.verifications|, st.now))
    case Validate(draft, id) => st.Goto(p, Save(draft, id))
    case Save(draft, id) =>
      st.(saves := st.saves + [Saved(draft.user, draft.target, id, draft.verifiedBy, draft.flow, draft.proof)])
        .Goto(p, Finished)
    case Finished => st
  }

  function IdsOf(entries: seq<G.Installation>): (ids: seq<nat>)
    ensures |ids| == |entries| && forall i :: 0 <= i < |ids| ==> ids[i] == entries[i].id
  {
    seq(|entries|, i requires 0 <= i < |entries| => entries[i].id)
  }

  /** Pick, then check the pick, fail, or issue a `select` state listing the offer. */
  function AfterVerify(cfg: Config, draft: Draft, asked: Option<nat>, c: Choice, proof: nat, now: Time): Request {
    var verified := G.Collected(c.pages, cfg.appId);
    match G.PickInstallation(verified, asked)
    case NotAccessible => Finished
    case Only(id) => Validate(draft.(verifiedBy := c.login, proof := proof), id)
    case Several =>
      Purge(draft.(stage := Select, candidates := IdsOf(G.SelectionEntries(cfg.rank, verified)),
                   verifiedBy := c.login, proof := proof), now)
  }

  predicate ValidRun(cfg: Config, st: State, run: seq<Action>)
    decreases |run|
  {
    run == [] || (Enabled(st, run[0]) && ValidRun(cfg, Apply(cfg, st, run[0]), run[1..]))
  }

  function After(cfg: Config, st: State, run: seq<Action>): State
    requires ValidRun(cfg, st, run)
    decreases |run|
  {
    if run == [] then st else After(cfg, Apply(cfg, st, run[0]), run[1..])
  }

  predicate Init(st: State) {
    && st.rows == map[] && st.requests == map[] && st.starts == map[]
    && st.verifications == [] && st.saves == []
  }

  // ---- The invariant ----

  /** Where a flow can live: in a stored state, in a request that consumed or is issuing one, or in a save. */
  datatype Holder = ByRow(id: RowId) | ByRequest(p: Pid) | BySave(k: nat)

  function Carries(r: Request): Option<Pid> {
    match r
    case Lookup(_, _, _, _, _, _) => None
    case Consume(_, _, _, _, _, _, _) => None
    case Finished => None
    case _ => Some(r.draft.flow)
  }

  function FlowAt(st: State, h: Holder): Option<Pid> {
    match h
    case ByRow(id) => if id in st.rows then Some(st.rows[id].draft.flow) else None
    case ByRequest(p) => if p in st.requests then Carries(st.requests[p]) else None
    case BySave(k) => if k < |st.saves| then Some(st.saves[k].flow) else None
  }

  ghost predicate OneHolder(st: State) {
    forall a, b :: FlowAt(st, a).Some? && FlowAt(st, a) == FlowAt(st, b) ==> a == b
  }

  /**
   * The numbered verification was made by this user under this login, and GitHub
   * listed the installation for this app.
   */
  ghost predicate Proven(cfg: Config, st: State, user: UserId, id: nat, login: string, proof: nat) {
    && proof < |st.verifications|
    && st.verifications[proof].user == user && st.verifications[proof].login == login
    && exists y :: G.Listed(st.verifications[proof].pages, y) && y.appId == cfg.appId && y.id == id
  }

  ghost predicate DraftFits(cfg: Config, st: State, d: Draft) {
    && d.flow in st.starts && st.starts[d.flow] == Started(d.user, d.target)
    && (d.stage == Select ==> forall id :: id in d.candidates ==> Proven(cfg, st, d.user, id, d.verifiedBy, d.proof))
  }

  ghost predicate RequestFits(cfg: Config, st: State, r: Request) {
    match r
    case Lookup(_, _, _, _, _, _) => true
    case Finished => true
    case Consume(user, _, _, _, _, id, row) =>
      && id < st.nextId && row.draft.user == user && DraftFits(cfg, st, row.draft)
      && (id in st.rows ==> st.rows[id] == row)
    case Validate(d, id) =>
      DraftFits(cfg, st, d.(stage := Redirect)) && Proven(cfg, st, d.user, id, d.verifiedBy, d.proof)
    case Save(d, id) => DraftFits(cfg, st, d.(stage := Redirect)) && Proven(cfg, st, d.user, id, d.verifiedBy, d.proof)
    case _ => DraftFits(cfg, st, r.draft)
  }

  ghost predicate SaveFits(cfg: Config, st: State, s: Saved) {
    && s.flow in st.starts && st.starts[s.flow] == Started(s.user, s.target)
    && Proven(cfg, st, s.user, s.installation, s.verifiedBy, s.proof)
  }

  ghost predicate Inv(cfg: Config, st: State) {
    && OneHolder(st)
    && (forall id :: id in st.rows ==> id < st.nextId && DraftFits(cfg, st, st.rows[id].draft))
    && (forall p :: p in st.requests ==> RequestFits(cfg, st, st.requests[p]))
    && (forall k :: 0 <= k < |st.saves| ==> SaveFits(cfg, st, st.saves[k]))
    && (forall p :: p in st.starts ==> p in st.requests)
  }

  /** A step that moves at most one flow, from holder `a` to holder `b`, keeps every flow in one place. */
  lemma MoveKeepsOneHolder(st: State, t: State, a: Holder, b: Holder)
    requires OneHolder(st)
    requires forall h :: h != b && FlowAt(t, h).Some? ==> h != a && FlowAt(t, h) == FlowAt(st, h)
    requires FlowAt(t, b).Some? ==> FlowAt(t, b) == FlowAt(st, a)
    ensures OneHolder(t)
  {
  }

  lemma GotoMoves(st: State, p: Pid, r: Request)
    requires OneHolder(st) && p in st.requests
    requires Carries(r).Some? ==> Carries(r) == Carries(st.requests[p])
    ensures OneHolder(st.Goto(p, r))
  {
    MoveKeepsOneHolder(st, st.Goto(p, r), ByRequest(p), ByRequest(p));
  }

  lemma InsertMoves(st: State, p: Pid, row: Row)
    requires OneHolder(st) && p in st.requests && Carries(st.requests[p]) == Some(row.draft.flow) &&
      st.nextId !in st.rows
    ensures OneHolder(Stored(st, p, row))
  {
    MoveKeepsOneHolder(st, Stored(st, p, row), ByRequest(p), ByRow(st.nextId));
  }

  lemma ConsumeMoves(st: State, p: Pid, id: RowId, r: Request)
    requires OneHolder(st) && p in st.requests && Carries(st.requests[p]).None?
    requires id in st.rows && Carries(r) == Some(st.rows[id].draft.flow)
    ensures OneHolder(st.(rows := st.rows - {id}).Goto(p, r))
  {
    MoveKeepsOneHolder(st, st.(rows := st.rows - {id}).Goto(p, r), ByRow(id), ByRequest(p));
  }

  lemma SaveMoves(st: State, p: Pid, s: Saved)
    requires OneHolder(st) && p in st.requests && Carries(st.requests[p]) == Some(s.flow)
    ensures OneHolder(st.(saves := st.saves + [s]).Goto(p, Finished))
  {
    var t := st.(saves := st.saves + [s]).Goto(p, Finished);
    assert forall k :: 0 <= k < |st.saves| ==> t.saves[k] == st.saves[k];
    MoveKeepsOneHolder(st, t, ByRequest(p), BySave(|st.saves|));
  }

  /** History only grows, row ids are not reused and rows do not change. */
  ghost predicate Extends(st: State, t: State) {
    && |t.verifications| >= |st.verifications| && t.verifications[..|st.verifications|] == st.verifications
    && (forall p :: p in st.starts ==> p in t.starts && t.starts[p] == st.starts[p])
    && st.nextId <= t.nextId
    && (forall id :: id in t.rows && id < st.nextId ==> id in st.rows && t.rows[id] == st.rows[id])
  }

  lemma ProofStands(cfg: Config, st: State, t: State, user: UserId, id: nat, login: string, proof: nat)
    requires Extends(st, t) && Proven(cfg, st, user, id, login, proof)
    ensures Proven(cfg, t, user, id, login, proof)
  {
    assert t.verifications[..|st.verifications|][proof] == t.verifications[proof];
  }

  lemma DraftStands(cfg: Config, st: State, t: State, d: Draft)
    requires Extends(st, t) && DraftFits(cfg, st, d)
    ensures DraftFits(cfg, t, d)
  {
    if d.stage == Select {
      forall id | id in d.candidates ensures Proven(cfg, t, d.user, id, d.verifiedBy, d.proof) {
        ProofStands(cfg, st, t, d.user, id, d.verifiedBy, d.proof);
      }
    }
  }

  lemma RequestStands(cfg: Config, st: State, t: State, r: Request)
    requires Extends(st, t) && RequestFits(cfg, st, r)
    ensures RequestFits(cfg, t, r)
  {
    if r.Validate? || r.Save? {
      DraftStands(cfg, st, t, r.draft.(stage := Redirect));
      ProofStands(cfg, st, t, r.draft.user, r.installation, r.draft.verifiedBy, r.draft.proof);
    } else if r.Consume? {
      DraftStands(cfg, st, t, r.row.draft);
    } else if Carries(r).Some? {
      DraftStands(cfg, st, t, r.draft);
    }
  }

  /** Everything but the unique holder, for a step whose new parts fit. */
  lemma RecordsStand(cfg: Config, st: State, t: State)
    requires Inv(cfg, st) && Extends(st, t) && OneHolder(t)
    requires forall id :: id in t.rows && id >= st.nextId ==> id < t.nextId && DraftFits(cfg, t, t.rows[id].draft)
    requires forall p :: p in t.requests ==>
      (p in st.requests && t.requests[p] == st.requests[p]) || RequestFits(cfg, t, t.requests[p])
    requires |t.saves| >= |st.saves|
    requires forall k :: 0 <= k < |t.saves| ==>
      if k < |st.saves| then t.saves[k] == st.saves[k] else SaveFits(cfg, t, t.saves[k])
    requires forall p :: p in t.starts ==> p in t.requests
    ensures Inv(cfg, t)
  {
    forall id | id in t.rows ensures id < t.nextId && DraftFits(cfg, t, t.rows[id].draft) {
      if id < st.nextId { DraftStands(cfg, st, t, t.rows[id].draft); }
    }
    forall p | p in t.requests ensures RequestFits(cfg, t, t.requests[p]) {
      if p in st.requests && t.requests[p] == st.requests[p] { RequestStands(cfg, st, t, t.requests[p]); }
    }
    forall k | 0 <= k < |t.saves| ensures SaveFits(cfg, t, t.saves[k]) {
      if k < |st.saves| {
        var s := st.saves[k];
        ProofStands(cfg, st, t, s.user, s.installation, s.verifiedBy, s.proof);
      }
    }
  }

  lemma GotoKeeps(cfg: Config, st: State, p: Pid, r: Request)
    requires Inv(cfg, st) && p in st.requests && RequestFits(cfg, st, r)
    requires Carries(r).Some? ==> Carries(r) == Carries(st.requests[p])
    ensures Inv(cfg, st.Goto(p, r))
  {
    var t := st.Goto(p, r);
    GotoMoves(st, p, r);
    RequestStands(cfg, st, t, r);
    RecordsStand(cfg, st, t);
  }

  lemma DeleteKeeps(cfg: Config, st: State, ids: set<RowId>)
    requires Inv(cfg, st)
    ensures Inv(cfg, st.(rows := st.rows - ids))
  {
    var t := st.(rows := st.rows - ids);
    assert forall h :: FlowAt(t, h).Some? ==> FlowAt(t, h) == FlowAt(st, h);
    RecordsStand(cfg, st, t);
  }

  lemma RecordKeeps(cfg: Config, st: State, v: Verification)
    requires Inv(cfg, st)
    ensures Inv(cfg, st.(verifications := st.verifications + [v]))
  {
    var t := st.(verifications := st.verifications + [v]);
    assert forall h :: FlowAt(t, h) == FlowAt(st, h);
    RecordsStand(cfg, st, t);
  }

  lemma OpenKeeps(cfg: Config, st: State, p: Pid, r: Request)
    requires Inv(cfg, st) && p !in st.requests && Carries(r).None? && RequestFits(cfg, st, r)
    ensures Inv(cfg, st.Goto(p, r))
  {
    var t := st.Goto(p, r);
    assert forall h :: FlowAt(t, h).Some? ==> FlowAt(t, h) == FlowAt(st, h);
    RequestStands(cfg, st, t, r);
    RecordsStand(cfg, st, t);
  }

  lemma FlowsWereStarted(cfg: Config, st: State, h: Holder)
    requires Inv(cfg, st) && FlowAt(st, h).Some?
    ensures FlowAt(st, h).value in st.starts
  {
    match h
    case ByRow(id) => assert DraftFits(cfg, st, st.rows[id].draft);
    case ByRequest(q) => assert RequestFits(cfg, st, st.requests[q]);
    case BySave(k) => assert SaveFits(cfg, st, st.saves[k]);
  }

  /** A start is a flow of its own. */
  lemma StartAddsHolder(cfg: Config, st: State, p: Pid, user: UserId, target: Target)
    requires Inv(cfg, st) && p !in st.requests
    ensures OneHolder(Apply(cfg, st, StartFlow(p, user, target)))
  {
    var t := Apply(cfg, st, StartFlow(p, user, target));
    forall h | FlowAt(st, h).Some? ensures FlowAt(st, h) != Some(p) {
      FlowsWereStarted(cfg, st, h);
    }
    assert forall h :: h != ByRequest(p) ==> FlowAt(t, h) == FlowAt(st, h);
    assert FlowAt(t, ByRequest(p)) == Some(p);
  }

  lemma StartKeeps(cfg: Config, st: State, p: Pid, user: UserId, target: Target)
    requires Inv(cfg, st) && p !in st.requests
    ensures Inv(cfg, Apply(cfg, st, StartFlow(p, user, target)))
  {
    StartAddsHolder(cfg, st, p, user, target);
    RecordsStand(cfg, st, Apply(cfg, st, StartFlow(p, user, target)));
  }

  lemma StoredExtends(st: State, p: Pid, row: Row)
    ensures Extends(st, Stored(st, p, row))
  {
  }

  lemma InsertKeeps(cfg: Config, st: State, p: Pid, row: Row)
    requires Inv(cfg, st) && p in st.requests && st.requests[p].Insert? && st.requests[p].draft == row.draft
    ensures Inv(cfg, Stored(st, p, row))
  {
    assert RequestFits(cfg, st, st.requests[p]);
    StoredExtends(st, p, row);
    InsertMoves(st, p, row);
    DraftStands(cfg, st, Stored(st, p, row), row.draft);
    RecordsStand(cfg, st, Stored(st, p, row));
  }

  lemma ConsumeKeeps(cfg: Config, st: State, p: Pid)
    requires Inv(cfg, st) && p in st.requests && st.requests[p].Consume? && st.requests[p].id in st.rows
    ensures var r := st.requests[p];
      Inv(cfg, st.(rows := st.rows - {r.id}).Goto(p, Precheck(r.row.draft, r.asked)))
  {
    var r := st.requests[p];
    var t := st.(rows := st.rows - {r.id}).Goto(p, Precheck(r.row.draft, r.asked));
    assert RequestFits(cfg, st, r);
    ConsumeMoves(st, p, r.id, Precheck(r.row.draft, r.asked));
    DraftStands(cfg, st, t, r.row.draft);
    RecordsStand(cfg, st, t);
  }

  lemma SaveKeeps(cfg: Config, st: State, p: Pid, s: Saved)
    requires Inv(cfg, st) && p in st.requests && Carries(st.requests[p]) == Some(s.flow) && SaveFits(cfg, st, s)
    ensures Inv(cfg, st.(saves := st.saves + [s]).Goto(p, Finished))
  {
    var t := st.(saves := st.saves + [s]).Goto(p, Finished);
    SaveMoves(st, p, s);
    ProofStands(cfg, st, t, s.user, s.installation, s.verifiedBy, s.proof);
    RecordsStand(cfg, st, t);
  }

  lemma SaveStepKeeps(cfg: Config, st: State, p: Pid, c: Choice)
    requires Inv(cfg, st) && p in st.requests && st.requests[p].Save?
    ensures Inv(cfg, RunStep(cfg, st, p, c))
  {
    var r := st.requests[p];
    var d := r.draft;
    assert RequestFits(cfg, st, r);
    SaveKeeps(cfg, st, p, Saved(d.user, d.target, r.installation, d.verifiedBy, d.flow, d.proof));
  }

  /** Every id the verification lets through was listed by GitHub for this app. */
  lemma AfterVerifyFits(cfg: Config, st: State, draft: Draft, asked: Option<nat>, c: Choice)
    requires DraftFits(cfg, st, draft)
    ensures var t := st.(verifications := st.verifications + [Verification(draft.user, c.login, c.pages)]);
      RequestFits(cfg, t, AfterVerify(cfg, draft, asked, c, |st.verifications|, st.now))
  {
    var t := st.(verifications := st.verifications + [Verification(draft.user, c.login, c.pages)]);
    var proof := |st.verifications|;
    var verified := G.Collected(c.pages, cfg.appId);
    G.CollectedIsVerified(c.pages, cfg.appId);
    forall y | y in verified ensures Proven(cfg, t, draft.user, y.id, c.login, proof) {
      assert G.Listed(c.pages, y);
    }
    var entries := G.SelectionEntries(cfg.rank, verified);
    G.SelectionIsFaithful(cfg.rank, verified);
    forall id | id in IdsOf(entries) ensures Proven(cfg, t, draft.user, id, c.login, proof) {
      var i :| 0 <= i < |entries| && IdsOf(entries)[i] == id;
      assert entries[i] in verified;
    }
  }

  lemma VerifyKeeps(cfg: Config, st: State, p: Pid, c: Choice)
    requires Inv(cfg, st) && Enabled(st, Step(p, c)) && st.requests[p].Verify?
    ensures Inv(cfg, RunStep(cfg, st, p, c))
  {
    var r := st.requests[p];
    var v := Verification(r.draft.user, c.login, c.pages);
    var mid := st.(verifications := st.verifications + [v]);
    assert RequestFits(cfg, st, r);
    RecordKeeps(cfg, st, v);
    AfterVerifyFits(cfg, st, r.draft, r.asked, c);
    var next := AfterVerify(cfg, r.draft, r.asked, c, |st.verifications|, st.now);
    assert RunStep(cfg, st, p, c) == mid.Goto(p, next);
    GotoKeeps(cfg, mid, p, next);
  }

  /** The statements that delete state rows without taking a flow over. */
  lemma DeletingStepKeeps(cfg: Config, st: State, p: Pid, ids: set<RowId>, r: Request)
    requires Inv(cfg, st) && p in st.requests && RequestFits(cfg, st, r)
    requires Carries(r).Some? ==> !r.Consume? && Carries(r) == Carries(st.requests[p])
    ensures Inv(cfg, st.(rows := st.rows - ids).Goto(p, r))
  {
    DeleteKeeps(cfg, st, ids);
    GotoKeeps(cfg, st.(rows := st.rows - ids), p, r);
  }

  lemma ConsumingStepKeeps(cfg: Config, st: State, p: Pid, c: Choice)
    requires Inv(cfg, st) && p in st.requests && st.requests[p].Consume?
    ensures Inv(cfg, RunStep(cfg, st, p, c))
  {
    var r := st.requests[p];
    if r.id in st.rows && r.secret == r.row.secret && r.row.expiresAt > r.now && r.row.draft.stage == r.stage {
      ConsumeKeeps(cfg, st, p);
    } else {
      DeletingStepKeeps(cfg, st, p, {r.id}, Finished);
    }
  }

  lemma PrecheckKeeps(cfg: Config, st: State, p: Pid, c: Choice)
    requires Inv(cfg, st) && p in st.requests && st.requests[p].Precheck?
    ensures Inv(cfg, RunStep(cfg, st, p, c))
  {
    var r := st.requests[p];
    assert RequestFits(cfg, st, r);
    if r.draft.stage == Redirect { GotoKeeps(cfg, st, p, Verify(r.draft, r.asked)); }
    else if r.asked.Some? && r.asked.value in r.draft.candidates {
      GotoKeeps(cfg, st, p, Validate(r.draft, r.asked.value));
    }
    else { GotoKeeps(cfg, st, p, Finished); }
  }

  lemma LookupKeeps(cfg: Config, st: State, p: Pid, c: Choice)
    requires Inv(cfg, st) && Enabled(st, Step(p, c)) && st.requests[p].Lookup?
    ensures Inv(cfg, RunStep(cfg, st, p, c))
  {
    var r := st.requests[p];
    if c.found.None? { GotoKeeps(cfg, st, p, Finished); }
    else {
      var row := st.rows[c.found.value];
      GotoKeeps(cfg, st, p, Consume(r.user, r.secret, r.stage, r.asked, r.now, c.found.value, row));
    }
  }

  lemma IssueStepKeeps(cfg: Config, st: State, p: Pid, c: Choice)
    requires Inv(cfg, st) && Enabled(st, Step(p, c))
    requires st.requests[p].Purge? || st.requests[p].FindPending? || st.requests[p].DeleteStale?
    ensures Inv(cfg, RunStep(cfg, st, p, c))
  {
    var r := st.requests[p];
    assert RequestFits(cfg, st, r);
    if r.Purge? {
      DeletingStepKeeps(cfg, st, p, Expired(st.rows, r.now), FindPending(r.draft, r.now));
    } else if r.DeleteStale? {
      DeletingStepKeeps(cfg, st, p, r.stale, Insert(r.draft, r.now, r.mark));
    } else {
      GotoKeeps(cfg, st, p, AfterFind(st, r.draft, r.now));
    }
  }

  lemma StoreSteps(cfg: Config, st: State, p: Pid, c: Choice)
    requires Enabled(st, Step(p, c)) && st.requests[p].Insert?
    ensures var r := st.requests[p];
      RunStep(cfg, st, p, c) == Stored(st, p, Row(r.draft, c.uuid, c.secret, r.now + STATE_TTL))
  {
  }

  lemma InsertStepKeeps(cfg: Config, st: State, p: Pid, c: Choice)
    requires Inv(cfg, st) && Enabled(st, Step(p, c)) && st.requests[p].Insert?
    ensures Inv(cfg, RunStep(cfg, st, p, c))
  {
    var r := st.requests[p];
    StoreSteps(cfg, st, p, c);
    InsertKeeps(cfg, st, p, Row(r.draft, c.uuid, c.secret, r.now + STATE_TTL));
  }

  lemma ValidateKeeps(cfg: Config, st: State, p: Pid, c: Choice)
    requires Inv(cfg, st) && p in st.requests && st.requests[p].Validate?
    ensures Inv(cfg, RunStep(cfg, st, p, c))
  {
    var r := st.requests[p];
    assert RequestFits(cfg, st, r);
    GotoKeeps(cfg, st, p, Save(r.draft, r.installation));
  }

  lemma RunStepKeeps(cfg: Config, st: State, p: Pid, c: Choice)
    requires Inv(cfg, st) && Enabled(st, Step(p, c))
    ensures Inv(cfg, RunStep(cfg, st, p, c))
  {
    var r := st.requests[p];
    if r.Purge? || r.FindPending? || r.DeleteStale? { IssueStepKeeps(cfg, st, p, c); }
    else if r.Lookup? { LookupKeeps(cfg, st, p, c); }
    else if r.Consume? { ConsumingStepKeeps(cfg, st, p, c); }
    else if r.Precheck? { PrecheckKeeps(cfg, st, p, c); }
    else if r.Verify? { VerifyKeeps(cfg, st, p, c); }
    else if r.Insert? { InsertStepKeeps(cfg, st, p, c); }
    else if r.Validate? { ValidateKeeps(cfg, st, p, c); }
    else { SaveStepKeeps(cfg, st, p, c); }
  }

  lemma StepKeeps(cfg: Config, st: State, a: Action)
    requires Inv(cfg, st) && Enabled(st, a)
    ensures Inv(cfg, Apply(cfg, st, a))
  {
    match a
    case Tick(to) =>
      var t := st.(now := to);
      assert forall h :: FlowAt(t, h) == FlowAt(st, h);
      RecordsStand(cfg, st, t);
    case StartFlow(p, user, target) => StartKeeps(cfg, st, p, user, target);
    case Callback(p, user, uuid, secret, claimed) =>
      OpenKeeps(cfg, st, p, Lookup(user, uuid, secret, Redirect, claimed, st.now));
    case SelectOne(p, user, uuid, secret, id) =>
      OpenKeeps(cfg, st, p, Lookup(user, uuid, secret, Select, Some(id), st.now));
    case Fail(p) => GotoKeeps(cfg, st, p, Finished);
    case Step(p, c) => RunStepKeeps(cfg, st, p, c);
  }

  lemma {:induction false} RunKeeps(cfg: Config, st: State, run: seq<Action>)
    requires Inv(cfg, st) && ValidRun(cfg, st, run)
    ensures Inv(cfg, After(cfg, st, run))
    decreases |run|
  {
    if run == [] {
    } else {
      StepKeeps(cfg, st, run[0]);
      RunKeeps(cfg, Apply(cfg, st, run[0]), run[1..]);
    }
  }

  // ---- What it gives ----

  /** In every interleaving each start leads to at most one save, so saves never outnumber starts. */
  lemma {:induction false} EachStartSavesOnce(cfg: Config, st: State, run: seq<Action>)
    requires Init(st) && ValidRun(cfg, st, run)
    ensures var t := After(cfg, st, run);
      && (forall j, k :: 0 <= j < k < |t.saves| ==> t.saves[j].flow != t.saves[k].flow)
      && |t.saves| <= |t.starts|
  {
    RunKeeps(cfg, st, run);
    var t := After(cfg, st, run);
    forall j, k | 0 <= j < k < |t.saves| ensures t.saves[j].flow != t.saves[k].flow {
      assert FlowAt(t, BySave(j)) == Some(t.saves[j].flow) && FlowAt(t, BySave(k)) == Some(t.saves[k].flow);
    }
    forall k | 0 <= k < |t.saves| ensures t.saves[k].flow in t.starts.Keys {
      assert SaveFits(cfg, t, t.saves[k]);
    }
    DistinctFlows(t.saves, t.starts.Keys);
  }

  lemma {:induction false} DistinctFlows(saves: seq<Saved>, flows: set<Pid>)
    requires forall j, k :: 0 <= j < k < |saves| ==> saves[j].flow != saves[k].flow
    requires forall k :: 0 <= k < |saves| ==> saves[k].flow in flows
    ensures |saves| <= |flows|
  {
    if saves == [] {
    } else {
      var n := |saves| - 1;
      DistinctFlows(saves[..n], flows - {saves[n].flow});
    }
  }

  /**
   * Every saved installation was listed by GitHub, for this app, in a
   * verification made by the saving user; it is recorded under that
   * verification's login, for the user and target the flow was started with.
   */
  lemma SavedIsProven(cfg: Config, st: State, run: seq<Action>, k: nat)
    requires Init(st) && ValidRun(cfg, st, run) && k < |After(cfg, st, run).saves|
    ensures var t := After(cfg, st, run); var s := t.saves[k];
      && s.flow in t.starts && t.starts[s.flow] == Started(s.user, s.target)
      && exists v, y ::
        && v in t.verifications && v.user == s.user && v.login == s.verifiedBy
        && G.Listed(v.pages, y) && y.appId == cfg.appId && y.id == s.installation
  {
    RunKeeps(cfg, st, run);
    var t := After(cfg, st, run);
    var s := t.saves[k];
    assert SaveFits(cfg, t, s);
    var v := t.verifications[s.proof];
    var y :| G.Listed(v.pages, y) && y.appId == cfg.appId && y.id == s.installation;
    assert v in t.verifications && G.Listed(v.pages, y);
  }
}
