/**
 * Key rotation under concurrency, with one fixed key set: the operator's
 * batch run, the lazy re-encryption of the test action, credential
 * replacement, creation, renaming and deletion interleave one database
 * statement at a time. Every rewrite is guarded by the key id it read.
 */
module RotationProtocol {
  import opened Prelude
  import opened IntegrationsKey
  import opened SecretCodec
  import opened KeyRotation

  /** A row as some request loaded it. */
  datatype Seen = Seen(id: RowId, row: Row)

  datatype Request =
    | BatchRead(afterId: nat)
    | BatchWrite(todo: seq<Seen>, more: bool)
    | TestLookup(id: RowId)
    | TestClaim(seen: Seen)
    | LazyRewrite(seen: Seen)
    | WriteRest(seen: Seen)
    | ReplaceLookup(id: RowId, plain: Plain)
    | ReplaceWrite(seen: Seen, plain: Plain)
    | Create(userId: UserId, binding: Binding, plain: Plain, rest: nat)
    | RenameLookup(id: RowId)
    | DeleteLookup(id: RowId)
    | DeleteWrite(seen: Seen)
    | BatchDone
    | Done
  {
    predicate Initial() {
      match this
      case BatchRead(afterId) => afterId == 0
      case TestLookup(_) => true
      case ReplaceLookup(_, _) => true
      case Create(_, _, _, _) => true
      case RenameLookup(_) => true
      case DeleteLookup(_) => true
      case _ => false
    }
  }

  /** `truth` is history: what each row's plaintext should be, set by create and replace only. */
  datatype State = State(rows: Rows, nextRow: RowId, procs: map<Pid, Request>, truth: map<RowId, Option<Plain>>) {
    function Goto(pid: Pid, r: Request): State { this.(procs := procs[pid := r]) }
  }

  /** The batch a SELECT returns, the IV drawn, the cool-down's verdict, and the columns written. */
  datatype Choice = Choice(batch: seq<RowId>, iv: nat, claimed: bool, payloadValid: bool, rest: nat)

  datatype Action = Spawn(pid: Pid, request: Request) | Run(pid: Pid, choice: Choice)

  ghost predicate Enabled(v: Vault, st: State, a: Action) {
    match a
    case Spawn(pid, r) => pid !in st.procs && r.Initial()
    case Run(pid, c) =>
      && pid in st.procs
      && match st.procs[pid] {
         case BatchRead(afterId) => IsBatch(v, st.rows, afterId, REENCRYPT_BATCH_SIZE, c.batch)
         case BatchDone => false
         case Done => false
         case _ => true
         }
  }

  predicate Owns(rows: Rows, s: Seen) {
    s.id in rows && rows[s.id].userId == s.row.userId
  }

  /** `rewriteSecret` of a loaded row: re-encrypt what was read, write it only over the key id that was read. */
  function Rewrite(v: Vault, rows: Rows, s: Seen, iv: nat): Rows {
    match v.Reencrypt(s.row.secret, s.row.binding, iv)
    case None => rows
    case Some(secret) =>
      if Owns(rows, s) && rows[s.id].secret.keyId == s.row.secret.keyId
      then rows[s.id := rows[s.id].(secret := secret)]
      else rows
  }

  function Snapshots(rows: Rows, ids: seq<RowId>): seq<Seen>
    requires forall id :: id in ids ==> id in rows
  {
    seq(|ids|, i requires 0 <= i < |ids| => Seen(ids[i], rows[ids[i]]))
  }

  function AfterBatchRead(rows: Rows, ids: seq<RowId>): Request
    requires forall id :: id in ids ==> id in rows
  {
    if ids == [] then BatchDone else BatchWrite(Snapshots(rows, ids), |ids| == REENCRYPT_BATCH_SIZE)
  }

  function AfterBatchWrite(todo: seq<Seen>, more: bool): Request
    requires todo != []
  {
    if |todo| > 1 then BatchWrite(todo[1..], more) else if more then BatchRead(todo[0].id) else BatchDone
  }

  function AfterClaim(v: Vault, s: Seen, payloadValid: bool): Request {
    if v.Decrypt(s.row.secret, s.row.binding).Some? && payloadValid && v.keys.IsPrevious(s.row.secret.keyId)
    then LazyRewrite(s)
    else WriteRest(s)
  }

  /** UPDATE of columns other than the secret, scoped by id and owner. */
  function UpdateRest(rows: Rows, s: Seen, rest: nat): Rows {
    if Owns(rows, s) then rows[s.id := rows[s.id].(rest := rest)] else rows
  }

  ghost function RunStep(v: Vault, st: State, pid: Pid, c: Choice): State
    requires Enabled(v, st, Run(pid, c))
  {
    match st.procs[pid]
    case BatchRead(_) => st.Goto(pid, AfterBatchRead(st.rows, c.batch))
    case BatchWrite(todo, more) =>
      if todo == [] then st.Goto(pid, BatchDone)
      else st.(rows := Rewrite(v, st.rows, todo[0], c.iv)).Goto(pid, AfterBatchWrite(todo, more))
    case TestLookup(id) => st.Goto(pid, if id in st.rows then TestClaim(Seen(id, st.rows[id])) else Done)
    case TestClaim(s) =>
      if c.claimed
      then st.(rows := UpdateRest(st.rows, s, c.rest)).Goto(pid, AfterClaim(v, s, c.payloadValid))
      else st.Goto(pid, Done)
    case LazyRewrite(s) => st.(rows := Rewrite(v, st.rows, s, c.iv)).Goto(pid, WriteRest(s))
    case WriteRest(s) => st.(rows := UpdateRest(st.rows, s, c.rest)).Goto(pid, Done)
    case ReplaceLookup(id, p) => st.Goto(pid, if id in st.rows then ReplaceWrite(Seen(id, st.rows[id]), p) else Done)
    case ReplaceWrite(s, p) =>
      (if Owns(st.rows, s)
       then st.(rows := st.rows[s.id := st.rows[s.id].(secret := v.Encrypt(p, s.row.binding, c.iv), rest := c.rest)],
                truth := st.truth[s.id := Some(p)])
       else st).Goto(pid, Done)
    case Create(u, b, p, rest) =>
      st.(rows := st.rows[st.nextRow := Row(u, b, v.Encrypt(p, b, c.iv), rest)],
          truth := st.truth[st.nextRow := Some(p)],
          nextRow := st.nextRow + 1).Goto(pid, Done)
    case RenameLookup(id) => st.Goto(pid, if id in st.rows then WriteRest(Seen(id, st.rows[id])) else Done)
    case DeleteLookup(id) => st.Goto(pid, if id in st.rows then DeleteWrite(Seen(id, st.rows[id])) else Done)
    case DeleteWrite(s) => (if Owns(st.rows, s) then st.(rows := st.rows - {s.id}) else st).Goto(pid, Done)
  }

  ghost function Apply(v: Vault, st: State, a: Action): State
    requires Enabled(v, st, a)
  {
    match a
    case Spawn(pid, r) => st.Goto(pid, r)
    case Run(pid, c) => RunStep(v, st, pid, c)
  }

  ghost predicate ValidRun(v: Vault, st: State, run: seq<Action>)
    decreases |run|
  {
    run == [] || (Enabled(v, st, run[0]) && ValidRun(v, Apply(v, st, run[0]), run[1..]))
  }

  ghost function After(v: Vault, st: State, run: seq<Action>): State
    requires ValidRun(v, st, run)
    decreases |run|
  {
    if run == [] then st else After(v, Apply(v, st, run[0]), run[1..])
  }

  /** Any table, with nothing in flight; the truth starts as whatever each row decrypts to. */
  ghost predicate Init(v: Vault, st: State) {
    && v.Valid() && st.procs == map[] && st.nextRow > 0
    && (forall id :: id in st.rows ==> 0 < id < st.nextRow)
    && st.truth == map id | id in st.rows :: v.Decrypt(st.rows[id].secret, st.rows[id].binding)
  }

  /** Owner and binding never change; the secret is still the one read, unless it has moved to the current key. */
  predicate SeenFits(v: Vault, st: State, s: Seen) {
    && s.id < st.nextRow
    && (s.id in st.rows ==>
          && st.rows[s.id].userId == s.row.userId && st.rows[s.id].binding == s.row.binding
          && (st.rows[s.id].secret == s.row.secret || v.keys.IsCurrent(st.rows[s.id].secret.keyId)))
  }

  ghost predicate RequestFits(v: Vault, st: State, r: Request) {
    match r
    case BatchWrite(todo, _) =>
      forall i :: 0 <= i < |todo| ==> SeenFits(v, st, todo[i]) && v.keys.IsPrevious(todo[i].row.secret.keyId)
    case LazyRewrite(s) => SeenFits(v, st, s) && v.keys.IsPrevious(s.row.secret.keyId)
    case TestClaim(s) => SeenFits(v, st, s)
    case WriteRest(s) => SeenFits(v, st, s)
    case ReplaceWrite(s, _) => SeenFits(v, st, s)
    case DeleteWrite(s) => SeenFits(v, st, s)
    case _ => true
  }

  ghost predicate TruthHolds(v: Vault, st: State) {
    forall id :: id in st.rows ==>
      0 < id < st.nextRow && id in st.truth && v.Decrypt(st.rows[id].secret, st.rows[id].binding) == st.truth[id]
  }

  ghost predicate Inv(v: Vault, st: State) {
    && v.Valid() && st.nextRow > 0 && TruthHolds(v, st)
    && forall pid :: pid in st.procs ==> RequestFits(v, st, st.procs[pid])
  }

  /** A secret changes only by moving to the current key; owner and binding never change. */
  predicate RowMoves(v: Vault, a: Row, b: Row) {
    && b.userId == a.userId && b.binding == a.binding
    && (b.secret == a.secret || v.keys.IsCurrent(b.secret.keyId))
  }

  /** What one step does to the rows: no id comes back, and every surviving row only moves forward. */
  ghost predicate Evolves(v: Vault, st: State, st': State) {
    && st.nextRow <= st'.nextRow
    && (forall id :: id in st'.rows && id < st.nextRow ==> id in st.rows && RowMoves(v, st.rows[id], st'.rows[id]))
    && (forall id :: id in st'.rows && id >= st.nextRow ==> v.keys.IsCurrent(st'.rows[id].secret.keyId))
  }

  /** `RowMoves` read along a run: the key id is unchanged, or has become the current one. */
  predicate NewerKey(v: Vault, a: Row, b: Row) {
    b.userId == a.userId && b.binding == a.binding &&
      (b.secret.keyId == a.secret.keyId || v.keys.IsCurrent(b.secret.keyId))
  }

  ghost predicate Progresses(v: Vault, st: State, st': State) {
    && st.nextRow <= st'.nextRow
    && (forall id :: id in st'.rows && id < st.nextRow ==> id in st.rows && NewerKey(v, st.rows[id], st'.rows[id]))
  }

  /** The heart of the guard: what a snapshot knows stays true as rows only move to the current key. */
  lemma SeenSurvives(v: Vault, st: State, st': State, s: Seen)
    requires SeenFits(v, st, s) && Evolves(v, st, st')
    ensures SeenFits(v, st', s)
  {
  }

  lemma RequestSurvives(v: Vault, st: State, st': State, r: Request)
    requires RequestFits(v, st, r) && Evolves(v, st, st')
    ensures RequestFits(v, st', r)
  {
    match r
    case BatchWrite(todo, _) =>
      forall i | 0 <= i < |todo| ensures SeenFits(v, st', todo[i]) {
        SeenSurvives(v, st, st', todo[i]);
      }
    case LazyRewrite(s) => SeenSurvives(v, st, st', s);
    case TestClaim(s) => SeenSurvives(v, st, st', s);
    case WriteRest(s) => SeenSurvives(v, st, st', s);
    case ReplaceWrite(s, _) => SeenSurvives(v, st, st', s);
    case DeleteWrite(s) => SeenSurvives(v, st, st', s);
    case _ =>
  }

  /** A guarded rewrite never changes what a row decrypts to, however stale the snapshot. */
  lemma RewriteKeepsTruth(v: Vault, st: State, s: Seen, iv: nat)
    requires v.Valid() && TruthHolds(v, st) && SeenFits(v, st, s) && v.keys.IsPrevious(s.row.secret.keyId)
    ensures var st' := st.(rows := Rewrite(v, st.rows, s, iv)); TruthHolds(v, st') && Evolves(v, st, st')
  {
    v.ReencryptKeepsPlaintext(s.row.secret, s.row.binding, iv);
  }

  lemma UpdateRestKeepsTruth(v: Vault, st: State, s: Seen, rest: nat)
    requires TruthHolds(v, st)
    ensures var st' := st.(rows := UpdateRest(st.rows, s, rest)); TruthHolds(v, st') && Evolves(v, st, st')
  {
  }

  /** Moving one request on after the tables changed. */
  lemma MoveOn(v: Vault, st: State, mid: State, pid: Pid, r: Request)
    requires Inv(v, st) && TruthHolds(v, mid) && Evolves(v, st, mid) && mid.procs == st.procs
    requires RequestFits(v, mid, r)
    ensures Inv(v, mid.Goto(pid, r)) && Evolves(v, st, mid.Goto(pid, r))
  {
    var st' := mid.Goto(pid, r);
    forall q | q in st'.procs ensures RequestFits(v, st', st'.procs[q]) {
      if q != pid { RequestSurvives(v, st, mid, st.procs[q]); }
      RequestSurvives(v, mid, st', st'.procs[q]);
    }
  }

  lemma InitEstablishes(v: Vault, st: State)
    requires Init(v, st)
    ensures Inv(v, st)
  {
  }

  lemma BatchReadKeeps(v: Vault, st: State, pid: Pid, c: Choice)
    requires Inv(v, st) && Enabled(v, st, Run(pid, c)) && st.procs[pid].BatchRead?
    ensures Inv(v, RunStep(v, st, pid, c)) && Evolves(v, st, RunStep(v, st, pid, c))
  {
    var r := AfterBatchRead(st.rows, c.batch);
    if c.batch != [] {
      forall i | 0 <= i < |c.batch|
        ensures SeenFits(v, st, r.todo[i]) && v.keys.IsPrevious(r.todo[i].row.secret.keyId)
      {
        assert c.batch[i] in c.batch;
        PreviousAgree(v.keys, st.rows[c.batch[i]].secret.keyId);
      }
    }
    MoveOn(v, st, st, pid, r);
  }

  lemma RewriteStepKeeps(v: Vault, st: State, pid: Pid, c: Choice)
    requires Inv(v, st) && Enabled(v, st, Run(pid, c)) && (st.procs[pid].BatchWrite? || st.procs[pid].LazyRewrite?)
    ensures Inv(v, RunStep(v, st, pid, c)) && Evolves(v, st, RunStep(v, st, pid, c))
  {
    var r := st.procs[pid];
    assert RequestFits(v, st, r);
    if r.BatchWrite? && r.todo == [] {
      MoveOn(v, st, st, pid, BatchDone);
    } else {
      var s := if r.BatchWrite? then r.todo[0] else r.seen;
      var next := if r.BatchWrite? then AfterBatchWrite(r.todo, r.more) else WriteRest(r.seen);
      var mid := st.(rows := Rewrite(v, st.rows, s, c.iv));
      RewriteKeepsTruth(v, st, s, c.iv);
      RequestSurvives(v, st, mid, r);
      SeenSurvives(v, st, mid, s);
      assert RunStep(v, st, pid, c) == mid.Goto(pid, next);
      MoveOn(v, st, mid, pid, next);
    }
  }

  lemma RestStepKeeps(v: Vault, st: State, pid: Pid, c: Choice)
    requires Inv(v, st) && Enabled(v, st, Run(pid, c)) && (st.procs[pid].TestClaim? || st.procs[pid].WriteRest?)
    ensures Inv(v, RunStep(v, st, pid, c)) && Evolves(v, st, RunStep(v, st, pid, c))
  {
    var r := st.procs[pid];
    assert RequestFits(v, st, r);
    if r.TestClaim? && !c.claimed {
      MoveOn(v, st, st, pid, Done);
    } else {
      var mid := st.(rows := UpdateRest(st.rows, r.seen, c.rest));
      var next := if r.TestClaim? then AfterClaim(v, r.seen, c.payloadValid) else Done;
      UpdateRestKeepsTruth(v, st, r.seen, c.rest);
      SeenSurvives(v, st, mid, r.seen);
      assert RunStep(v, st, pid, c) == mid.Goto(pid, next);
      MoveOn(v, st, mid, pid, next);
    }
  }

  /** Create, replace and delete: the writes that may change a row's truth. */
  lemma ChangeStepKeeps(v: Vault, st: State, pid: Pid, c: Choice)
    requires Inv(v, st) && Enabled(v, st, Run(pid, c))
    requires st.procs[pid].Create? || st.procs[pid].ReplaceWrite? || st.procs[pid].DeleteWrite?
    ensures Inv(v, RunStep(v, st, pid, c)) && Evolves(v, st, RunStep(v, st, pid, c))
  {
    var r, st' := st.procs[pid], RunStep(v, st, pid, c);
    assert RequestFits(v, st, r);
    if r.Create? { v.EncryptRoundTrips(r.plain, r.binding, c.iv); }
    if r.ReplaceWrite? { v.EncryptRoundTrips(r.plain, r.seen.row.binding, c.iv); }
    var mid := st'.(procs := st.procs);
    assert st' == mid.Goto(pid, Done);
    MoveOn(v, st, mid, pid, Done);
  }

  lemma StepKeeps(v: Vault, st: State, a: Action)
    requires Inv(v, st) && Enabled(v, st, a)
    ensures Inv(v, Apply(v, st, a)) && Evolves(v, st, Apply(v, st, a))
  {
    match a
    case Spawn(pid, r) => MoveOn(v, st, st, pid, r);
    case Run(pid, c) =>
      match st.procs[pid]
      case BatchRead(_) => BatchReadKeeps(v, st, pid, c);
      case BatchWrite(_, _) => RewriteStepKeeps(v, st, pid, c);
      case LazyRewrite(_) => RewriteStepKeeps(v, st, pid, c);
      case TestClaim(_) => RestStepKeeps(v, st, pid, c);
      case WriteRest(_) => RestStepKeeps(v, st, pid, c);
      case Create(_, _, _, _) => ChangeStepKeeps(v, st, pid, c);
      case ReplaceWrite(_, _) => ChangeStepKeeps(v, st, pid, c);
      case DeleteWrite(_) => ChangeStepKeeps(v, st, pid, c);
      case TestLookup(_) => MoveOn(v, st, st, pid, RunStep(v, st, pid, c).procs[pid]);
      case ReplaceLookup(_, _) => MoveOn(v, st, st, pid, RunStep(v, st, pid, c).procs[pid]);
      case RenameLookup(_) => MoveOn(v, st, st, pid, RunStep(v, st, pid, c).procs[pid]);
      case DeleteLookup(_) => MoveOn(v, st, st, pid, RunStep(v, st, pid, c).procs[pid]);
  }

  lemma {:induction false} RunKeeps(v: Vault, st: State, run: seq<Action>)
    requires Inv(v, st) && ValidRun(v, st, run)
    ensures Inv(v, After(v, st, run)) && Progresses(v, st, After(v, st, run))
    decreases |run|
  {
    if run == [] {
    } else {
      var mid := Apply(v, st, run[0]);
      StepKeeps(v, st, run[0]);
      RunKeeps(v, mid, run[1..]);
      assert Evolves(v, st, mid) && Progresses(v, mid, After(v, st, run));
    }
  }

  /** In every reachable state, a row decrypts to the plaintext of its latest create or replace. */
  lemma PlaintextIsLatest(v: Vault, init: State, run: seq<Action>, id: RowId)
    requires Init(v, init) && ValidRun(v, init, run) && id in After(v, init, run).rows
    ensures var st := After(v, init, run);
      id in st.truth && v.Decrypt(st.rows[id].secret, st.rows[id].binding) == st.truth[id]
  {
    InitEstablishes(v, init);
    RunKeeps(v, init, run);
  }

  /** A row's key id changes at most once, to the current key, and never back. */
  lemma KeyIdMovesOnce(v: Vault, st: State, first: seq<Action>, second: seq<Action>, id: RowId)
    requires Inv(v, st) && id in st.rows && ValidRun(v, st, first)
    requires var mid := After(v, st, first);
      ValidRun(v, mid, second) && id in mid.rows && id in After(v, mid, second).rows
    ensures var mid := After(v, st, first); var end := After(v, mid, second);
      && (mid.rows[id].secret.keyId != st.rows[id].secret.keyId ==> v.keys.IsCurrent(mid.rows[id].secret.keyId))
      && (mid.rows[id].secret.keyId != st.rows[id].secret.keyId ==>
            end.rows[id].secret.keyId == mid.rows[id].secret.keyId)
      && (v.keys.IsCurrent(st.rows[id].secret.keyId) ==> end.rows[id].secret.keyId == st.rows[id].secret.keyId)
  {
    var mid := After(v, st, first);
    RunKeeps(v, st, first);
    RunKeeps(v, mid, second);
    assert NewerKey(v, st.rows[id], mid.rows[id]) && NewerKey(v, mid.rows[id], After(v, mid, second).rows[id]);
  }

  /** Whether a step is the write of a credential replacement of row `id`. */
  predicate Replaces(st: State, a: Action, id: RowId) {
    a.Run? && a.pid in st.procs && st.procs[a.pid].ReplaceWrite? && st.procs[a.pid].seen.id == id
  }

  ghost predicate NoReplacement(v: Vault, st: State, run: seq<Action>, id: RowId)
    requires ValidRun(v, st, run)
    decreases |run|
  {
    run == [] || (!Replaces(st, run[0], id) && NoReplacement(v, Apply(v, st, run[0]), run[1..], id))
  }

  lemma TruthChangesOnlyByReplacement(v: Vault, st: State, a: Action, id: RowId)
    requires Enabled(v, st, a) && id in st.truth && id < st.nextRow && !Replaces(st, a, id)
    ensures var st' := Apply(v, st, a); id in st'.truth && st'.truth[id] == st.truth[id] && id < st'.nextRow
  {
  }

  lemma {:induction false} TruthStands(v: Vault, st: State, run: seq<Action>, id: RowId)
    requires ValidRun(v, st, run) && id in st.truth && id < st.nextRow && NoReplacement(v, st, run, id)
    ensures id in After(v, st, run).truth && After(v, st, run).truth[id] == st.truth[id]
    decreases |run|
  {
    if run == [] {
    } else {
      TruthChangesOnlyByReplacement(v, st, run[0], id);
      TruthStands(v, Apply(v, st, run[0]), run[1..], id);
    }
  }

  /**
   * A replacement is never overwritten by a stale rewrite: once written, the
   * row decrypts to the new credential until the next replacement, whatever
   * batch or lazy rewrites were in flight with the old one.
   */
  lemma ReplacementStands(v: Vault, st: State, pid: Pid, c: Choice, run: seq<Action>)
    requires Inv(v, st) && Enabled(v, st, Run(pid, c)) && st.procs[pid].ReplaceWrite?
    requires Owns(st.rows, st.procs[pid].seen)
    requires var mid, id := RunStep(v, st, pid, c), st.procs[pid].seen.id;
      ValidRun(v, mid, run) && NoReplacement(v, mid, run, id) && id in After(v, mid, run).rows
    ensures var row := After(v, RunStep(v, st, pid, c), run).rows[st.procs[pid].seen.id];
      v.Decrypt(row.secret, row.binding) == Some(st.procs[pid].plain) && v.keys.IsCurrent(row.secret.keyId)
  {
    var mid, id := RunStep(v, st, pid, c), st.procs[pid].seen.id;
    StepKeeps(v, st, Run(pid, c));
    assert RequestFits(v, st, st.procs[pid]);
    RunKeeps(v, mid, run);
    TruthStands(v, mid, run, id);
    assert NewerKey(v, mid.rows[id], After(v, mid, run).rows[id]);
  }

  /** A row some batch run still has to move: under a previous key, and decryptable. */
  predicate Left(v: Vault, rows: Rows, id: RowId) {
    id in rows && v.keys.IsPrevious(rows[id].secret.keyId) && v.Decrypt(rows[id].secret, rows[id].binding).Some?
  }

  /** What a batch run guarantees at each of its statements: every row left to move is still ahead of it. */
  ghost predicate Covers(v: Vault, rows: Rows, r: Request) {
    match r
    case BatchRead(afterId) => forall id: RowId :: Left(v, rows, id) ==> id > afterId
    case BatchWrite(todo, more) =>
      forall id: RowId :: Left(v, rows, id) ==>
        || (exists i :: 0 <= i < |todo| && todo[i].id == id)
        || (more && todo != [] && id > todo[|todo| - 1].id)
    case BatchDone => forall id: RowId :: !Left(v, rows, id)
    case _ => true
  }

  lemma LeftShrinks(v: Vault, st: State, st': State, id: RowId)
    requires Evolves(v, st, st') && Left(v, st'.rows, id)
    ensures Left(v, st.rows, id)
  {
  }

  lemma CoversSurvives(v: Vault, st: State, st': State, r: Request)
    requires Evolves(v, st, st') && Covers(v, st.rows, r)
    ensures Covers(v, st'.rows, r)
  {
    forall id: RowId | Left(v, st'.rows, id) ensures Left(v, st.rows, id) {
      LeftShrinks(v, st, st', id);
    }
  }

  /** A batch read leaves nothing out: a short batch is the whole rest, a full one reaches past its last row. */
  lemma BatchReadCovers(v: Vault, st: State, afterId: nat, ids: seq<RowId>)
    requires v.Valid() && Covers(v, st.rows, BatchRead(afterId))
    requires IsBatch(v, st.rows, afterId, REENCRYPT_BATCH_SIZE, ids)
    ensures Covers(v, st.rows, AfterBatchRead(st.rows, ids))
  {
    forall id: RowId | Left(v, st.rows, id)
      ensures id in ids || (|ids| == REENCRYPT_BATCH_SIZE && id > ids[|ids| - 1])
    {
      PreviousAgree(v.keys, st.rows[id].secret.keyId);
      assert Pending(v, st.rows, afterId, id);
      if id !in ids { assert ids[|ids| - 1] in ids; }
    }
    forall id: RowId | id in ids ensures exists i :: 0 <= i < |ids| && Snapshots(st.rows, ids)[i].id == id {
      var i :| 0 <= i < |ids| && ids[i] == id;
      assert Snapshots(st.rows, ids)[i].id == id;
    }
  }

  /** After its guarded rewrite a row is no longer left, whether this write or another moved it. */
  lemma RewriteMoves(v: Vault, st: State, s: Seen, iv: nat)
    requires v.Valid() && SeenFits(v, st, s) && v.keys.IsPrevious(s.row.secret.keyId)
    ensures !Left(v, Rewrite(v, st.rows, s, iv), s.id)
  {
    v.ReencryptKeepsPlaintext(s.row.secret, s.row.binding, iv);
  }

  lemma BatchWriteCovers(v: Vault, st: State, todo: seq<Seen>, more: bool, iv: nat)
    requires Inv(v, st) && todo != [] && RequestFits(v, st, BatchWrite(todo, more))
    requires Covers(v, st.rows, BatchWrite(todo, more))
    ensures Covers(v, Rewrite(v, st.rows, todo[0], iv), AfterBatchWrite(todo, more))
  {
    var rows', next := Rewrite(v, st.rows, todo[0], iv), AfterBatchWrite(todo, more);
    RewriteMoves(v, st, todo[0], iv);
    RewriteKeepsTruth(v, st, todo[0], iv);
    forall id: RowId | Left(v, rows', id)
      ensures (exists i :: 1 <= i < |todo| && todo[i].id == id) || (more && id > todo[|todo| - 1].id)
    {
      LeftShrinks(v, st, st.(rows := rows'), id);
      if i :| 0 <= i < |todo| && todo[i].id == id { assert i != 0; }
    }
    if |todo| > 1 {
      forall id: RowId | Left(v, rows', id) && exists i :: 1 <= i < |todo| && todo[i].id == id
        ensures exists i :: 0 <= i < |todo[1..]| && todo[1..][i].id == id
      {
        var i :| 1 <= i < |todo| && todo[i].id == id;
        assert todo[1..][i - 1].id == id;
      }
    }
  }

  ghost predicate AllCovered(v: Vault, st: State) {
    forall pid :: pid in st.procs ==> Covers(v, st.rows, st.procs[pid])
  }

  lemma StepCovers(v: Vault, st: State, a: Action)
    requires Inv(v, st) && AllCovered(v, st) && Enabled(v, st, a)
    ensures AllCovered(v, Apply(v, st, a))
  {
    var st' := Apply(v, st, a);
    StepKeeps(v, st, a);
    forall pid | pid in st'.procs ensures Covers(v, st'.rows, st'.procs[pid]) {
      if pid != a.pid {
        CoversSurvives(v, st, st', st.procs[pid]);
      } else if a.Run? {
        OwnStepCovers(v, st, pid, a.choice);
      }
    }
  }

  lemma OwnStepCovers(v: Vault, st: State, pid: Pid, c: Choice)
    requires Inv(v, st) && AllCovered(v, st) && Enabled(v, st, Run(pid, c))
    ensures var st' := RunStep(v, st, pid, c); Covers(v, st'.rows, st'.procs[pid])
  {
    assert RequestFits(v, st, st.procs[pid]) && Covers(v, st.rows, st.procs[pid]);
    match st.procs[pid]
    case BatchRead(afterId) => BatchReadCovers(v, st, afterId, c.batch);
    case BatchWrite(todo, more) => if todo != [] { BatchWriteCovers(v, st, todo, more, c.iv); }
    case _ =>
  }

  lemma {:induction false} RunCovers(v: Vault, st: State, run: seq<Action>)
    requires Inv(v, st) && AllCovered(v, st) && ValidRun(v, st, run)
    ensures AllCovered(v, After(v, st, run))
    decreases |run|
  {
    if run == [] {
    } else {
      StepKeeps(v, st, run[0]);
      StepCovers(v, st, run[0]);
      RunCovers(v, Apply(v, st, run[0]), run[1..]);
    }
  }

  /**
   * A finished batch run has done its job whatever ran beside it: from then
   * on, no row is left under a previous key unless it cannot be decrypted.
   */
  lemma FinishedBatchLeavesNothing(v: Vault, init: State, run: seq<Action>, pid: Pid, id: RowId)
    requires Init(v, init) && ValidRun(v, init, run)
    requires var st := After(v, init, run); pid in st.procs && st.procs[pid].BatchDone? && id in st.rows
    ensures var row := After(v, init, run).rows[id];
      v.keys.IsPrevious(row.secret.keyId) ==> v.Decrypt(row.secret, row.binding) == None
  {
    InitEstablishes(v, init);
    RunCovers(v, init, run);
    var st := After(v, init, run);
    assert Covers(v, st.rows, st.procs[pid]) && !Left(v, st.rows, id);
  }
}
