/**
 * The operator's re-encryption run: a keyset-paginated batch loop that moves
 * every row under a previous key to the current one, although each rewritten
 * row drops out of the query the loop is paging through.
 */
module KeyRotation {
  import opened Prelude
  import opened IntegrationsKey
  import opened SecretCodec

  const REENCRYPT_BATCH_SIZE: nat := 100

  /** An integration; `rest` stands for the columns rotation never touches. */
  datatype Row = Row(userId: UserId, binding: Binding, secret: Secret, rest: nat)

  type Rows = map<RowId, Row>

  datatype Result = Result(reencrypted: nat, skippedUndecryptable: nat, skippedChanged: nat)

  /** `secret_key_id IN (previous) AND id > afterId`. */
  predicate Pending(v: Vault, rows: Rows, afterId: nat, id: RowId) {
    id in rows && id > afterId && rows[id].secret.keyId in v.keys.PreviousIds()
  }

  ghost function AllPending(v: Vault, rows: Rows, afterId: nat): set<RowId> {
    set id: RowId | id in rows && Pending(v, rows, afterId, id)
  }

  predicate Ascending(ids: seq<RowId>) {
    forall i, j :: 0 <= i < j < |ids| ==> ids[i] < ids[j]
  }

  lemma AscendingAppend(ids: seq<RowId>, x: RowId)
    requires Ascending(ids) && forall id: RowId :: id in ids ==> id < x
    ensures Ascending(ids + [x])
  {
    forall i | 0 <= i < |ids| ensures ids[i] < x {
      assert ids[i] in ids;
    }
  }

  /** The first `limit` pending ids in order. */
  ghost predicate IsBatch(v: Vault, rows: Rows, afterId: nat, limit: nat, batch: seq<RowId>) {
    && Ascending(batch) && |batch| <= limit
    && (forall id: RowId :: id in batch ==> Pending(v, rows, afterId, id))
    && (forall id: RowId :: Pending(v, rows, afterId, id) && id !in batch ==>
          |batch| == limit && forall b: RowId :: b in batch ==> b < id)
  }

  /** What the run makes of one row, drawing IV `iv` for it. */
  function Rotated(v: Vault, row: Row, iv: nat): Row {
    if row.secret.keyId in v.keys.PreviousIds() && v.Decrypt(row.secret, row.binding).Some?
    then row.(secret := v.Encrypt(v.Decrypt(row.secret, row.binding).value, row.binding, iv))
    else row
  }

  /** The table after rows up to `upTo` have been handled. */
  function RotatedUpTo(v: Vault, rows: Rows, ivs: RowId -> nat, upTo: nat): Rows {
    map id: RowId | id in rows :: if id <= upTo then Rotated(v, rows[id], ivs(id)) else rows[id]
  }

  function RotatedAll(v: Vault, rows: Rows, ivs: RowId -> nat): Rows {
    map id: RowId | id in rows :: Rotated(v, rows[id], ivs(id))
  }

  /** Rows under a previous key that decrypt, and those that do not. */
  ghost function Movable(v: Vault, rows: Rows): set<RowId> {
    set id: RowId | id in rows && Pending(v, rows, 0, id) && v.Decrypt(rows[id].secret, rows[id].binding).Some?
  }

  ghost function Stuck(v: Vault, rows: Rows): set<RowId> {
    set id: RowId | id in rows && Pending(v, rows, 0, id) && v.Decrypt(rows[id].secret, rows[id].binding).None?
  }

  ghost predicate ValidIds(rows: Rows) {
    forall id: RowId :: id in rows ==> id > 0
  }

  /** Ids of `s` up to a bound. */
  ghost function UpTo(s: set<RowId>, bound: nat): set<RowId> {
    set id: RowId | id in s && id <= bound
  }

  class Store {
    var rows: Rows

    constructor (rows: Rows)
      ensures this.rows == rows
    {
      this.rows := rows;
    }

    /** SELECT ... WHERE secret_key_id IN (...) AND id > afterId ORDER BY id LIMIT limit. */
    method FindBatch(v: Vault, afterId: nat, limit: nat) returns (batch: seq<RowId>)
      ensures IsBatch(v, rows, afterId, limit, batch)
    {
      var left := set id: RowId | id in rows && Pending(v, rows, afterId, id);
      batch := [];
      while |batch| < limit && left != {}
        invariant |batch| <= limit && Ascending(batch)
        invariant forall id: RowId :: id in left ==> Pending(v, rows, afterId, id)
        invariant forall id: RowId :: id in batch ==> Pending(v, rows, afterId, id)
        invariant forall id: RowId :: Pending(v, rows, afterId, id) ==> id in batch || id in left
        invariant forall b: RowId, id: RowId :: b in batch && id in left ==> b < id
        decreases left
      {
        var least := Least(left);
        AscendingAppend(batch, least);
        batch := batch + [least];
        left := left - {least};
      }
    }

    /** The UPDATE conditioned on the stored key id; `false` when no row matched. */
    method RewriteSecret(id: RowId, userId: UserId, secret: Secret, expected: KeyId) returns (affected: bool)
      modifies this
      ensures affected <==> id in old(rows) && old(rows)[id].userId == userId && old(rows)[id].secret.keyId == expected
      ensures rows == if affected then old(rows)[id := old(rows)[id].(secret := secret)] else old(rows)
    {
      affected := id in rows && rows[id].userId == userId && rows[id].secret.keyId == expected;
      if affected {
        rows := rows[id := rows[id].(secret := secret)];
      }
    }

    /** One row of a batch: re-encrypt in memory, then the guarded rewrite. Alone, it is never refused. */
    method ReencryptRow(v: Vault, id: RowId, iv: nat) returns (done: bool)
      requires id in rows && rows[id].secret.keyId in v.keys.PreviousIds()
      modifies this
      ensures rows == old(rows)[id := Rotated(v, old(rows)[id], iv)]
      ensures done <==> v.Decrypt(old(rows)[id].secret, old(rows)[id].binding).Some?
    {
      var row := rows[id];
      var encrypted := v.Reencrypt(row.secret, row.binding, iv);
      if encrypted.None? { return false; }
      done := RewriteSecret(id, row.userId, encrypted.value, row.secret.keyId);
    }

    /**
     * The do-while batch loop, run alone. Ends with every pending row handled
     * exactly once, in id order (`visited`), and the counts accounting for all
     * of them.
     */
    method Reencrypt(v: Vault, ivs: RowId -> nat, batchSize: nat) returns (result: Result, visited: seq<RowId>)
      requires v.Valid() && ValidIds(rows) && batchSize > 0
      modifies this
      ensures rows == RotatedAll(v, old(rows), ivs)
      ensures Ascending(visited) && (forall id: RowId :: id in visited <==> Pending(v, old(rows), 0, id))
      ensures result == Result(|Movable(v, old(rows))|, |Stuck(v, old(rows))|, 0)
      ensures result.reencrypted + result.skippedUndecryptable == |AllPending(v, old(rows), 0)|
    {
      ghost var start := rows;
      var afterId := 0;
      visited := [];
      result := Result(0, 0, 0);
      var more := true;
      RotatedNone(v, start, ivs);
      while more
        invariant rows == RotatedUpTo(v, start, ivs, afterId)
        invariant HandledSoFar(v, start, afterId, visited, result)
        invariant !more ==> AllPending(v, start, afterId) == {}
        decreases more, AllPending(v, start, afterId)
      {
        var batch := FindBatch(v, afterId, batchSize);
        BatchOfStart(v, start, rows, ivs, afterId, batchSize, batch);
        ghost var cursor := afterId;
        for k := 0 to |batch|
          invariant afterId == if k == 0 then cursor else batch[k - 1]
          invariant rows == RotatedUpTo(v, start, ivs, afterId)
          invariant HandledSoFar(v, start, afterId, visited, result)
        {
          var id := batch[k];
          NextInBatch(v, start, cursor, afterId, batchSize, batch, k);
          HandledOne(v, start, ivs, afterId, id, visited, result);
          ghost var bumped := Bump(v, start[id], result);
          var done := ReencryptRow(v, id, ivs(id));
          result := if done then result.(reencrypted := result.reencrypted + 1)
                    else result.(skippedUndecryptable := result.skippedUndecryptable + 1);
          assert result == bumped;
          visited := visited + [id];
          afterId := id;
        }
        BatchEnds(v, start, cursor, afterId, batchSize, batch);
        more := |batch| == batchSize;
      }
      Finished(v, start, ivs, afterId, visited, result);
    }
  }

  method Least(s: set<RowId>) returns (m: RowId)
    requires s != {}
    ensures m in s && forall x: RowId :: x in s ==> m <= x
  {
    m :| m in s;
    var left := s;
    while left != {}
      invariant m in s && forall x :: x in s && x !in left ==> m <= x
      decreases left
    {
      var y :| y in left;
      if y < m { m := y; }
      left := left - {y};
    }
  }

  /** Loop invariant: the rows up to the cursor are visited in order and counted. */
  ghost predicate HandledSoFar(v: Vault, start: Rows, afterId: nat, visited: seq<RowId>, r: Result) {
    && Ascending(visited)
    && (forall id: RowId :: id in visited <==> Pending(v, start, 0, id) && id <= afterId)
    && r == Result(|UpTo(Movable(v, start), afterId)|, |UpTo(Stuck(v, start), afterId)|, 0)
  }

  lemma RotatedNone(v: Vault, start: Rows, ivs: RowId -> nat)
    requires ValidIds(start)
    ensures RotatedUpTo(v, start, ivs, 0) == start
    ensures HandledSoFar(v, start, 0, [], Result(0, 0, 0))
  {
    assert UpTo(Movable(v, start), 0) == {} && UpTo(Stuck(v, start), 0) == {};
  }

  /** Rows past the cursor are still as they were, so a batch of the table is a batch of the start. */
  lemma BatchOfStart(v: Vault, start: Rows, rows: Rows, ivs: RowId -> nat, afterId: nat, limit: nat, batch: seq<RowId>)
    requires rows == RotatedUpTo(v, start, ivs, afterId) && IsBatch(v, rows, afterId, limit, batch)
    ensures IsBatch(v, start, afterId, limit, batch)
  {
    forall id: RowId ensures Pending(v, rows, afterId, id) <==> Pending(v, start, afterId, id) {
      if id in start && id > afterId { assert rows[id] == start[id]; }
    }
  }

  /** No pending row lies between the cursor and the batch's next row. */
  lemma NextInBatch(v: Vault, start: Rows, cursor: nat, afterId: nat, limit: nat, batch: seq<RowId>, k: nat)
    requires IsBatch(v, start, cursor, limit, batch) && k < |batch|
    requires afterId == if k == 0 then cursor else batch[k - 1]
    ensures cursor <= afterId < batch[k] && Pending(v, start, afterId, batch[k])
    ensures forall id: RowId :: Pending(v, start, afterId, id) ==> batch[k] <= id
  {
    assert batch[k] in batch;
    if k > 0 { assert batch[k - 1] in batch; }
    forall id: RowId | Pending(v, start, afterId, id) ensures batch[k] <= id {
      assert Pending(v, start, cursor, id);
      if id in batch {
        var j :| 0 <= j < |batch| && batch[j] == id;
        assert j >= k;
      }
    }
  }

  lemma BatchEnds(v: Vault, start: Rows, cursor: nat, afterId: nat, limit: nat, batch: seq<RowId>)
    requires IsBatch(v, start, cursor, limit, batch) && limit > 0
    requires afterId == if |batch| == 0 then cursor else batch[|batch| - 1]
    ensures |batch| < limit ==> AllPending(v, start, afterId) == {}
    ensures batch != [] ==> AllPending(v, start, afterId) < AllPending(v, start, cursor)
  {
    if batch != [] { assert batch[|batch| - 1] in batch; }
    forall id: RowId | Pending(v, start, cursor, id) && |batch| < limit ensures id <= afterId {
      var j :| 0 <= j < |batch| && batch[j] == id;
    }
    forall id: RowId | Pending(v, start, afterId, id) ensures Pending(v, start, cursor, id) {}
    if batch != [] {
      var last := batch[|batch| - 1];
      assert last in batch && last in AllPending(v, start, cursor) && last !in AllPending(v, start, afterId);
      assert AllPending(v, start, afterId) <= AllPending(v, start, cursor);
    }
  }

  function Bump(v: Vault, row: Row, r: Result): Result {
    if v.Decrypt(row.secret, row.binding).Some? then r.(reencrypted := r.reencrypted + 1)
    else r.(skippedUndecryptable := r.skippedUndecryptable + 1)
  }

  /** No row between the cursor and the next pending row changes. */
  lemma TableOne(v: Vault, start: Rows, ivs: RowId -> nat, afterId: nat, id: RowId)
    requires Pending(v, start, afterId, id) && forall x: RowId :: Pending(v, start, afterId, x) ==> id <= x
    ensures RotatedUpTo(v, start, ivs, id) == RotatedUpTo(v, start, ivs, afterId)[id := Rotated(v, start[id], ivs(id))]
  {
    forall x: RowId | x in start && afterId < x < id ensures Rotated(v, start[x], ivs(x)) == start[x] {
      assert !Pending(v, start, afterId, x);
    }
  }

  /** Handling the next pending row extends the table, the visit order and the counts by just that row. */
  lemma HandledOne(v: Vault, start: Rows, ivs: RowId -> nat, afterId: nat, id: RowId, visited: seq<RowId>, r: Result)
    requires HandledSoFar(v, start, afterId, visited, r) && Pending(v, start, afterId, id)
    requires forall x: RowId :: Pending(v, start, afterId, x) ==> id <= x
    ensures RotatedUpTo(v, start, ivs, id) == RotatedUpTo(v, start, ivs, afterId)[id := Rotated(v, start[id], ivs(id))]
    ensures HandledSoFar(v, start, id, visited + [id], Bump(v, start[id], r))
  {
    TableOne(v, start, ivs, afterId, id);
    CountedOne(v, start, afterId, id);
    AscendingAppend(visited, id);
    forall x: RowId ensures x in visited + [id] <==> Pending(v, start, 0, x) && x <= id {
      assert Pending(v, start, 0, x) && afterId < x ==> Pending(v, start, afterId, x);
    }
  }

  lemma CountedOne(v: Vault, start: Rows, afterId: nat, id: RowId)
    requires Pending(v, start, afterId, id)
    requires forall x: RowId :: Pending(v, start, afterId, x) ==> id <= x
    ensures var some := v.Decrypt(start[id].secret, start[id].binding).Some?;
      && |UpTo(Movable(v, start), id)| == |UpTo(Movable(v, start), afterId)| + (if some then 1 else 0)
      && |UpTo(Stuck(v, start), id)| == |UpTo(Stuck(v, start), afterId)| + (if some then 0 else 1)
  {
    var movable, stuck := Movable(v, start), Stuck(v, start);
    assert Pending(v, start, 0, id);
    forall x: RowId | (x in movable || x in stuck) && afterId < x <= id ensures x == id {
      assert Pending(v, start, afterId, x);
    }
    assert afterId < id;
    if v.Decrypt(start[id].secret, start[id].binding).Some? {
      assert UpTo(movable, id) == UpTo(movable, afterId) + {id} && UpTo(stuck, id) == UpTo(stuck, afterId);
    } else {
      assert UpTo(stuck, id) == UpTo(stuck, afterId) + {id} && UpTo(movable, id) == UpTo(movable, afterId);
    }
  }

  lemma Finished(v: Vault, start: Rows, ivs: RowId -> nat, afterId: nat, visited: seq<RowId>, r: Result)
    requires HandledSoFar(v, start, afterId, visited, r) && AllPending(v, start, afterId) == {}
    ensures RotatedUpTo(v, start, ivs, afterId) == RotatedAll(v, start, ivs)
    ensures forall id: RowId :: id in visited <==> Pending(v, start, 0, id)
    ensures r == Result(|Movable(v, start)|, |Stuck(v, start)|, 0)
    ensures |Movable(v, start)| + |Stuck(v, start)| == |AllPending(v, start, 0)|
  {
    forall x: RowId | Pending(v, start, 0, x) ensures x <= afterId {
      assert x > afterId ==> x in AllPending(v, start, afterId);
    }
    forall x: RowId | x in start && x > afterId ensures Rotated(v, start[x], ivs(x)) == start[x] {
      assert !Pending(v, start, 0, x);
    }
    assert UpTo(Movable(v, start), afterId) == Movable(v, start);
    assert UpTo(Stuck(v, start), afterId) == Stuck(v, start);
    assert Movable(v, start) !! Stuck(v, start);
    assert AllPending(v, start, 0) == Movable(v, start) + Stuck(v, start);
  }

  /** What the run leaves of each row: moved with its plaintext, or exactly as it was. */
  lemma RotationKeepsPlaintexts(v: Vault, rows: Rows, ivs: RowId -> nat, id: RowId)
    requires v.Valid() && ValidIds(rows) && id in rows
    ensures var before, after := rows[id], RotatedAll(v, rows, ivs)[id];
      && v.Decrypt(after.secret, after.binding) == v.Decrypt(before.secret, before.binding)
      && (id in Movable(v, rows) ==> v.keys.IsCurrent(after.secret.keyId) && after == before.(secret := after.secret))
      && (id !in Movable(v, rows) ==> after == before)
  {
    var row := rows[id];
    if row.secret.keyId in v.keys.PreviousIds() && v.Decrypt(row.secret, row.binding).Some? {
      v.ReencryptKeepsPlaintext(row.secret, row.binding, ivs(id));
    }
  }

  /** Idempotent: a second run finds nothing to re-encrypt and changes nothing. */
  lemma SecondRunMovesNothing(v: Vault, rows: Rows, ivs: RowId -> nat, ivs': RowId -> nat)
    requires v.Valid() && ValidIds(rows)
    ensures var once := RotatedAll(v, rows, ivs);
      Movable(v, once) == {} && Stuck(v, once) == Stuck(v, rows) && RotatedAll(v, once, ivs') == once
  {
    var once := RotatedAll(v, rows, ivs);
    forall id: RowId | id in rows
      ensures id in Movable(v, once) <==> false
      ensures id in Stuck(v, once) <==> id in Stuck(v, rows)
      ensures Rotated(v, once[id], ivs'(id)) == once[id]
    {
      RotationKeepsPlaintexts(v, rows, ivs, id);
      PreviousAgree(v.keys, once[id].secret.keyId);
    }
    assert RotatedAll(v, once, ivs') == once;
  }
}
