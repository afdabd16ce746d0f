/**
 * What each integration request does to its row when nobody interrupts it:
 * the connection test with its lazy re-encryption, create, replace, rename
 * and delete. Stated over key ids and plaintexts.
 */
module RotationAlone {
  import opened Prelude
  import opened IntegrationsKey
  import opened SecretCodec
  import opened KeyRotation
  import opened RotationProtocol

  /** The request's next statement, if it has one. */
  ghost function Advance(v: Vault, st: State, pid: Pid, c: Choice): State {
    if Enabled(v, st, Run(pid, c)) then RunStep(v, st, pid, c) else st
  }

  /** Both ends of a request that leaves every other row, and this row's owner and binding, alone. */
  ghost predicate OnlyRow(st: State, end: State, pid: Pid, id: RowId) {
    && pid in end.procs && end.procs[pid] == Done
    && end.rows.Keys == st.rows.Keys
    && (forall other :: other in st.rows && other != id ==> end.rows[other] == st.rows[other])
    && (id in st.rows ==>
          end.rows[id].userId == st.rows[id].userId && end.rows[id].binding == st.rows[id].binding)
  }

  /** The stored secret decrypts, is a valid payload, and is under a configured key that is not the current one. */
  ghost predicate Movable(v: Vault, row: Row, payloadValid: bool) {
    && v.Decrypt(row.secret, row.binding).Some? && payloadValid
    && row.secret.keyId in v.keys.byId && row.secret.keyId != v.keys.current.keyId
  }

  lemma TestRecords(v: Vault, st: State, pid: Pid, c: Choice, s: Seen)
    requires pid in st.procs && st.procs[pid] == WriteRest(s) && s.id in st.rows && st.rows[s.id].userId == s.row.userId
    ensures Advance(v, st, pid, c) == st.(rows := st.rows[s.id := st.rows[s.id].(rest := c.rest)]).Goto(pid, Done)
  {
  }

  lemma TestClaims(v: Vault, st: State, pid: Pid, c: Choice, s: Seen)
    requires v.Valid() && pid in st.procs && st.procs[pid] == TestClaim(s) && s.id in st.rows && st.rows[s.id] == s.row
    ensures var end := Advance(v, st, pid, c);
      if c.claimed
      then end == st.(rows := st.rows[s.id := s.row.(rest := c.rest)])
                    .Goto(pid, if Movable(v, s.row, c.payloadValid) then LazyRewrite(s) else WriteRest(s))
      else end == st.Goto(pid, Done)
  {
  }

  /** The four statements of a test, fewer when it is refused or has nothing to move. */
  ghost function TestAlone(v: Vault, st: State, pid: Pid, c: Choice): State {
    Advance(v, Advance(v, Advance(v, Advance(v, st, pid, c), pid, c), pid, c), pid, c)
  }

  /**
   * An uninterrupted test of a readable row under a previous key leaves it
   * under the current key with the same plaintext. Any other test leaves the
   * secret as it was; one refused by its cool-down changes nothing.
   */
  lemma UninterruptedTest(v: Vault, st: State, pid: Pid, c: Choice, id: RowId)
    requires v.Valid() && pid in st.procs && st.procs[pid] == TestLookup(id) && id in st.rows
    ensures var end, row := TestAlone(v, st, pid, c), st.rows[id];
      && OnlyRow(st, end, pid, id) && end.truth == st.truth
      && v.Decrypt(end.rows[id].secret, row.binding) == v.Decrypt(row.secret, row.binding)
      && (c.claimed && Movable(v, row, c.payloadValid) ==> end.rows[id].secret.keyId == v.keys.current.keyId)
      && (!(c.claimed && Movable(v, row, c.payloadValid)) ==> end.rows[id].secret == row.secret)
      && (if c.claimed then end.rows[id].rest == c.rest else end.rows[id] == row)
  {
    var row := st.rows[id];
    var s := Seen(id, row);
    var looked := st.Goto(pid, TestClaim(s));
    assert Advance(v, st, pid, c) == looked;
    TestClaims(v, looked, pid, c, s);
    if c.claimed { ClaimedTest(v, Advance(v, looked, pid, c), pid, c, s); }
  }

  /** The rest of a test that was admitted, its cool-down columns already written. */
  lemma ClaimedTest(v: Vault, st: State, pid: Pid, c: Choice, s: Seen)
    requires v.Valid() && pid in st.procs && s.id in st.rows && st.rows[s.id] == s.row.(rest := c.rest) && c.claimed
    requires st.procs[pid] == if Movable(v, s.row, c.payloadValid) then LazyRewrite(s) else WriteRest(s)
    ensures var end := Advance(v, Advance(v, st, pid, c), pid, c);
      && OnlyRow(st, end, pid, s.id) && end.truth == st.truth && end.rows[s.id].rest == c.rest
      && v.Decrypt(end.rows[s.id].secret, s.row.binding) == v.Decrypt(s.row.secret, s.row.binding)
      && (if Movable(v, s.row, c.payloadValid) then end.rows[s.id].secret.keyId == v.keys.current.keyId
          else end.rows[s.id].secret == s.row.secret)
  {
    v.ReencryptKeepsPlaintext(s.row.secret, s.row.binding, c.iv);
    if Movable(v, s.row, c.payloadValid) {
      var moved := Advance(v, st, pid, c);
      assert moved.rows == Rewrite(v, st.rows, s, c.iv) && moved.procs[pid] == WriteRest(s);
      TestRecords(v, moved, pid, c, s);
    } else {
      TestRecords(v, st, pid, c, s);
      assert !Enabled(v, Advance(v, st, pid, c), Run(pid, c));
    }
  }

  /** An uninterrupted create stores the credential it was given, readable under the current key. */
  lemma UninterruptedCreate(v: Vault, st: State, pid: Pid, c: Choice)
    requires v.Valid() && pid in st.procs && st.procs[pid].Create? && st.nextRow !in st.rows
    ensures var r, end := st.procs[pid], Advance(v, st, pid, c);
      && end.procs[pid] == Done && end.nextRow == st.nextRow + 1
      && end.rows.Keys == st.rows.Keys + {st.nextRow} && (forall id :: id in st.rows ==> end.rows[id] == st.rows[id])
      && var row := end.rows[st.nextRow];
         && row.userId == r.userId && row.binding == r.binding && row.secret.keyId == v.keys.current.keyId
         && v.Decrypt(row.secret, row.binding) == Some(r.plain) && end.truth == st.truth[st.nextRow := Some(r.plain)]
  {
    v.EncryptRoundTrips(st.procs[pid].plain, st.procs[pid].binding, c.iv);
  }

  /** An uninterrupted replacement leaves the row readable as the new credential, under the current key. */
  lemma UninterruptedReplace(v: Vault, st: State, pid: Pid, c: Choice, id: RowId, plain: Plain)
    requires v.Valid() && pid in st.procs && st.procs[pid] == ReplaceLookup(id, plain)
    ensures var end := Advance(v, Advance(v, st, pid, c), pid, c);
      && OnlyRow(st, end, pid, id)
      && (id in st.rows ==>
            && end.rows[id].secret.keyId == v.keys.current.keyId && end.rows[id].rest == c.rest
            && v.Decrypt(end.rows[id].secret, end.rows[id].binding) == Some(plain)
            && end.truth == st.truth[id := Some(plain)])
      && (id !in st.rows ==> end.truth == st.truth)
  {
    if id in st.rows {
      var s := Seen(id, st.rows[id]);
      assert Advance(v, st, pid, c) == st.Goto(pid, ReplaceWrite(s, plain));
      v.EncryptRoundTrips(plain, st.rows[id].binding, c.iv);
    } else {
      assert Advance(v, st, pid, c) == st.Goto(pid, Done);
    }
  }

  /** An uninterrupted rename touches no secret. */
  lemma UninterruptedRename(v: Vault, st: State, pid: Pid, c: Choice, id: RowId)
    requires pid in st.procs && st.procs[pid] == RenameLookup(id)
    ensures var end := Advance(v, Advance(v, st, pid, c), pid, c);
      && OnlyRow(st, end, pid, id) && end.truth == st.truth
      && (id in st.rows ==> end.rows[id] == st.rows[id].(rest := c.rest))
  {
    if id in st.rows {
      assert Advance(v, st, pid, c) == st.Goto(pid, WriteRest(Seen(id, st.rows[id])));
    } else {
      assert Advance(v, st, pid, c) == st.Goto(pid, Done);
    }
  }

  /** An uninterrupted delete removes the row and nothing else. */
  lemma UninterruptedDelete(v: Vault, st: State, pid: Pid, c: Choice, id: RowId)
    requires pid in st.procs && st.procs[pid] == DeleteLookup(id)
    ensures var end := Advance(v, Advance(v, st, pid, c), pid, c);
      end.procs[pid] == Done && end.rows == st.rows - {id}
  {
    if id in st.rows {
      assert Advance(v, st, pid, c) == st.Goto(pid, DeleteWrite(Seen(id, st.rows[id])));
    } else {
      assert Advance(v, st, pid, c) == st.Goto(pid, Done);
      assert st.rows - {id} == st.rows;
    }
  }
}
