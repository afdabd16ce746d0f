/**
 * The integrations key set: parsing the list of retired keys and assembling
 * the set, which must give every stored key id exactly one key.
 */
module IntegrationsKey {
  import opened Prelude
  import opened Text

  /** Raw key bytes, and the 8 hex characters that name a key in the database. */
  type Key = nat
  type KeyId = string

  datatype Entry = Entry(key: Key, keyId: KeyId)

  datatype KeySet = KeySet(current: Entry, previous: seq<Entry>, byId: map<KeyId, Key>) {
    function Entries(): seq<Entry> { [current] + previous }

    function PreviousIds(): set<KeyId> { set e | e in previous :: e.keyId }

    predicate IsDecryptable(id: KeyId) { id in byId }

    predicate IsCurrent(id: KeyId) { id == current.keyId }

    predicate IsPrevious(id: KeyId) { IsDecryptable(id) && !IsCurrent(id) }

    /** Every configured key is found by its id, and no id is shared. */
    ghost predicate WellFormed() {
      && DistinctIds(Entries())
      && (forall e :: e in Entries() ==> e.keyId in byId && byId[e.keyId] == e.key)
      && (forall id :: id in byId ==> exists e :: e in Entries() && e.keyId == id)
    }
  }

  ghost predicate DistinctIds(es: seq<Entry>) {
    forall i, j :: 0 <= i < j < |es| ==> es[i].keyId != es[j].keyId
  }

  /** In a well-formed set, the two ways the code asks "is it a previous key?" agree. */
  lemma PreviousAgree(ks: KeySet, id: KeyId)
    requires ks.WellFormed()
    ensures ks.IsPrevious(id) <==> id in ks.PreviousIds()
    ensures ks.current.keyId !in ks.PreviousIds()
  {
    forall e | e in ks.previous ensures e.keyId != ks.current.keyId {
      var j :| 0 <= j < |ks.previous| && ks.previous[j] == e;
      assert ks.Entries()[0] == ks.current && ks.Entries()[j + 1] == e;
    }
    if ks.IsPrevious(id) {
      var e :| e in ks.Entries() && e.keyId == id;
      assert e in ks.previous;
    }
    forall e | e in ks.previous ensures e in ks.Entries() {}
  }

  /** The current key first, then the previous ones, each with its id. */
  function EntriesOf(current: Key, previous: seq<Key>, idOf: Key -> KeyId): seq<Entry> {
    [Entry(current, idOf(current))]
    + seq(|previous|, i requires 0 <= i < |previous| => Entry(previous[i], idOf(previous[i])))
  }

  /**
   * Assembles the set, refusing two keys that share a key id: `None` exactly
   * when they do. `idOf` is the truncated SHA-256, about which nothing is
   * assumed, so collisions are possible.
   */
  method KeySetOf(current: Key, previous: seq<Key>, idOf: Key -> KeyId) returns (r: Option<KeySet>)
    ensures r.Some? <==> DistinctIds(EntriesOf(current, previous, idOf))
    ensures r.Some? ==> r.value.WellFormed() && r.value.Entries() == EntriesOf(current, previous, idOf)
    ensures r.Some? ==>
      && r.value.current == Entry(current, idOf(current)) && |r.value.previous| == |previous|
      && forall i :: 0 <= i < |previous| ==> r.value.previous[i] == Entry(previous[i], idOf(previous[i]))
  {
    var entries := EntriesOf(current, previous, idOf);
    var byId: map<KeyId, Key> := map[];
    for n := 0 to |entries|
      invariant DistinctIds(entries[..n])
      invariant forall e :: e in entries[..n] ==> e.keyId in byId && byId[e.keyId] == e.key
      invariant forall id :: id in byId ==> exists e :: e in entries[..n] && e.keyId == id
    {
      var entry := entries[n];
      assert entries[..n + 1] == entries[..n] + [entry];
      if entry.keyId in byId {
        var e :| e in entries[..n] && e.keyId == entry.keyId;
        var i :| 0 <= i < n && entries[i] == e;
        return None;
      }
      byId := byId[entry.keyId := entry.key];
    }
    assert entries[..|entries|] == entries;
    var ks := KeySet(entries[0], entries[1..], byId);
    assert ks.Entries() == entries;
    r := Some(ks);
  }

  /** One retired key of the configured list and its 1-based position. */
  datatype Listed = Listed(value: string, position: nat)

  /** Whether value `i` is usable: non-blank, not seen before the list, and its first use in the list. */
  predicate FirstUse(values: seq<string>, seen: set<string>, i: nat) {
    i < |values| && values[i] != "" && values[i] !in seen && values[i] !in values[..i]
  }

  function Cleaned(values: seq<string>, seen: set<string>, position: nat): seq<Listed> {
    if values == [] then []
    else if values[0] != "" && values[0] !in seen
    then [Listed(values[0], position)] + Cleaned(values[1..], seen + {values[0]}, position + 1)
    else Cleaned(values[1..], seen, position + 1)
  }

  /** The entry that position `i` of the list gives, when it gives one. */
  predicate Earned(values: seq<string>, seen: set<string>, position: nat, e: Listed) {
    && position <= e.position
    && FirstUse(values, seen, e.position - position)
    && e.value == values[e.position - position]
  }

  /** The cleaned list holds exactly the first uses. */
  lemma {:induction false} CleanedIsFirstUses(values: seq<string>, seen: set<string>, position: nat, e: Listed)
    ensures e in Cleaned(values, seen, position) <==> Earned(values, seen, position, e)
  {
    if values == [] {
    } else {
      var v, rest := values[0], values[1..];
      var taken := v != "" && v !in seen;
      var seen' := if taken then seen + {v} else seen;
      CleanedIsFirstUses(rest, seen', position + 1, e);
      EarnedLater(values, seen, position, e);
      if taken {
        assert Cleaned(values, seen, position) == [Listed(v, position)] + Cleaned(rest, seen', position + 1);
      }
    }
  }

  lemma EarnedLater(values: seq<string>, seen: set<string>, position: nat, e: Listed)
    requires values != []
    ensures var v := values[0]; var taken := v != "" && v !in seen;
      Earned(values, seen, position, e) <==>
        || (taken && e == Listed(v, position))
        || Earned(values[1..], if taken then seen + {v} else seen, position + 1, e)
  {
    var rest, i := values[1..], e.position - position;
    if 0 < i < |values| {
      assert values[..i] == [values[0]] + rest[..i - 1];
      assert values[i] == rest[i - 1];
    }
  }

  ghost predicate InOrder(entries: seq<Listed>, from: nat) {
    && (forall k :: 0 <= k < |entries| ==> entries[k].position >= from)
    && (forall k, l :: 0 <= k < l < |entries| ==> entries[k].position < entries[l].position)
  }

  /** In configured order, each position used once. */
  lemma {:induction false} CleanedInOrder(values: seq<string>, seen: set<string>, position: nat)
    ensures InOrder(Cleaned(values, seen, position), position)
  {
    if values == [] {
    } else {
      var v, rest := values[0], values[1..];
      CleanedInOrder(rest, seen + {v}, position + 1);
      CleanedInOrder(rest, seen, position + 1);
      if v != "" && v !in seen {
        var tail := Cleaned(rest, seen + {v}, position + 1);
        assert Cleaned(values, seen, position) == [Listed(v, position)] + tail;
      } else {
        assert Cleaned(values, seen, position) == Cleaned(rest, seen, position + 1);
      }
    }
  }

  function TrimAll(parts: seq<string>): seq<string> {
    seq(|parts|, i requires 0 <= i < |parts| => Trim(parts[i]))
  }

  /** The entry is what its part of the list trims to: not blank, not the current key, on no earlier part. */
  ghost predicate FirstTrimmed(parts: seq<string>, current: string, e: Listed) {
    && 1 <= e.position <= |parts| && e.value == Trim(parts[e.position - 1]) && e.value != "" && e.value != current
    && forall j :: 0 <= j < e.position - 1 ==> Trim(parts[j]) != e.value
  }

  lemma TrimmedFirstUse(parts: seq<string>, current: string, e: Listed)
    ensures Earned(TrimAll(parts), {current}, 1, e) <==> FirstTrimmed(parts, current, e)
  {
    var values := TrimAll(parts);
    if 1 <= e.position <= |parts| {
      assert forall j :: 0 <= j < e.position - 1 ==> values[..e.position - 1][j] == Trim(parts[j]);
    }
  }

  /** Splits and cleans the retired-keys list, leaving out the current key. */
  method ParsePreviousKeys(raw: string, current: string) returns (entries: seq<Listed>)
    ensures entries == Cleaned(TrimAll(Split(raw, ',')), {current}, 1)
    ensures forall e :: e in entries <==> FirstTrimmed(Split(raw, ','), current, e)
  {
    var values := TrimAll(Split(raw, ','));
    var seen := {current};
    entries := [];
    for n := 0 to |values|
      invariant entries + Cleaned(values[n..], seen, n + 1) == Cleaned(values, {current}, 1)
    {
      var value := values[n];
      assert values[n..][0] == value && values[n..][1..] == values[n + 1..];
      if value != "" && value !in seen {
        seen := seen + {value};
        entries := entries + [Listed(value, n + 1)];
      }
    }
    forall e ensures e in entries <==> FirstTrimmed(Split(raw, ','), current, e) {
      CleanedIsFirstUses(values, {current}, 1, e);
      TrimmedFirstUse(Split(raw, ','), current, e);
    }
  }
}
