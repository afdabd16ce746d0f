/** Shared vocabulary: optional values, identifiers and cardinality facts. */
module Prelude {

  datatype Option<+T> = None | Some(value: T)

  /** Milliseconds since the epoch. */
  type Time = int

  /** A user's primary key. */
  type UserId = int

  /** An auto-increment primary key. */
  type RowId = nat

  /** Identifies one HTTP request (or CLI run) being served. */
  type Pid = nat

  function Max(a: int, b: int): int {
    if a >= b then a else b
  }

  /** A set whose members are all equal has at most one member. */
  lemma AtMostOne<T>(s: set<T>)
    requires forall x, y :: x in s && y in s ==> x == y
    ensures |s| <= 1
  {
    if s != {} {
      var x :| x in s;
      assert s == {x};
    }
  }

  /** A subset is no larger. */
  lemma SubsetSize<T>(a: set<T>, b: set<T>)
    requires a <= b
    ensures |a| <= |b|
  {
    assert b == a + (b - a);
  }

  /** The numbers from `lo` on, `len` of them. */
  function Interval(lo: nat, len: nat): (s: set<nat>)
    ensures |s| == len && forall p: nat :: p in s <==> lo <= p < lo + len
  {
    if len == 0 then {} else Interval(lo, len - 1) + {lo + len - 1}
  }
}
