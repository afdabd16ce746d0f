/**
 * Which installations a GitHub user proved access to: the paging loop that
 * lists them, the choice among them, and the sorted, cut selection offered
 * when there are several.
 */
module GithubInstallations {
  import opened Prelude

  const MAX_INSTALLATION_PAGES: nat := 10
  const MAX_CANDIDATES: nat := 100

  datatype Installation = Installation(id: nat, appId: int, login: string)

  /** GitHub's answer to one page request. */
  datatype Answer = Failed | Page(entries: seq<Installation>, hasNext: bool)

  ghost predicate DistinctIds(s: seq<Installation>) {
    forall i, j :: 0 <= i < j < |s| ==> s[i].id != s[j].id
  }

  predicate HasId(s: seq<Installation>, id: nat) {
    exists i :: 0 <= i < |s| && s[i].id == id
  }

  /** `Map.set`: replaces the value in place, or appends. */
  function Put(found: seq<Installation>, x: Installation): seq<Installation> {
    if found == [] then [x]
    else if found[0].id == x.id then [x] + found[1..]
    else [found[0]] + Put(found[1..], x)
  }

  function PutAll(found: seq<Installation>, xs: seq<Installation>): seq<Installation>
    decreases xs
  {
    if xs == [] then found else PutAll(Put(found, xs[0]), xs[1..])
  }

  /** The entries of this app not found on an earlier page. */
  function NewEntries(found: seq<Installation>, entries: seq<Installation>, appId: int): seq<Installation> {
    if entries == [] then []
    else
      (if entries[0].appId == appId && !HasId(found, entries[0].id) then [entries[0]] else [])
      + NewEntries(found, entries[1..], appId)
  }

  function AddPage(found: seq<Installation>, entries: seq<Installation>, appId: int): seq<Installation> {
    PutAll(found, NewEntries(found, entries, appId))
  }

  /** What the pages give, taken in order. */
  function Collected(pages: seq<seq<Installation>>, appId: int): seq<Installation> {
    if pages == [] then []
    else AddPage(Collected(pages[..|pages| - 1], appId), pages[|pages| - 1], appId)
  }

  lemma {:induction false} PutFacts(found: seq<Installation>, x: Installation)
    ensures var r := Put(found, x);
      && (forall id :: HasId(r, id) <==> HasId(found, id) || id == x.id)
      && (forall y :: y in r ==> y in found || y == x)
      && (DistinctIds(found) ==> DistinctIds(r))
  {
    var r := Put(found, x);
    if found == [] {
      assert r[0] == x;
    } else if found[0].id == x.id {
      HasIdCons(x, found[1..]);
      HasIdCons(found[0], found[1..]);
      assert found == [found[0]] + found[1..];
    } else {
      PutFacts(found[1..], x);
      HasIdCons(found[0], found[1..]);
      HasIdCons(found[0], Put(found[1..], x));
      assert found == [found[0]] + found[1..];
      if DistinctIds(found) {
        assert DistinctIds(found[1..]);
        assert !HasId(found[1..], found[0].id);
        DistinctCons(found[0], Put(found[1..], x));
      }
    }
  }

  lemma HasIdCons(x: Installation, rest: seq<Installation>)
    ensures forall id :: HasId([x] + rest, id) <==> x.id == id || HasId(rest, id)
  {
    var s := [x] + rest;
    forall id ensures HasId(s, id) <==> x.id == id || HasId(rest, id) {
      if x.id == id { assert s[0].id == id; }
      if i :| 0 <= i < |rest| && rest[i].id == id { assert s[i + 1].id == id; }
      if i :| 0 <= i < |s| && s[i].id == id { assert i > 0 ==> rest[i - 1].id == id; }
    }
  }

  lemma HasIdHead(s: seq<Installation>, id: nat)
    requires s != []
    ensures HasId(s, id) <==> s[0].id == id || HasId(s[1..], id)
  {
    assert s == [s[0]] + s[1..];
    HasIdCons(s[0], s[1..]);
  }

  lemma DistinctCons(x: Installation, rest: seq<Installation>)
    requires DistinctIds(rest) && !HasId(rest, x.id)
    ensures DistinctIds([x] + rest)
  {
  }

  lemma {:induction false} PutAllFacts(found: seq<Installation>, xs: seq<Installation>)
    ensures var r := PutAll(found, xs);
      && (forall id :: HasId(r, id) <==> HasId(found, id) || HasId(xs, id))
      && (forall y :: y in r ==> y in found || y in xs)
      && (DistinctIds(found) ==> DistinctIds(r))
    decreases xs
  {
    if xs == [] {
    } else {
      var put := Put(found, xs[0]);
      PutFacts(found, xs[0]);
      PutAllFacts(put, xs[1..]);
      forall id ensures HasId(PutAll(found, xs), id) <==> HasId(found, id) || HasId(xs, id) {
        HasIdHead(xs, id);
        assert HasId(put, id) <==> HasId(found, id) || id == xs[0].id;
      }
    }
  }

  lemma {:induction false} NewEntriesFacts(found: seq<Installation>, entries: seq<Installation>, appId: int)
    ensures var r := NewEntries(found, entries, appId);
      && (forall y :: y in r ==> y in entries && y.appId == appId)
      && (forall y :: y in entries && y.appId == appId ==> HasId(found, y.id) || y in r)
  {
    if entries == [] {
    } else {
      NewEntriesFacts(found, entries[1..], appId);
      assert entries == [entries[0]] + entries[1..];
    }
  }

  lemma AddPageFacts(found: seq<Installation>, entries: seq<Installation>, appId: int)
    ensures var r := AddPage(found, entries, appId);
      && (DistinctIds(found) ==> DistinctIds(r))
      && (forall y :: y in r ==> y in found || (y in entries && y.appId == appId))
      && (forall id :: HasId(found, id) ==> HasId(r, id))
      && (forall y :: y in entries && y.appId == appId ==> HasId(r, y.id))
  {
    var added := NewEntries(found, entries, appId);
    NewEntriesFacts(found, entries, appId);
    PutAllFacts(found, added);
    forall y | y in entries && y.appId == appId ensures HasId(PutAll(found, added), y.id) {
      if y in added {
        var k :| 0 <= k < |added| && added[k] == y;
        assert HasId(added, y.id);
      }
    }
  }

  /** One of the pages lists the entry. */
  ghost predicate Listed(pages: seq<seq<Installation>>, y: Installation) {
    exists i :: 0 <= i < |pages| && y in pages[i]
  }

  /** The verified list: distinct ids, only entries GitHub listed for this app, and none of their ids missing. */
  lemma {:induction false} CollectedIsVerified(pages: seq<seq<Installation>>, appId: int)
    ensures var r := Collected(pages, appId);
      && DistinctIds(r)
      && (forall y :: y in r ==> y.appId == appId && Listed(pages, y))
      && (forall y :: Listed(pages, y) && y.appId == appId ==> HasId(r, y.id))
  {
    if pages == [] {
    } else {
      var init, last := pages[..|pages| - 1], pages[|pages| - 1];
      CollectedIsVerified(init, appId);
      AddPageFacts(Collected(init, appId), last, appId);
      forall y ensures Listed(pages, y) <==> Listed(init, y) || y in last {
        if i :| 0 <= i < |init| && y in init[i] { assert pages[i] == init[i]; }
        if i :| 0 <= i < |pages| && y in pages[i] { assert i < |init| ==> pages[i] == init[i]; }
        assert last == pages[|pages| - 1];
      }
    }
  }

  /** The pages are GitHub's first answers, each but possibly the last one linking to the next. */
  ghost predicate Followed(answers: nat -> Answer, pages: seq<seq<Installation>>) {
    && (forall i :: 0 <= i < |pages| ==> answers(i).Page? && answers(i).entries == pages[i])
    && (forall i :: 0 <= i < |pages| - 1 ==> answers(i).Page? && answers(i).hasNext)
  }

  /**
   * The paging loop: follows the next links for at most ten pages; the first
   * failed page fails the whole verification.
   */
  method InstallationsOf(answers: nat -> Answer, appId: int)
    returns (r: Option<seq<Installation>>, pages: seq<seq<Installation>>)
    ensures |pages| <= MAX_INSTALLATION_PAGES && Followed(answers, pages)
    ensures r.None? ==>
      && |pages| < MAX_INSTALLATION_PAGES && answers(|pages|).Failed?
      && (pages != [] ==> answers(|pages| - 1).hasNext)
    ensures r.Some? ==>
      && r.value == Collected(pages, appId) && pages != []
      && (|pages| == MAX_INSTALLATION_PAGES || !answers(|pages| - 1).hasNext)
  {
    var found: seq<Installation> := [];
    pages := [];
    while |pages| < MAX_INSTALLATION_PAGES
      invariant |pages| <= MAX_INSTALLATION_PAGES && Followed(answers, pages)
      invariant pages != [] ==> answers(|pages| - 1).hasNext
      invariant found == Collected(pages, appId)
      decreases MAX_INSTALLATION_PAGES - |pages|
    {
      var answer := answers(|pages|);
      if answer.Failed? { return None, pages; }
      found := AddPage(found, answer.entries, appId);
      assert (pages + [answer.entries])[..|pages|] == pages;
      pages := pages + [answer.entries];
      if !answer.hasNext { return Some(found), pages; }
    }
    r := Some(found);
  }

  datatype Pick = NotAccessible | Several | Only(id: nat)

  /** A claimed id must be verified; without a claim, one is taken and several are offered. */
  function PickInstallation(verified: seq<Installation>, claimed: Option<nat>): (p: Pick)
    ensures p.Only? ==> HasId(verified, p.id) && (claimed.Some? ==> p.id == claimed.value)
    ensures claimed.Some? ==> (p.Only? <==> HasId(verified, claimed.value))
    ensures p.Several? <==> claimed.None? && |verified| > 1
    ensures claimed.None? ==> (p.Only? <==> |verified| == 1)
  {
    if claimed.Some? then if HasId(verified, claimed.value) then Only(claimed.value) else NotAccessible
    else if verified == [] then NotAccessible
    else if |verified| == 1 then assert verified[0].id == verified[0].id; Only(verified[0].id)
    else Several
  }

  /** Offered before: by the collation rank of the lower-cased login, then by id. */
  predicate Before(rank: string -> int, a: Installation, b: Installation) {
    rank(a.login) < rank(b.login) || (rank(a.login) == rank(b.login) && a.id < b.id)
  }

  ghost predicate Sorted(rank: string -> int, s: seq<Installation>) {
    forall i, j :: 0 <= i < j < |s| ==> Before(rank, s[i], s[j])
  }

  function Unique(s: seq<Installation>): seq<Installation> {
    if s == [] then []
    else
      var rest := Unique(s[..|s| - 1]);
      if HasId(rest, s[|s| - 1].id) then rest else rest + [s[|s| - 1]]
  }

  function InsertSorted(rank: string -> int, x: Installation, s: seq<Installation>): seq<Installation> {
    if s == [] || Before(rank, x, s[0]) then [x] + s else [s[0]] + InsertSorted(rank, x, s[1..])
  }

  function Sort(rank: string -> int, s: seq<Installation>): seq<Installation> {
    if s == [] then [] else InsertSorted(rank, s[0], Sort(rank, s[1..]))
  }

  function Take(s: seq<Installation>, n: nat): seq<Installation> {
    if |s| <= n then s else s[..n]
  }

  /** The selection: first occurrences, sorted, at most 100. */
  function SelectionEntries(rank: string -> int, verified: seq<Installation>): seq<Installation> {
    Take(Sort(rank, Unique(verified)), MAX_CANDIDATES)
  }

  lemma {:induction false} UniqueFacts(s: seq<Installation>)
    ensures var r := Unique(s);
      && DistinctIds(r) && (forall y :: y in r ==> y in s) && (forall y :: y in s ==> HasId(r, y.id))
  {
    if s == [] {
    } else {
      var init, last := s[..|s| - 1], s[|s| - 1];
      UniqueFacts(init);
      var rest := Unique(init);
      assert s == init + [last];
      if !HasId(rest, last.id) {
        assert (rest + [last])[|rest|] == last;
        forall y | y in init ensures HasId(rest + [last], y.id) {
          var i :| 0 <= i < |rest| && rest[i].id == y.id;
          assert (rest + [last])[i].id == y.id;
        }
      }
    }
  }

  lemma {:induction false} InsertPermutes(rank: string -> int, x: Installation, s: seq<Installation>)
    ensures multiset(InsertSorted(rank, x, s)) == multiset(s) + multiset{x}
    ensures forall y :: y in InsertSorted(rank, x, s) ==> y == x || y in s
  {
    if s == [] {
    } else {
      assert s == [s[0]] + s[1..];
      if !Before(rank, x, s[0]) { InsertPermutes(rank, x, s[1..]); }
    }
  }

  lemma {:induction false} InsertSorts(rank: string -> int, x: Installation, s: seq<Installation>)
    requires Sorted(rank, s) && forall y :: y in s ==> y.id != x.id
    ensures Sorted(rank, InsertSorted(rank, x, s))
  {
    if s == [] {
    } else {
      if Before(rank, x, s[0]) {
        forall i | 0 <= i < |s| ensures Before(rank, x, s[i]) {
          assert i > 0 ==> Before(rank, s[0], s[i]);
        }
      } else {
        var rest := s[1..];
        InsertSorts(rank, x, rest);
        InsertPermutes(rank, x, rest);
        var tail := InsertSorted(rank, x, rest);
        forall i | 0 <= i < |tail| ensures Before(rank, s[0], tail[i]) {
          assert tail[i] in tail;
          if tail[i] != x {
            assert tail[i] in rest;
            var j :| 0 <= j < |rest| && rest[j] == tail[i];
            assert s[j + 1] == tail[i];
          }
        }
      }
    }
  }

  lemma {:induction false} SortFacts(rank: string -> int, s: seq<Installation>)
    requires DistinctIds(s)
    ensures Sorted(rank, Sort(rank, s)) && multiset(Sort(rank, s)) == multiset(s) && |Sort(rank, s)| == |s|
  {
    if s == [] {
    } else {
      assert s == [s[0]] + s[1..];
      SortFacts(rank, s[1..]);
      forall y | y in Sort(rank, s[1..]) ensures y.id != s[0].id {
        assert y in multiset(s[1..]);
        var i :| 0 <= i < |s[1..]| && s[1..][i] == y;
        assert s[i + 1] == y;
      }
      InsertSorts(rank, s[0], Sort(rank, s[1..]));
      InsertPermutes(rank, s[0], Sort(rank, s[1..]));
      assert |multiset(Sort(rank, s))| == |Sort(rank, s)|;
      assert |multiset(s)| == |s|;
    }
  }

  lemma SortKeepsIds(rank: string -> int, u: seq<Installation>)
    requires multiset(Sort(rank, u)) == multiset(u)
    ensures forall y :: y in Sort(rank, u) <==> y in u
    ensures forall id :: HasId(u, id) ==> HasId(Sort(rank, u), id)
  {
    var sorted := Sort(rank, u);
    forall y ensures y in sorted <==> y in u {
      assert y in multiset(sorted) <==> y in multiset(u);
    }
    forall id | HasId(u, id) ensures HasId(sorted, id) {
      var i :| 0 <= i < |u| && u[i].id == id;
      assert u[i] in sorted;
      var j :| 0 <= j < |sorted| && sorted[j] == u[i];
    }
  }

  lemma {:induction false} SameSetDistinct(a: seq<Installation>, b: seq<Installation>)
    requires DistinctIds(a) && |a| == |b| && multiset(a) == multiset(b)
    ensures DistinctIds(b)
  {
    forall i, j | 0 <= i < j < |b| ensures b[i].id != b[j].id {
      if b[i].id == b[j].id {
        assert b[i] in multiset(b) && b[j] in multiset(b);
        assert b[i] in a && b[j] in a;
        assert b[i] == b[j];
        assert b == b[..i] + [b[i]] + b[i + 1..j] + [b[j]] + b[j + 1..];
        assert multiset(b)[b[i]] >= 2;
        OnceInDistinct(a, b[i]);
      }
    }
  }

  lemma {:induction false} OnceInDistinct(a: seq<Installation>, x: Installation)
    requires DistinctIds(a)
    ensures multiset(a)[x] <= 1
  {
    if a == [] {
    } else {
      assert a == [a[0]] + a[1..];
      OnceInDistinct(a[1..], x);
      forall i | 0 <= i < |a[1..]| ensures a[1..][i] != a[0] {
        assert a[1..][i] == a[i + 1];
      }
    }
  }

  /**
   * The offer is faithful to the verification: only verified entries, each id
   * once, in order; a cut drops only what sorts after everything offered, and
   * without a cut every verified id is offered.
   */
  lemma SelectionIsFaithful(rank: string -> int, verified: seq<Installation>)
    ensures var r := SelectionEntries(rank, verified);
      && Sorted(rank, r) && DistinctIds(r)
      && (|r| == if |Unique(verified)| <= MAX_CANDIDATES then |Unique(verified)| else MAX_CANDIDATES)
      && (forall y :: y in r ==> y in verified)
      && (forall x, y :: x in r && y in Unique(verified) && y !in r ==> Before(rank, x, y))
      && (|Unique(verified)| <= MAX_CANDIDATES ==> forall y :: y in verified ==> HasId(r, y.id))
  {
    var u := Unique(verified);
    UniqueFacts(verified);
    SortFacts(rank, u);
    SortKeepsIds(rank, u);
    SameSetDistinct(u, Sort(rank, u));
    CutDropsLast(rank, Sort(rank, u));
  }

  lemma CutDropsLast(rank: string -> int, s: seq<Installation>)
    requires Sorted(rank, s)
    ensures forall x, y :: x in Take(s, MAX_CANDIDATES) && y in s && y !in Take(s, MAX_CANDIDATES) ==>
      Before(rank, x, y)
  {
    var r := Take(s, MAX_CANDIDATES);
    forall x, y | x in r && y in s && y !in r ensures Before(rank, x, y) {
      var i :| 0 <= i < |r| && r[i] == x;
      var j :| 0 <= j < |s| && s[j] == y;
      assert j >= |r|;
    }
  }

  /** The two-step construction of the source: a map filled in a loop, then sorted and sliced. */
  method BuildSelection(rank: string -> int, verified: seq<Installation>) returns (entries: seq<Installation>)
    ensures entries == SelectionEntries(rank, verified)
  {
    var unique: seq<Installation> := [];
    for n := 0 to |verified|
      invariant unique == Unique(verified[..n])
    {
      assert verified[..n + 1][..n] == verified[..n];
      if !HasId(unique, verified[n].id) {
        unique := unique + [verified[n]];
      }
    }
    assert verified[..|verified|] == verified;
    entries := Take(Sort(rank, unique), MAX_CANDIDATES);
  }
}
