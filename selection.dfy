/**
 * `ORDER BY <time> ASC LIMIT n` over rows identified by their position:
 * candidates are sorted by time, ties by position (insertion order), and the
 * first `n` are taken.
 */
module Selection {

  /** A row that may be selected: its ordering time and its position in its table. */
  datatype Candidate = Candidate(stamp: int, position: nat)

  /** The order of the query: earlier time first, then earlier position. */
  predicate Before(a: Candidate, b: Candidate) {
    a.stamp < b.stamp || (a.stamp == b.stamp && a.position < b.position)
  }

  predicate Ordered(s: seq<Candidate>) {
    forall i, j :: 0 <= i < j < |s| ==> Before(s[i], s[j])
  }

  predicate Distinct(s: seq<Candidate>) {
    forall i, j :: 0 <= i < j < |s| ==> s[i] != s[j]
  }

  function Insert(c: Candidate, s: seq<Candidate>): seq<Candidate> {
    if s == [] then [c]
    else if Before(s[0], c) then [s[0]] + Insert(c, s[1..])
    else [c] + s
  }

  function Sort(s: seq<Candidate>): seq<Candidate> {
    if s == [] then [] else Insert(s[0], Sort(s[1..]))
  }

  lemma {:induction false} InsertMembers(c: Candidate, s: seq<Candidate>)
    ensures multiset(Insert(c, s)) == multiset(s) + multiset{c}
  {
    if s != [] && Before(s[0], c) {
      assert s == [s[0]] + s[1..];
      InsertMembers(c, s[1..]);
    }
  }

  /** A candidate placed before every element of an ordered list keeps it ordered. */
  lemma PrependOrdered(x: Candidate, r: seq<Candidate>)
    requires Ordered(r)
    requires forall y :: y in multiset(r) ==> Before(x, y)
    ensures Ordered([x] + r)
  {
    forall i, j | 0 <= i < j < |[x] + r| ensures Before(([x] + r)[i], ([x] + r)[j]) {
      assert ([x] + r)[j] == r[j - 1];
      assert r[j - 1] in multiset(r);
      if i > 0 {
        assert ([x] + r)[i] == r[i - 1];
      }
    }
  }

  lemma {:induction false} InsertSpec(c: Candidate, s: seq<Candidate>)
    requires Ordered(s) && c !in s
    ensures Ordered(Insert(c, s))
    ensures multiset(Insert(c, s)) == multiset(s) + multiset{c}
  {
    InsertMembers(c, s);
    if s != [] && Before(s[0], c) {
      var tail := s[1..];
      assert Ordered(tail) by {
        forall i, j | 0 <= i < j < |tail| ensures Before(tail[i], tail[j]) {
          assert tail[i] == s[i + 1] && tail[j] == s[j + 1];
        }
      }
      assert c !in tail;
      InsertSpec(c, tail);
      InsertMembers(c, tail);
      var r := Insert(c, tail);
      forall y | y in multiset(r) ensures Before(s[0], y) {
        if y != c {
          assert y in multiset(tail);
          var j :| 0 <= j < |tail| && tail[j] == y;
          assert s[j + 1] == y;
        }
      }
      PrependOrdered(s[0], r);
    } else if s != [] {
      assert s[0] != c;
      forall y | y in multiset(s) ensures Before(c, y) {
        var j :| 0 <= j < |s| && s[j] == y;
        if j > 0 {
          assert Before(s[0], s[j]);
        }
      }
      PrependOrdered(c, s);
    }
  }

  /** Sorting distinct candidates gives them in query order, each exactly once. */
  lemma {:induction false} SortSpec(s: seq<Candidate>)
    requires Distinct(s)
    ensures Ordered(Sort(s))
    ensures multiset(Sort(s)) == multiset(s)
  {
    if s != [] {
      var tail := s[1..];
      assert s == [s[0]] + tail;
      assert Distinct(tail) by {
        forall i, j | 0 <= i < j < |tail| ensures tail[i] != tail[j] {
          assert tail[i] == s[i + 1] && tail[j] == s[j + 1];
        }
      }
      SortSpec(tail);
      assert s[0] !in tail by {
        forall j | 0 <= j < |tail| ensures tail[j] != s[0] {
          assert tail[j] == s[j + 1];
        }
      }
      assert s[0] !in multiset(Sort(tail));
      InsertSpec(s[0], Sort(tail));
    }
  }

  function Min(a: int, b: int): int { if a < b then a else b }

  /** The first `limit` candidates in query order. */
  function Oldest(cands: seq<Candidate>, limit: nat): seq<Candidate>
    requires Distinct(cands)
  {
    SortSpec(cands);
    var sorted := Sort(cands);
    assert |sorted| == |multiset(cands)| == |cands|;
    sorted[..Min(limit, |cands|)]
  }

  /**
   * The selection has `min(limit, |cands|)` rows, all of them candidates, in
   * query order, and every candidate left out comes after every one selected.
   */
  lemma OldestSpec(cands: seq<Candidate>, limit: nat)
    requires Distinct(cands)
    ensures var r := Oldest(cands, limit);
            && |r| == Min(limit, |cands|)
            && Ordered(r)
            && (forall x :: x in r ==> x in cands)
            && (forall x, y :: x in r && y in cands && y !in r ==> Before(x, y))
            && (limit >= |cands| ==> multiset(r) == multiset(cands))
  {
    SortSpec(cands);
    var sorted := Sort(cands);
    var k := Min(limit, |cands|);
    assert |sorted| == |multiset(cands)| == |cands|;
    var r := sorted[..k];
    assert r == Oldest(cands, limit);
    forall x | x in r ensures x in cands {
      assert x in multiset(sorted);
    }
    forall x, y | x in r && y in cands && y !in r ensures Before(x, y) {
      var i :| 0 <= i < k && r[i] == x;
      assert y in multiset(sorted);
      var j :| 0 <= j < |sorted| && sorted[j] == y;
      assert j >= k;
      assert sorted[i] == x;
    }
    if limit >= |cands| {
      assert r == sorted;
    }
  }
}
