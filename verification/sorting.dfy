/** Database listings sorted by an integer key, and the first `n` of them.
    The database leaves the order of equal keys unspecified; the model fixes
    one (a stable insertion sort), and no property below depends on it. */
module Sorting {
  import opened Tables

  ghost predicate SortedBy<T>(s: seq<T>, key: T -> int) {
    forall i, j :: 0 <= i < j < |s| ==> key(s[i]) <= key(s[j])
  }

  ghost predicate SortedDescBy<T>(s: seq<T>, key: T -> int) {
    forall i, j :: 0 <= i < j < |s| ==> key(s[i]) >= key(s[j])
  }

  function InsertSorted<T(==)>(x: T, s: seq<T>, key: T -> int): (r: seq<T>)
    requires SortedBy(s, key)
    ensures SortedBy(r, key)
    ensures multiset(r) == multiset(s) + multiset{x}
    ensures |r| == |s| + 1
    ensures r[0] == x || (|s| > 0 && r[0] == s[0])
  {
    if |s| == 0 then [x]
    else if key(x) <= key(s[0]) then [x] + s
    else
      var tail := InsertSorted(x, s[1..], key);
      assert s == [s[0]] + s[1..];
      assert key(s[0]) <= key(tail[0]);
      var r := [s[0]] + tail;
      assert SortedBy(r, key) by {
        forall i, j | 0 <= i < j < |r| ensures key(r[i]) <= key(r[j]) {
          if i == 0 {
            assert key(tail[0]) <= key(tail[j - 1]) || j == 1;
          }
        }
      }
      r
  }

  /** Ascending order on `key`. */
  function SortBy<T(==)>(s: seq<T>, key: T -> int): (r: seq<T>)
    ensures SortedBy(r, key)
    ensures multiset(r) == multiset(s)
    ensures |r| == |s|
  {
    if |s| == 0 then []
    else
      assert s == [s[0]] + s[1..];
      InsertSorted(s[0], SortBy(s[1..], key), key)
  }

  function Negated<T>(key: T -> int): T -> int {
    (x: T) => -key(x)
  }

  /** Descending order on `key`. */
  function SortDescBy<T(==)>(s: seq<T>, key: T -> int): (r: seq<T>)
    ensures SortedDescBy(r, key)
    ensures multiset(r) == multiset(s)
    ensures |r| == |s|
  {
    var r := SortBy(s, Negated(key));
    assert forall i, j :: 0 <= i < j < |r| ==> Negated(key)(r[i]) <= Negated(key)(r[j]);
    r
  }

  function CreatedAt<T>(row: Row<T>): int {
    row.createdAt
  }

  /** The `n` rows with the latest creation stamps (all of them when there
      are fewer), newest first. */
  function Latest<T(==)>(rows: seq<Row<T>>, n: nat): (r: seq<Row<T>>)
    ensures |r| == if |rows| < n then |rows| else n
    ensures SortedDescBy(r, CreatedAt)
    ensures multiset(r) <= multiset(rows)
    ensures |rows| <= n ==> multiset(r) == multiset(rows)
    ensures forall y, x :: y in multiset(rows) - multiset(r) && x in r ==> y.createdAt <= x.createdAt
  {
    var sorted := SortDescBy(rows, CreatedAt);
    var k := if |rows| < n then |rows| else n;
    TakeNewest(sorted, rows, k);
    sorted[..k]
  }

  /** The first `k` rows of a newest-first permutation of `rows`. */
  lemma TakeNewest<T>(sorted: seq<Row<T>>, rows: seq<Row<T>>, k: nat)
    requires SortedDescBy(sorted, CreatedAt) && multiset(sorted) == multiset(rows) && k <= |sorted|
    ensures SortedDescBy(sorted[..k], CreatedAt)
    ensures multiset(sorted[..k]) <= multiset(rows)
    ensures k == |sorted| ==> multiset(sorted[..k]) == multiset(rows)
    ensures forall y, x :: y in multiset(rows) - multiset(sorted[..k]) && x in sorted[..k] ==> y.createdAt <= x.createdAt
  {
    assert sorted == sorted[..k] + sorted[k..];
    assert multiset(rows) == multiset(sorted[..k]) + multiset(sorted[k..]);
    assert multiset(rows) - multiset(sorted[..k]) == multiset(sorted[k..]);
    SplitIsOrdered(sorted, k);
  }

  /** In a newest-first listing, nothing after position `k` is newer than
      anything before it. */
  lemma SplitIsOrdered<T>(sorted: seq<Row<T>>, k: nat)
    requires SortedDescBy(sorted, CreatedAt) && k <= |sorted|
    ensures forall y, x :: y in multiset(sorted[k..]) && x in sorted[..k] ==> y.createdAt <= x.createdAt
  {
    forall y, x | y in multiset(sorted[k..]) && x in sorted[..k]
      ensures y.createdAt <= x.createdAt
    {
      var b :| 0 <= b < |sorted[k..]| && sorted[k..][b] == y;
      var a :| 0 <= a < k && sorted[..k][a] == x;
      assert CreatedAt(sorted[a]) >= CreatedAt(sorted[k + b]);
    }
  }

  ghost predicate Increasing(s: seq<int>) {
    forall i, j :: 0 <= i < j < |s| ==> s[i] < s[j]
  }

  /** Adds `x` to an increasing list of distinct values unless present. */
  function InsertUnique(x: int, s: seq<int>): (r: seq<int>)
    requires Increasing(s)
    ensures Increasing(r)
    ensures forall d :: d in r <==> d == x || d in s
  {
    if |s| == 0 then [x]
    else if x < s[0] then [x] + s
    else if x == s[0] then s
    else
      var tail := InsertUnique(x, s[1..]);
      assert s == [s[0]] + s[1..];
      assert forall k :: 0 <= k < |tail| ==> s[0] < tail[k] by {
        forall k | 0 <= k < |tail| ensures s[0] < tail[k] {
          assert tail[k] in tail;
        }
      }
      [s[0]] + tail
  }

  /** The distinct values of `xs`, each once, in ascending order. */
  function DistinctSorted(xs: seq<int>): (r: seq<int>)
    ensures Increasing(r)
    ensures forall d :: d in r <==> d in xs
  {
    if |xs| == 0 then []
    else
      assert xs == [xs[0]] + xs[1..];
      InsertUnique(xs[0], DistinctSorted(xs[1..]))
  }
}
