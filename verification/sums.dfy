/** The sum of an amount over a list, and over the elements whose key is
    a given value, with the facts the profit and
    report computations rest on: sums split over concatenation, ignore
    order, and a sum grouped by key adds up to the plain sum. */
module Sums {

  function SumBy<T>(s: seq<T>, amount: T -> int): int {
    if |s| == 0 then 0 else amount(s[0]) + SumBy(s[1..], amount)
  }

  /** The key of every element, in order. */
  function Keys<T>(s: seq<T>, key: T -> int): (r: seq<int>)
    ensures |r| == |s|
    ensures forall i :: 0 <= i < |s| ==> r[i] == key(s[i])
  {
    if |s| == 0 then [] else [key(s[0])] + Keys(s[1..], key)
  }

  /** Sum of `amount` over the elements whose `key` equals `d`. */
  function SumOn<T>(s: seq<T>, key: T -> int, amount: T -> int, d: int): int {
    if |s| == 0 then 0
    else (if key(s[0]) == d then amount(s[0]) else 0) + SumOn(s[1..], key, amount, d)
  }

  /** Σ over the keys `ds` of the per-key sums. */
  function SumOver<T>(ds: seq<int>, s: seq<T>, key: T -> int, amount: T -> int): int {
    if |ds| == 0 then 0 else SumOn(s, key, amount, ds[0]) + SumOver(ds[1..], s, key, amount)
  }

  ghost predicate Distinct(ds: seq<int>) {
    forall i, j :: 0 <= i < j < |ds| ==> ds[i] != ds[j]
  }

  lemma {:induction false} SumByAppend<T>(a: seq<T>, b: seq<T>, amount: T -> int)
    ensures SumBy(a + b, amount) == SumBy(a, amount) + SumBy(b, amount)
  {
    if |a| == 0 {
      assert a + b == b;
    } else {
      assert (a + b)[1..] == a[1..] + b;
      SumByAppend(a[1..], b, amount);
    }
  }

  /** Taking one summand out of the middle. */
  lemma SumByRemove<T>(b: seq<T>, k: nat, amount: T -> int)
    requires k < |b|
    ensures SumBy(b, amount) == amount(b[k]) + SumBy(b[..k] + b[k + 1..], amount)
  {
    assert b == b[..k] + ([b[k]] + b[k + 1..]);
    SumByAppend(b[..k], [b[k]] + b[k + 1..], amount);
    SumByAppend(b[..k], b[k + 1..], amount);
    assert ([b[k]] + b[k + 1..])[1..] == b[k + 1..];
  }

  lemma MultisetRemove<T>(b: seq<T>, k: nat)
    requires k < |b|
    ensures multiset(b[..k] + b[k + 1..]) == multiset(b) - multiset{b[k]}
  {
    assert b == b[..k] + [b[k]] + b[k + 1..];
  }

  /** Where a permutation of `a` holds the first element of `a`, and what is
      left of both once it is taken out. */
  lemma MatchFirst<T>(a: seq<T>, b: seq<T>) returns (k: nat)
    requires |a| > 0 && multiset(a) == multiset(b)
    ensures k < |b| && b[k] == a[0]
    ensures multiset(a[1..]) == multiset(b[..k] + b[k + 1..])
  {
    assert a[0] in multiset(a);
    assert a[0] in b;
    k :| 0 <= k < |b| && b[k] == a[0];
    MultisetRemove(a, 0);
    MultisetRemove(b, k);
    assert a[..0] + a[1..] == a[1..];
  }

  /** A sum does not depend on the order of the summands. */
  lemma {:induction false} SumByPermutation<T>(a: seq<T>, b: seq<T>, amount: T -> int)
    requires multiset(a) == multiset(b)
    ensures SumBy(a, amount) == SumBy(b, amount)
    decreases |a|
  {
    if |a| == 0 {
      assert |b| == |multiset(b)| == 0;
    } else {
      var k := MatchFirst(a, b);
      SumByPermutation(a[1..], b[..k] + b[k + 1..], amount);
      SumByRemove(b, k, amount);
    }
  }

  lemma {:induction false} SumOnSplit<T>(s: seq<T>, key: T -> int, amount: T -> int, d: int)
    requires |s| > 0
    ensures SumOn(s, key, amount, d) == SumOn([s[0]], key, amount, d) + SumOn(s[1..], key, amount, d)
  {
    assert [s[0]][1..] == [];
  }

  lemma {:induction false} SumOverNone<T>(ds: seq<int>, key: T -> int, amount: T -> int)
    ensures SumOver(ds, [], key, amount) == 0
  {
    if |ds| > 0 {
      SumOverNone(ds[1..], key, amount);
    }
  }

  lemma {:induction false} SumOverSplit<T>(ds: seq<int>, s: seq<T>, key: T -> int, amount: T -> int)
    requires |s| > 0
    ensures SumOver(ds, s, key, amount) == SumOver(ds, [s[0]], key, amount) + SumOver(ds, s[1..], key, amount)
  {
    if |ds| > 0 {
      SumOnSplit(s, key, amount, ds[0]);
      SumOverSplit(ds[1..], s, key, amount);
    }
  }

  lemma {:induction false} SumOverSingle<T>(ds: seq<int>, x: T, key: T -> int, amount: T -> int)
    requires Distinct(ds)
    ensures SumOver(ds, [x], key, amount) == if key(x) in ds then amount(x) else 0
  {
    if |ds| > 0 {
      assert Distinct(ds[1..]) by {
        forall i, j | 0 <= i < j < |ds[1..]| ensures ds[1..][i] != ds[1..][j] {
          assert ds[1..][i] == ds[i + 1] && ds[1..][j] == ds[j + 1];
        }
      }
      SumOverSingle(ds[1..], x, key, amount);
      assert key(x) in ds <==> key(x) == ds[0] || key(x) in ds[1..] by {
        assert ds == [ds[0]] + ds[1..];
      }
      assert [x][1..] == [];
      assert SumOn([x], key, amount, ds[0]) == if key(x) == ds[0] then amount(x) else 0;
      if key(x) == ds[0] {
        assert key(x) !in ds[1..] by {
          forall k | 0 <= k < |ds[1..]| ensures ds[1..][k] != key(x) {
            assert ds[1..][k] == ds[k + 1];
          }
        }
      }
    }
  }

  /** Grouping by key and summing the groups gives the plain sum, provided
      every element's key is listed once in `ds`. */
  lemma {:induction false} SumOverKeys<T>(ds: seq<int>, s: seq<T>, key: T -> int, amount: T -> int)
    requires Distinct(ds)
    requires forall i :: 0 <= i < |s| ==> key(s[i]) in ds
    ensures SumOver(ds, s, key, amount) == SumBy(s, amount)
  {
    if |s| == 0 {
      SumOverNone(ds, key, amount);
    } else {
      SumOverSplit(ds, s, key, amount);
      SumOverSingle(ds, s[0], key, amount);
      SumOverKeys(ds, s[1..], key, amount);
    }
  }
}
