/**
 * The array operations the client code applies to lists it holds in state:
 * `filter` with a predicate, `reverse` (as a value and in place), and the
 * ordering a query's `order(..)` asks of the database, as a sort by an
 * integer key.
 */
module Lists {

  /** `s.filter(keep)`: the elements that pass, in their order. */
  function Filter<T(!new)>(s: seq<T>, keep: T -> bool): (r: seq<T>)
    ensures |r| <= |s|
    ensures forall x :: x in r <==> x in s && keep(x)
    ensures forall k :: 0 <= k < |r| ==> keep(r[k])
  {
    if s == [] then []
    else
      var rest := Filter(s[1..], keep);
      assert forall x :: x in s <==> x == s[0] || x in s[1..];
      if keep(s[0]) then [s[0]] + rest else rest
  }

  /** Filtering works piece by piece, so it keeps the relative order of what passes. */
  lemma {:induction false} FilterAppend<T(!new)>(a: seq<T>, b: seq<T>, keep: T -> bool)
    ensures Filter(a + b, keep) == Filter(a, keep) + Filter(b, keep)
  {
    if a == [] {
      assert a + b == b;
    } else {
      assert (a + b)[0] == a[0];
      assert (a + b)[1..] == a[1..] + b;
      FilterAppend(a[1..], b, keep);
    }
  }

  /** Filtering keeps the relative order of what passes: of two kept
      elements, the earlier in the input is the earlier in the output. */
  lemma {:induction false} FilterKeepsOrder<T(!new)>(s: seq<T>, keep: T -> bool, p: nat, q: nat)
    requires p < q < |s| && keep(s[p]) && keep(s[q])
    ensures exists i, j :: 0 <= i < j < |Filter(s, keep)| && Filter(s, keep)[i] == s[p] && Filter(s, keep)[j] == s[q]
  {
    var rest := Filter(s[1..], keep);
    if p == 0 {
      assert s[q] == s[1..][q - 1];
      assert s[q] in rest;
      var j :| 0 <= j < |rest| && rest[j] == s[q];
      assert Filter(s, keep) == [s[0]] + rest;
      assert Filter(s, keep)[0] == s[p] && Filter(s, keep)[j + 1] == s[q];
    } else {
      FilterKeepsOrder(s[1..], keep, p - 1, q - 1);
      var i, j :| 0 <= i < j < |rest| && rest[i] == s[1..][p - 1] && rest[j] == s[1..][q - 1];
      if keep(s[0]) {
        assert Filter(s, keep) == [s[0]] + rest;
        assert Filter(s, keep)[i + 1] == s[p] && Filter(s, keep)[j + 1] == s[q];
      } else {
        assert Filter(s, keep) == rest;
      }
    }
  }

  /** A list whose every element passes is kept whole. */
  lemma {:induction false} FilterKeepsAll<T(!new)>(s: seq<T>, keep: T -> bool)
    requires forall k :: 0 <= k < |s| ==> keep(s[k])
    ensures Filter(s, keep) == s
  {
    if s != [] {
      FilterKeepsAll(s[1..], keep);
    }
  }

  /** A list none of whose elements passes leaves nothing. */
  lemma {:induction false} FilterDropsAll<T(!new)>(s: seq<T>, keep: T -> bool)
    requires forall k :: 0 <= k < |s| ==> !keep(s[k])
    ensures Filter(s, keep) == []
  {
    if s != [] {
      FilterDropsAll(s[1..], keep);
    }
  }

  /** Filtering twice with the same predicate is filtering once. */
  lemma FilterIdempotent<T(!new)>(s: seq<T>, keep: T -> bool)
    ensures Filter(Filter(s, keep), keep) == Filter(s, keep)
  {
    FilterKeepsAll(Filter(s, keep), keep);
  }

  /** `s.reverse()`. */
  function Reverse<T>(s: seq<T>): (r: seq<T>)
    ensures |r| == |s|
    ensures forall k :: 0 <= k < |s| ==> r[k] == s[|s| - 1 - k]
  {
    seq(|s|, k requires 0 <= k < |s| => s[|s| - 1 - k])
  }

  /** Reading a list from the last to the first swaps the order of any two of its elements. */
  lemma ReverseSwapsPair<T>(s: seq<T>, r: seq<T>, i: nat, j: nat)
    requires |r| == |s| && forall k :: 0 <= k < |s| ==> r[k] == s[|s| - 1 - k]
    requires i < j < |s|
    ensures exists i', j' :: 0 <= i' < j' < |r| && r[i'] == s[j] && r[j'] == s[i]
  {
    assert r[|s| - 1 - j] == s[j];
    assert r[|s| - 1 - i] == s[i];
  }

  /** Reversing twice gives the list back. */
  lemma ReverseTwice<T>(s: seq<T>)
    ensures Reverse(Reverse(s)) == s
  {
    assert forall k :: 0 <= k < |s| ==> Reverse(Reverse(s))[k] == s[k];
  }

  /** `s` is in ascending order of `key`. */
  predicate SortedBy<T>(s: seq<T>, key: T -> int) {
    forall i, j :: 0 <= i < j < |s| ==> key(s[i]) <= key(s[j])
  }

  /** `x` put into the sorted `s` after every element whose key is not greater. */
  function InsertBy<T>(x: T, s: seq<T>, key: T -> int): (r: seq<T>)
    requires SortedBy(s, key)
    ensures SortedBy(r, key) && multiset(r) == multiset(s) + multiset{x}
  {
    if s == [] then [x]
    else if key(x) < key(s[0]) then
      assert forall k :: 0 < k < |s| ==> key(s[0]) <= key(s[k]);
      [x] + s
    else
      var rest := InsertBy(x, s[1..], key);
      assert s == [s[0]] + s[1..];
      forall k | 0 <= k < |rest| ensures key(s[0]) <= key(rest[k]) {
        assert rest[k] in multiset(rest);
        if rest[k] != x {
          assert rest[k] in multiset(s[1..]);
          var j :| 0 <= j < |s[1..]| && s[1..][j] == rest[k];
          assert s[j + 1] == rest[k];
        }
      }
      [s[0]] + rest
  }

  /** The elements of `s` in ascending order of `key`, ties in their order in `s`. */
  function SortBy<T>(s: seq<T>, key: T -> int): (r: seq<T>)
    ensures SortedBy(r, key) && multiset(r) == multiset(s) && |r| == |s|
  {
    if s == [] then []
    else
      assert s == s[..|s| - 1] + [s[|s| - 1]];
      var r := InsertBy(s[|s| - 1], SortBy(s[..|s| - 1], key), key);
      assert |r| == |multiset(r)|;
      r
  }

  /** `a.reverse()`, which swaps the ends towards the middle. */
  method ReverseInPlace<T>(a: array<T>)
    modifies a
    ensures a[..] == Reverse(old(a[..]))
  {
    var n := a.Length;
    for i := 0 to n / 2
      invariant forall k :: 0 <= k < i ==> a[k] == old(a[n - 1 - k]) && a[n - 1 - k] == old(a[k])
      invariant forall k :: i <= k < n - i ==> a[k] == old(a[k])
    {
      a[i], a[n - 1 - i] := a[n - 1 - i], a[i];
    }
  }
}
