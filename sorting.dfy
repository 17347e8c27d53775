/** Ascending ordering of rows by an integer key: the `orderBy ... 'asc'`
    of the message and leaderboard queries. The contract fixes the order of
    rows with different keys only; rows with equal keys may come in any
    order, as in the database. */
module Sorting {

  /** `s` is in ascending order of `key`. */
  ghost predicate SortedBy<T>(s: seq<T>, key: T -> int) {
    forall i, j :: 0 <= i < j < |s| ==> key(s[i]) <= key(s[j])
  }

  /** `[a] + s` is sorted when `s` is and `a` is no larger than its head. */
  lemma ConsSorted<T>(a: T, s: seq<T>, key: T -> int)
    requires SortedBy(s, key) && (s != [] ==> key(a) <= key(s[0]))
    ensures SortedBy([a] + s, key)
  {
    var r := [a] + s;
    forall i, j | 0 <= i < j < |r| ensures key(r[i]) <= key(r[j]) {
      if i > 0 {
        assert r[i] == s[i - 1] && r[j] == s[j - 1];
      } else {
        assert r[j] == s[j - 1];
      }
    }
  }

  /** `s` with `x` inserted before the first element whose key is not
      smaller than `x`'s: exactly one element more. */
  function InsertBy<T>(x: T, s: seq<T>, key: T -> int): (r: seq<T>)
    ensures multiset(r) == multiset(s) + multiset{x}
    ensures |r| == |s| + 1
    ensures r[0] == x || (s != [] && r[0] == s[0])
  {
    if s == [] then [x]
    else if key(x) <= key(s[0]) then [x] + s
    else
      var rest := InsertBy(x, s[1..], key);
      assert s == [s[0]] + s[1..];
      [s[0]] + rest
  }

  /** Insertion into a sorted sequence keeps it sorted. */
  lemma {:induction false} InsertKeepsSorted<T>(x: T, s: seq<T>, key: T -> int)
    requires SortedBy(s, key)
    ensures SortedBy(InsertBy(x, s, key), key)
  {
    if s == [] {
    } else if key(x) <= key(s[0]) {
      ConsSorted(x, s, key);
    } else {
      InsertKeepsSorted(x, s[1..], key);
      ConsSorted(s[0], InsertBy(x, s[1..], key), key);
    }
  }

  /** `s` rearranged into ascending order of `key`. */
  function SortBy<T>(s: seq<T>, key: T -> int): (r: seq<T>)
    ensures SortedBy(r, key)
    ensures multiset(r) == multiset(s)
    ensures |r| == |s|
  {
    if s == [] then []
    else
      assert s == [s[0]] + s[1..];
      var rest := SortBy(s[1..], key);
      InsertKeepsSorted(s[0], rest, key);
      InsertBy(s[0], rest, key)
  }

  /** The `n` elements of `s` with the smallest keys, in ascending order of
      `key`, or all of `s` when it has no more than `n`: none more often
      than `s` holds it. */
  function Smallest<T(!new)>(s: seq<T>, key: T -> int, n: nat): (r: seq<T>)
    ensures |r| == if |s| <= n then |s| else n
    ensures SortedBy(r, key)
    ensures multiset(r) <= multiset(s)
    ensures |s| <= n ==> multiset(r) == multiset(s)
    ensures forall x :: x in r ==> x in s
  {
    var ranked := SortBy(s, key);
    var r := if |ranked| <= n then ranked else ranked[..n];
    assert ranked == r + ranked[|r|..];
    assert forall x :: x in r ==> x in multiset(ranked);
    r
  }

  /** In a sorted sequence, an element that its first `n` entries hold
      fewer times than the whole sequence does is no smaller than any of
      them: a prefix of a sorted sequence keeps the smallest keys. */
  lemma PrefixKeepsSmallest<T(!new)>(ranked: seq<T>, key: T -> int, n: nat, f: T)
    requires SortedBy(ranked, key) && n <= |ranked|
    requires multiset(ranked[..n])[f] < multiset(ranked)[f]
    ensures forall i :: 0 <= i < n ==> key(ranked[i]) <= key(f)
  {
    var rest := ranked[n..];
    assert ranked == ranked[..n] + rest;
    assert f in rest by {
      assert multiset(rest)[f] > 0;
    }
    var j :| 0 <= j < |rest| && rest[j] == f;
    assert ranked[n + j] == f;
  }
}
