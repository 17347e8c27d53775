/** Row lookup, selection and deletion in the tables: the ownership check
    of the `findOne` methods, the `findFirst`/`findUnique` lookups and
    `findMany({ where })` filters of the services, and `delete`. */
module Lookup {
  import opened Outcomes

  /** Look row `id` up for `caller`, as every service's `findOne` does:
      NotFound when the row does not exist, Forbidden when `owner` says
      another user owns it, otherwise the stored row. */
  function FindOwned<K(==), T, U(==)>(table: map<K, T>, id: K, caller: U, owner: T -> U): (r: Result<T>)
    ensures r == Failure(NotFound) <==> id !in table
    ensures r == Failure(Forbidden) <==> id in table && owner(table[id]) != caller
    ensures r.Success? <==> id in table && owner(table[id]) == caller
    ensures r.Success? ==> r.value == table[id]
  {
    if id !in table then Failure(NotFound)
    else if owner(table[id]) != caller then Failure(Forbidden)
    else Success(table[id])
  }

  /** The position of the first row satisfying `p`, or -1 when none does. */
  function FirstIndex<T>(s: seq<T>, p: T -> bool): (i: int)
    ensures -1 <= i < |s|
    ensures i >= 0 ==> p(s[i]) && forall j :: 0 <= j < i ==> !p(s[j])
    ensures i == -1 <==> forall j :: 0 <= j < |s| ==> !p(s[j])
  {
    if s == [] then -1
    else if p(s[0]) then 0
    else
      var k := FirstIndex(s[1..], p);
      if k == -1 then -1 else k + 1
  }

  /** The rows of `s` satisfying `p`, in stored order. */
  function Filter<T>(s: seq<T>, p: T -> bool): seq<T> {
    if s == [] then []
    else (if p(s[0]) then [s[0]] else []) + Filter(s[1..], p)
  }

  /** A filter keeps every qualifying row as often as it is stored, and no
      other row. */
  lemma {:induction false} FilterCount<T(!new)>(s: seq<T>, p: T -> bool)
    ensures forall x :: multiset(Filter(s, p))[x] == if p(x) then multiset(s)[x] else 0
    ensures forall x :: x in Filter(s, p) <==> x in s && p(x)
  {
    if s != [] {
      assert s == [s[0]] + s[1..];
      FilterCount(s[1..], p);
    }
    assert forall x :: x in Filter(s, p) <==> multiset(Filter(s, p))[x] > 0;
  }

  /** Filtering commutes with concatenation: rows are selected one by one
      and keep their stored order. */
  lemma {:induction false} FilterAppend<T>(a: seq<T>, b: seq<T>, p: T -> bool)
    ensures Filter(a + b, p) == Filter(a, p) + Filter(b, p)
  {
    if a == [] {
      assert a + b == b;
    } else {
      var head := if p(a[0]) then [a[0]] else [];
      assert (a + b)[0] == a[0] && (a + b)[1..] == a[1..] + b;
      assert Filter(a + b, p) == head + Filter(a[1..] + b, p);
      FilterAppend(a[1..], b, p);
      assert head + (Filter(a[1..], p) + Filter(b, p)) == (head + Filter(a[1..], p)) + Filter(b, p);
    }
  }

  /** `s` without the row at `i`, the others in their order. */
  function RemoveAt<T>(s: seq<T>, i: nat): (r: seq<T>)
    requires i < |s|
    ensures |r| == |s| - 1
    ensures forall j :: 0 <= j < i ==> r[j] == s[j]
    ensures forall j :: i <= j < |r| ==> r[j] == s[j + 1]
  {
    s[..i] + s[i + 1..]
  }
}
