/** `Array.prototype.filter`, the one list operation the stores and pages all use to drop
    entries, with the facts that make it an order-preserving selection. */
module Seqs {

  /** `xs.filter(p)`. */
  function Filter<T(!new)>(xs: seq<T>, p: T -> bool): (r: seq<T>)
    ensures |r| <= |xs|
    ensures forall x :: x in r <==> x in xs && p(x)
  {
    if xs == [] then [] else (if p(xs[0]) then [xs[0]] else []) + Filter(xs[1..], p)
  }

  /** Filtering distributes over concatenation: survivors keep their relative order. */
  lemma {:induction false} FilterAppend<T(!new)>(xs: seq<T>, ys: seq<T>, p: T -> bool)
    ensures Filter(xs + ys, p) == Filter(xs, p) + Filter(ys, p)
  {
    if xs != [] {
      assert (xs + ys)[0] == xs[0];
      assert (xs + ys)[1..] == xs[1..] + ys;
      FilterAppend(xs[1..], ys, p);
    } else {
      assert xs + ys == ys;
    }
  }

  /** A filter that every element passes is the identity. */
  lemma {:induction false} FilterAll<T(!new)>(xs: seq<T>, p: T -> bool)
    requires forall x :: x in xs ==> p(x)
    ensures Filter(xs, p) == xs
  {
    if xs != [] {
      assert xs[0] in xs;
      assert forall x :: x in xs[1..] ==> x in xs;
      FilterAll(xs[1..], p);
    }
  }

  /** Filtering twice with the same test is filtering once. */
  lemma FilterIdempotent<T(!new)>(xs: seq<T>, p: T -> bool)
    ensures Filter(Filter(xs, p), p) == Filter(xs, p)
  {
    FilterAll(Filter(xs, p), p);
  }

  /** A filter that no element passes leaves nothing. */
  lemma FilterNone<T(!new)>(xs: seq<T>, p: T -> bool)
    requires forall x :: x in xs ==> !p(x)
    ensures Filter(xs, p) == []
  {
  }

  /** No element occurs twice. */
  predicate Distinct<T(==)>(xs: seq<T>) {
    forall i, j :: 0 <= i < j < |xs| ==> xs[i] != xs[j]
  }

  function Elements<T>(xs: seq<T>): set<T> {
    set x | x in xs
  }

  /** A filter of a list without repeats has no repeats. */
  lemma {:induction false} FilterDistinct<T(!new)>(xs: seq<T>, p: T -> bool)
    requires Distinct(xs)
    ensures Distinct(Filter(xs, p))
  {
    if xs != [] {
      FilterDistinct(xs[1..], p);
      var rest := Filter(xs[1..], p);
      assert xs[0] !in xs[1..];
      assert xs[0] !in rest;
    }
  }

  /** No two entries share a key. */
  ghost predicate KeysDistinct<T, K>(xs: seq<T>, key: T -> K) {
    forall i, j :: 0 <= i < j < |xs| ==> key(xs[i]) != key(xs[j])
  }

  /** A filter of a list whose keys are distinct has distinct keys. */
  lemma {:induction false} FilterKeysDistinct<T(!new), K>(xs: seq<T>, p: T -> bool, key: T -> K)
    requires KeysDistinct(xs, key)
    ensures KeysDistinct(Filter(xs, p), key)
  {
    if xs != [] {
      var tail := xs[1..];
      assert KeysDistinct(tail, key) by {
        forall i, j | 0 <= i < j < |tail| ensures key(tail[i]) != key(tail[j]) {
          assert key(xs[i + 1]) != key(xs[j + 1]);
        }
      }
      FilterKeysDistinct(tail, p, key);
      var rest := Filter(tail, p);
      var head := if p(xs[0]) then [xs[0]] else [];
      assert Filter(xs, p) == head + rest;
      forall y | y in rest ensures key(y) != key(xs[0]) {
        var k :| 0 <= k < |tail| && tail[k] == y;
        assert key(xs[0]) != key(xs[k + 1]);
      }
      KeysDistinctCons(head, rest, key);
    }
  }

  /** Putting at most one entry in front of a list with distinct keys, with a key none of
      them has, keeps the keys distinct. */
  lemma KeysDistinctCons<T, K>(head: seq<T>, rest: seq<T>, key: T -> K)
    requires |head| <= 1 && KeysDistinct(rest, key)
    requires forall y :: y in rest ==> forall x :: x in head ==> key(y) != key(x)
    ensures KeysDistinct(head + rest, key)
  {
    var r := head + rest;
    forall i, j | 0 <= i < j < |r| ensures key(r[i]) != key(r[j]) {
      if i < |head| {
        assert r[j] == rest[j - |head|] && r[i] in head;
      } else {
        assert r[i] == rest[i - |head|] && r[j] == rest[j - |head|];
      }
    }
  }

  /** A list without repeats has as many distinct elements as entries. */
  lemma {:induction false} DistinctCard<T>(xs: seq<T>)
    requires Distinct(xs)
    ensures |Elements(xs)| == |xs|
  {
    if xs != [] {
      DistinctCard(xs[1..]);
      assert Elements(xs) == {xs[0]} + Elements(xs[1..]);
      assert xs[0] !in Elements(xs[1..]);
    }
  }

  /** For lists without repeats, one drawn from the other, equal length means the same
      elements. */
  lemma SameLengthSameElements<T>(sub: seq<T>, all: seq<T>)
    requires Distinct(sub) && Distinct(all)
    requires Elements(sub) <= Elements(all)
    ensures |sub| == |all| <==> Elements(all) <= Elements(sub)
  {
    DistinctCard(sub);
    DistinctCard(all);
    var extra := Elements(all) - Elements(sub);
    assert Elements(all) == Elements(sub) + extra;
    assert Elements(sub) !! extra;
    assert |Elements(all)| == |Elements(sub)| + |extra|;
  }
}
