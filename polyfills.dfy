/**
 * Hand-written replacements for Array.prototype.forEach, map and filter
 * (myForEach, myMap, myFilter). The array a polyfill is called on (`this`)
 * is an `array<T>`; none of the methods below has a `modifies` clause, so
 * the verifier guarantees that the input array is left unchanged. Callbacks
 * are pure, total functions.
 */
module Polyfills {

  /** One invocation of the forEach callback: the element it was given and its index. */
  datatype Call<T> = Call(value: T, index: nat)

  /** The calls myForEach makes on `a`, one per loop round, built up as the loop does. */
  function ForEachCalls<T>(a: seq<T>): seq<Call<T>>
    decreases |a|
  {
    if a == [] then [] else ForEachCalls(a[..|a| - 1]) + [Call(a[|a| - 1], |a| - 1)]
  }

  /** The callback result myMap pushes in each round, built up as the loop does. */
  function MapSpec<T, U>(a: seq<T>, f: (T, nat) -> U): seq<U>
    decreases |a|
  {
    if a == [] then [] else MapSpec(a[..|a| - 1], f) + [f(a[|a| - 1], |a| - 1)]
  }

  /** The elements myFilter pushes: those the predicate accepts, built up as the loop does. */
  function FilterSpec<T>(a: seq<T>, p: T -> bool): seq<T>
    decreases |a|
  {
    if a == [] then []
    else if p(a[|a| - 1]) then FilterSpec(a[..|a| - 1], p) + [a[|a| - 1]]
    else FilterSpec(a[..|a| - 1], p)
  }

  /** myForEach calls the callback exactly once per index, in ascending order 0..length-1. */
  lemma {:induction false} ForEachCallsAt<T>(a: seq<T>)
    ensures |ForEachCalls(a)| == |a|
    ensures forall i :: 0 <= i < |a| ==> ForEachCalls(a)[i] == Call(a[i], i)
  {
    if a != [] {
      ForEachCallsAt(a[..|a| - 1]);
    }
  }

  /** myMap's result has the input's length and holds f(a[i], i) at every index i. */
  lemma {:induction false} MapSpecAt<T, U>(a: seq<T>, f: (T, nat) -> U)
    ensures |MapSpec(a, f)| == |a|
    ensures forall i :: 0 <= i < |a| ==> MapSpec(a, f)[i] == f(a[i], i)
  {
    if a != [] {
      MapSpecAt(a[..|a| - 1], f);
    }
  }

  /**
   * myFilter's result is the subsequence of `a` at exactly the indices whose
   * element the predicate accepts: `idx` lists those indices in strictly
   * ascending order, and the k-th result element is a[idx[k]].
   */
  lemma {:induction false} FilterIndices<T>(a: seq<T>, p: T -> bool) returns (idx: seq<nat>)
    ensures |idx| == |FilterSpec(a, p)|
    ensures forall k :: 0 <= k < |idx| ==> idx[k] < |a| && FilterSpec(a, p)[k] == a[idx[k]]
    ensures forall k, l :: 0 <= k < l < |idx| ==> idx[k] < idx[l]
    ensures forall i :: 0 <= i < |a| ==> (p(a[i]) <==> i in idx)
  {
    if a == [] {
      idx := [];
    } else {
      var n := |a| - 1;
      var front := a[..n];
      var prev := FilterIndices(front, p);
      assert forall k :: 0 <= k < |prev| ==> prev[k] < n;
      if p(a[n]) {
        idx := prev + [n];
      } else {
        idx := prev;
      }
      forall i | 0 <= i < |a|
        ensures p(a[i]) <==> i in idx
      {
        if i < n {
          assert a[i] == front[i];
        }
      }
    }
  }

  /** myFilter never grows the array. */
  lemma {:induction false} FilterLength<T>(a: seq<T>, p: T -> bool)
    ensures |FilterSpec(a, p)| <= |a|
  {
    if a != [] {
      FilterLength(a[..|a| - 1], p);
    }
  }

  /** A value is in myFilter's result exactly when it is in the input and the predicate accepts it. */
  lemma {:induction false} FilterMembership<T>(a: seq<T>, p: T -> bool)
    ensures forall x :: x in FilterSpec(a, p) <==> x in a && p(x)
  {
    var idx := FilterIndices(a, p);
    var r := FilterSpec(a, p);
    forall x
      ensures x in r <==> x in a && p(x)
    {
      if x in r {
        var k :| 0 <= k < |r| && r[k] == x;
        assert a[idx[k]] == x;
      }
      if x in a && p(x) {
        var i :| 0 <= i < |a| && a[i] == x;
        assert i in idx;
        var k :| 0 <= k < |idx| && idx[k] == i;
        assert r[k] == x;
      }
    }
  }

  /** With a predicate that accepts every element, myFilter yields a copy of the input. */
  lemma {:induction false} FilterAllAccepted<T>(a: seq<T>, p: T -> bool)
    requires forall k :: 0 <= k < |a| ==> p(a[k])
    ensures FilterSpec(a, p) == a
  {
    if a != [] {
      FilterAllAccepted(a[..|a| - 1], p);
    }
  }

  /** With a predicate that rejects every element, myFilter yields an empty array. */
  lemma {:induction false} FilterNoneAccepted<T>(a: seq<T>, p: T -> bool)
    requires forall k :: 0 <= k < |a| ==> !p(a[k])
    ensures FilterSpec(a, p) == []
  {
    if a != [] {
      FilterNoneAccepted(a[..|a| - 1], p);
    }
  }

  /** Array.prototype.myForEach: calls the callback on every (element, index); returns nothing. */
  method MyForEach<T>(a: array<T>) returns (calls: seq<Call<T>>)
    ensures calls == ForEachCalls(a[..])
    ensures |calls| == a.Length
    ensures forall i :: 0 <= i < a.Length ==> calls[i].value == a[i] && calls[i].index == i
  {
    calls := [];
    for i := 0 to a.Length
      invariant calls == ForEachCalls(a[..i])
    {
      assert a[..i + 1][..i] == a[..i];
      calls := calls + [Call(a[i], i)];
    }
    assert a[..a.Length] == a[..];
    ForEachCallsAt(a[..]);
  }

  /** Array.prototype.myMap: a new array holding userFn(this[i], i) for every index i. */
  method MyMap<T, U>(a: array<T>, userFn: (T, nat) -> U) returns (result: seq<U>)
    ensures result == MapSpec(a[..], userFn)
    ensures |result| == a.Length
    ensures forall i :: 0 <= i < a.Length ==> result[i] == userFn(a[i], i)
  {
    result := [];
    for i := 0 to a.Length
      invariant result == MapSpec(a[..i], userFn)
    {
      assert a[..i + 1][..i] == a[..i];
      var value := userFn(a[i], i);
      result := result + [value];
    }
    assert a[..a.Length] == a[..];
    MapSpecAt(a[..], userFn);
  }

  /** Array.prototype.myFilter: a new array of the elements userFn accepts, in their original order. */
  method MyFilter<T>(a: array<T>, userFn: T -> bool) returns (result: seq<T>)
    ensures result == FilterSpec(a[..], userFn)
    ensures |result| <= a.Length
    ensures forall k :: 0 <= k < |result| ==> userFn(result[k])
  {
    result := [];
    for i := 0 to a.Length
      invariant result == FilterSpec(a[..i], userFn)
    {
      assert a[..i + 1][..i] == a[..i];
      if userFn(a[i]) {
        result := result + [a[i]];
      }
    }
    assert a[..a.Length] == a[..];
    FilterLength(a[..], userFn);
    FilterMembership(a[..], userFn);
    assert forall k :: 0 <= k < |result| ==> result[k] in result;
  }

  /** The demo's filter callback: the value is even. */
  function IsEven(value: int): bool
  {
    value % 2 == 0
  }

  /** The demo's map callback: doubles the values at even indices. */
  function DoubleAtEvenIndex(value: int, index: nat): int
  {
    if index % 2 == 0 then value * 2 else value
  }

  /** Filtering [1, 2, 3, 4, 5, 6] with "value is even" yields [2, 4, 6]. */
  lemma FilterEvensExample()
    ensures FilterSpec([1, 2, 3, 4, 5, 6], IsEven) == [2, 4, 6]
  {
    assert [1, 2][..1] == [1];
    assert [1, 2, 3][..2] == [1, 2];
    assert [1, 2, 3, 4][..3] == [1, 2, 3];
    assert [1, 2, 3, 4, 5][..4] == [1, 2, 3, 4];
    assert [1, 2, 3, 4, 5, 6][..5] == [1, 2, 3, 4, 5];
    assert FilterSpec([1], IsEven) == [];
    assert FilterSpec([1, 2], IsEven) == [2];
    assert FilterSpec([1, 2, 3], IsEven) == [2];
    assert FilterSpec([1, 2, 3, 4], IsEven) == [2, 4];
    assert FilterSpec([1, 2, 3, 4, 5], IsEven) == [2, 4];
  }

  /** Mapping [1, 2, 3, 4, 5, 6] with the demo callback yields [2, 2, 6, 4, 10, 6]. */
  lemma MapDemoExample()
    ensures MapSpec([1, 2, 3, 4, 5, 6], DoubleAtEvenIndex) == [2, 2, 6, 4, 10, 6]
  {
    MapSpecAt([1, 2, 3, 4, 5, 6], DoubleAtEvenIndex);
  }

  /** On the demo array, myForEach calls the callback with indices 0 to 5 and the matching values. */
  lemma ForEachDemoExample()
    ensures ForEachCalls([1, 2, 3, 4, 5, 6])
         == [Call(1, 0), Call(2, 1), Call(3, 2), Call(4, 3), Call(5, 4), Call(6, 5)]
  {
    ForEachCallsAt([1, 2, 3, 4, 5, 6]);
  }
}
