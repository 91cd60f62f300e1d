/** Listener arrays: removal of the first match and in-order dispatch. */
module Helpers {

  /** The sequence with the first occurrence of `x` removed (unchanged when there is none). */
  function RemoveFirst<T(==)>(s: seq<T>, x: T): seq<T> {
    if s == [] then []
    else if s[0] == x then s[1..]
    else [s[0]] + RemoveFirst(s[1..], x)
  }

  /** `array.indexOf(x)`: the first index holding `x`, or -1. */
  method IndexOf<T(==)>(s: seq<T>, x: T) returns (i: int)
    ensures -1 <= i < |s|
    ensures i == -1 <==> x !in s
    ensures 0 <= i ==> s[i] == x && x !in s[..i]
  {
    i := 0;
    while i < |s|
      invariant 0 <= i <= |s|
      invariant x !in s[..i]
    {
      if s[i] == x {
        return;
      }
      assert s[..i + 1] == s[..i] + [s[i]];
      i := i + 1;
    }
    assert s[..i] == s;
    i := -1;
  }

  lemma {:induction false} RemoveFirstAt<T>(s: seq<T>, x: T, i: nat)
    requires i < |s| && s[i] == x && x !in s[..i]
    ensures RemoveFirst(s, x) == s[..i] + s[i + 1..]
    decreases i
  {
    if i > 0 {
      assert s[1..][..i - 1] == s[1..i];
      RemoveFirstAt(s[1..], x, i - 1);
      assert s[1..][i..] == s[i + 1..];
    }
  }

  lemma {:induction false} RemoveFirstAbsent<T>(s: seq<T>, x: T)
    requires x !in s
    ensures RemoveFirst(s, x) == s
    decreases |s|
  {
    if s != [] {
      RemoveFirstAbsent(s[1..], x);
    }
  }

  /**
   * `removeListener(array, listener)`: when the listener occurs, its first
   * occurrence goes and the length drops by one; otherwise the list is unchanged.
   */
  method RemoveListener<T(==)>(list: seq<T>, listener: T) returns (r: seq<T>)
    ensures r == RemoveFirst(list, listener)
  {
    var index := IndexOf(list, listener);
    if index != -1 {
      RemoveFirstAt(list, listener, index);
      r := list[..index] + list[index + 1..];
    } else {
      RemoveFirstAbsent(list, listener);
      r := list;
    }
  }

  /**
   * What removing the first match promises: an absent listener changes nothing;
   * a present one is cut at its first position, so the rest keep their order,
   * exactly one copy goes and later duplicates survive.
   */
  lemma RemoveFirstSpec<T>(s: seq<T>, x: T)
    ensures x !in s ==> RemoveFirst(s, x) == s
    ensures x in s ==>
              |RemoveFirst(s, x)| == |s| - 1 &&
              multiset(RemoveFirst(s, x)) == multiset(s) - multiset{x} &&
              exists i :: 0 <= i < |s| && s[i] == x && x !in s[..i] &&
                          RemoveFirst(s, x) == s[..i] + s[i + 1..]
  {
    if x !in s {
      RemoveFirstAbsent(s, x);
    } else {
      var i := FirstIndex(s, x);
      RemoveFirstAt(s, x, i);
      CutAt(s, i);
    }
  }

  /** Cutting out position `i` shortens the sequence by one and takes away one copy of `s[i]`. */
  lemma CutAt<T>(s: seq<T>, i: nat)
    requires i < |s|
    ensures |s[..i] + s[i + 1..]| == |s| - 1
    ensures multiset(s[..i] + s[i + 1..]) == multiset(s) - multiset{s[i]}
    ensures forall y :: y in s <==> y == s[i] || y in s[..i] + s[i + 1..]
  {
    assert s == s[..i] + [s[i]] + s[i + 1..];
  }

  /** The first position holding `x`, for an `x` that occurs. */
  lemma {:induction false} FirstIndex<T>(s: seq<T>, x: T) returns (i: nat)
    requires x in s
    ensures i < |s| && s[i] == x && x !in s[..i]
    decreases |s|
  {
    if s[0] == x {
      i := 0;
    } else {
      var j := FirstIndex(s[1..], x);
      i := j + 1;
      assert s[..i] == [s[0]] + s[1..][..j];
    }
  }

  predicate Distinct<T(==)>(s: seq<T>) {
    forall i, j :: 0 <= i < j < |s| ==> s[i] != s[j]
  }

  /** In a duplicate-free list (a set), removing the first match removes the element altogether. */
  lemma RemoveFirstFromDistinct<T>(s: seq<T>, x: T)
    requires Distinct(s)
    ensures x !in RemoveFirst(s, x)
    ensures Distinct(RemoveFirst(s, x))
    ensures forall y :: y != x ==> (y in RemoveFirst(s, x) <==> y in s)
  {
    if x !in s {
      RemoveFirstAbsent(s, x);
    } else {
      var i := FirstIndex(s, x);
      RemoveFirstAt(s, x, i);
      CutAt(s, i);
      CutDistinct(s, i);
    }
  }

  /** Cutting one position out of a duplicate-free list leaves it duplicate-free and without that element. */
  lemma CutDistinct<T>(s: seq<T>, i: nat)
    requires Distinct(s) && i < |s|
    ensures Distinct(s[..i] + s[i + 1..])
    ensures s[i] !in s[..i] + s[i + 1..]
  {
    var r := s[..i] + s[i + 1..];
    forall a, b | 0 <= a < b < |r|
      ensures r[a] != r[b]
    {
      var a' := if a < i then a else a + 1;
      var b' := if b < i then b else b + 1;
      assert r[a] == s[a'] && r[b] == s[b'];
    }
    forall a | 0 <= a < |r|
      ensures r[a] != s[i]
    {
      var a' := if a < i then a else a + 1;
      assert r[a] == s[a'];
    }
  }

  /** One call of a listener with an event. */
  datatype Delivery<L, E> = Delivery(listener: L, event: E)

  /** Every listener of `ls` called with `e`, in list order. */
  function Broadcast<L, E>(ls: seq<L>, e: E): (r: seq<Delivery<L, E>>)
    ensures |r| == |ls|
    ensures forall i :: 0 <= i < |ls| ==> r[i] == Delivery(ls[i], e)
  {
    if ls == [] then [] else Broadcast(ls[..|ls| - 1], e) + [Delivery(ls[|ls| - 1], e)]
  }

  /** `_processFunctionList(array, param)`: calls each function of the array with `param`. */
  method ProcessFunctionList<L, E>(list: seq<L>, param: E) returns (calls: seq<Delivery<L, E>>)
    ensures calls == Broadcast(list, param)
  {
    calls := [];
    for i := 0 to |list|
      invariant calls == Broadcast(list[..i], param)
    {
      assert list[..i + 1][..i] == list[..i];
      calls := calls + [Delivery(list[i], param)];
    }
    assert list[..|list|] == list;
  }
}
