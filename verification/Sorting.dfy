/** Strictly increasing sequences of integers. */
module Sorting {

  predicate Increasing(s: seq<int>) {
    forall i, j :: 0 <= i < j < |s| ==> s[i] < s[j]
  }

  function Insert(s: seq<int>, x: int): (r: seq<int>)
    requires Increasing(s)
    ensures Increasing(r) && forall y :: y in r <==> y in s || y == x
  {
    if s == [] then [x]
    else if x < s[0] then [x] + s
    else if x == s[0] then s
    else
      var rest := Insert(s[1..], x);
      assert forall i :: 0 <= i < |rest| ==> rest[i] in rest && s[0] < rest[i];
      [s[0]] + rest
  }

  /** The elements of s, once each, in order. */
  function Sorted(s: seq<int>): (r: seq<int>)
    ensures Increasing(r) && forall y :: y in r <==> y in s
  {
    if s == [] then [] else Insert(Sorted(s[1..]), s[0])
  }
}
