/**
 The two array queries the theme script relies on, with JavaScript's
 conventions: `indexOf` answers -1 for a missing element.
 */
module Sequences {

  /** `xs.indexOf(x)`: the position of the first occurrence of `x`, or -1. */
  function IndexOf<T(==)>(xs: seq<T>, x: T): (i: int)
    ensures -1 <= i < |xs|
    ensures i == -1 <==> x !in xs
    ensures 0 <= i ==> xs[i] == x && forall j :: 0 <= j < i ==> xs[j] != x
  {
    if |xs| == 0 then -1
    else if xs[0] == x then 0
    else
      var k := IndexOf(xs[1..], x);
      assert x in xs <==> x in xs[1..] by {
        assert xs == [xs[0]] + xs[1..];
      }
      if k < 0 then -1 else k + 1
  }

  /** `xs.includes(x)`. */
  function Includes<T(==)>(xs: seq<T>, x: T): (b: bool)
    ensures b <==> x in xs
  {
    IndexOf(xs, x) >= 0
  }
}
