/**
 * The few JavaScript number operations the application relies on, over
 * mathematical reals and integers (IEEE-754 rounding and NaN are not modelled).
 */
module JsNumber {
  import opened Wrappers

  /** `Math.round`: the nearest integer, halves rounded towards +infinity. */
  function Round(x: real): (r: int)
    ensures x - 0.5 < r as real <= x + 0.5
  {
    (x + 0.5).Floor
  }

  /** `Math.floor`. */
  function Floor(x: real): (r: int)
    ensures r as real <= x < r as real + 1.0
  {
    x.Floor
  }

  /** `Math.ceil`. */
  function Ceil(x: real): (r: int)
    ensures x <= r as real < x + 1.0
  {
    -((-x).Floor)
  }

  function Min(a: real, b: real): (r: real)
    ensures r <= a && r <= b && (r == a || r == b)
  {
    if a <= b then a else b
  }

  function Max(a: real, b: real): (r: real)
    ensures r >= a && r >= b && (r == a || r == b)
  {
    if a >= b then a else b
  }

  /** JavaScript `n || d` for a number that may be undefined: 0 and undefined give `d`. */
  function OrElse(n: Option<real>, d: real): (r: real)
    ensures n.Some? && n.value != 0.0 ==> r == n.value
    ensures (n.None? || n.value == 0.0) ==> r == d
  {
    if n.Some? && n.value != 0.0 then n.value else d
  }

  /** JavaScript `n || d` for an integer that may be undefined. */
  function IntOrElse(n: Option<int>, d: int): (r: int)
    ensures n.Some? && n.value != 0 ==> r == n.value
    ensures (n.None? || n.value == 0) ==> r == d
  {
    if n.Some? && n.value != 0 then n.value else d
  }

  /** Whether a number that may be undefined is truthy (defined and non-zero). */
  predicate Truthy(n: Option<real>) {
    n.Some? && n.value != 0.0
  }

  /** Whether an integer that may be undefined is truthy (defined and non-zero). */
  predicate IntTruthy(n: Option<int>) {
    n.Some? && n.value != 0
  }

  /** Sum of a sequence of numbers, as `reduce((sum, x) => sum + x, 0)`. */
  function Sum(xs: seq<real>): (r: real)
    ensures (forall i :: 0 <= i < |xs| ==> xs[i] >= 0.0) ==> r >= 0.0
  {
    if xs == [] then 0.0 else Sum(xs[..|xs| - 1]) + xs[|xs| - 1]
  }

  lemma {:induction false} SumAppend(xs: seq<real>, x: real)
    ensures Sum(xs + [x]) == Sum(xs) + x
  {
    assert (xs + [x])[..|xs|] == xs;
  }

  lemma {:induction false} SumBounds(xs: seq<real>, i: int)
    requires 0 <= i < |xs|
    requires forall j :: 0 <= j < |xs| ==> xs[j] >= 0.0
    ensures 0.0 <= xs[i] <= Sum(xs)
  {
    if i < |xs| - 1 {
      SumBounds(xs[..|xs| - 1], i);
    } else {
      assert Sum(xs[..|xs| - 1]) >= 0.0;
    }
  }

  /** Integer sum, as `reduce((sum, x) => sum + x, 0)`. */
  function IntSum(xs: seq<int>): int
  {
    if xs == [] then 0 else IntSum(xs[..|xs| - 1]) + xs[|xs| - 1]
  }
}
