/** Draws supplied by the random source: each is a natural in [1, sides]. */
module Dice {

  predicate IsDraw(d: nat, sides: nat) {
    1 <= d <= sides
  }

  predicate AllDraws(draws: seq<nat>, sides: nat) {
    forall i :: 0 <= i < |draws| ==> IsDraw(draws[i], sides)
  }

  /** The total of a run of dice. */
  function Sum(draws: seq<nat>): (s: nat)
    ensures forall i :: 0 <= i < |draws| ==> draws[i] <= s
  {
    if draws == [] then 0
    else
      assert forall i :: 1 <= i < |draws| ==> draws[i] == draws[1..][i - 1];
      draws[0] + Sum(draws[1..])
  }

  /** n dice of N sides total between n and n * N. */
  lemma {:induction false} SumBounds(draws: seq<nat>, sides: nat)
    requires AllDraws(draws, sides)
    ensures |draws| <= Sum(draws) <= |draws| * sides
  {
    if draws != [] {
      SumBounds(draws[1..], sides);
      assert |draws| * sides == (|draws| - 1) * sides + sides;
    }
  }

  /** Rolling at least as high on every die never lowers the total. */
  lemma {:induction false} SumMonotone(a: seq<nat>, b: seq<nat>)
    requires |a| == |b|
    requires forall i :: 0 <= i < |a| ==> a[i] <= b[i]
    ensures Sum(a) <= Sum(b)
  {
    if a != [] {
      SumMonotone(a[1..], b[1..]);
    }
  }
}
