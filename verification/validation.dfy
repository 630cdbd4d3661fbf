/** The numbers a form field can yield after JavaScript's `+value` coercion, and the
    two input checks the submit handler builds from `Array.prototype.every`. */
module Validation {

  /** An IEEE-754 double as far as validation can tell: a finite value, or one of the
      three non-finite values. Rounding and signed zero are not modelled. */
  datatype Num = Finite(value: real) | NaN | PosInf | NegInf

  /** `Number.isFinite(n)`. */
  predicate IsFinite(n: Num) {
    n.Finite?
  }

  /** `n > 0` under JavaScript's comparison: NaN compares false, +Infinity true. */
  predicate IsPositive(n: Num) {
    match n
    case Finite(v) => v > 0.0
    case PosInf => true
    case _ => false
  }

  /** `inputs.every(inp => Number.isFinite(inp))`, scanning from the front and
      stopping at the first failure. */
  function AllFinite(inputs: seq<Num>): (ok: bool)
    ensures ok <==> forall i :: 0 <= i < |inputs| ==> IsFinite(inputs[i])
  {
    if |inputs| == 0 then true
    else if !IsFinite(inputs[0]) then false
    else AllFinite(inputs[1..])
  }

  /** `inputs.every(inp => inp > 0)`. */
  function AllPositive(inputs: seq<Num>): (ok: bool)
    ensures ok <==> forall i :: 0 <= i < |inputs| ==> IsPositive(inputs[i])
  {
    if |inputs| == 0 then true
    else if !IsPositive(inputs[0]) then false
    else AllPositive(inputs[1..])
  }

  /** Both checks depend only on which inputs are given, not on their order. */
  lemma {:induction false} ChecksIgnoreOrder(a: seq<Num>, b: seq<Num>)
    requires multiset(a) == multiset(b)
    ensures AllFinite(a) == AllFinite(b)
    ensures AllPositive(a) == AllPositive(b)
  {
    forall i | 0 <= i < |a|
      ensures a[i] in multiset(b)
    {
      assert a[i] in multiset(a);
    }
    forall i | 0 <= i < |b|
      ensures b[i] in multiset(a)
    {
      assert b[i] in multiset(b);
    }
  }

  /** The checks accept ordinary positive numbers, fractions included, and reject
      zero, negatives, NaN and the infinities where each applies. */
  lemma ChecksOnSamples()
    ensures AllFinite([Finite(5.0), Finite(0.5), Finite(-3.0)])
    ensures AllPositive([Finite(5.0), Finite(0.5)])
    ensures !AllPositive([Finite(5.0), Finite(0.0)])
    ensures !AllPositive([Finite(-1.0)])
    ensures !AllFinite([Finite(1.0), NaN])
    ensures !AllFinite([PosInf])
    ensures !AllPositive([NaN])
  {
  }
}
