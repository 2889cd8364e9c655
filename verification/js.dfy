/**
 * JavaScript numbers as the synthesizer's modules see them: a finite value,
 * NaN, or a signed infinity. Frequencies and semitone offsets arrive from the
 * UI as such numbers, and the modules guard against the non-finite ones with
 * `isFinite` and `> 0` tests.
 *
 * Finite values are unbounded reals: IEEE overflow to an infinity, rounding
 * and negative zero are not represented.
 */
module Js {

  datatype Num = Finite(val: real) | NaN | Infinity(negative: bool)

  /** A JavaScript lookup that may yield `undefined`. */
  datatype Option<T> = None | Some(value: T)

  /** `isFinite(x) && x > 0` */
  predicate IsPositive(x: Num) {
    x.Finite? && x.val > 0.0
  }

  /** JavaScript `a * b`: NaN absorbs, an infinity times zero is NaN,
      and the sign of an infinite product is the exclusive-or of the signs. */
  function Mul(a: Num, b: Num): (r: Num)
    ensures a.Finite? && b.Finite? ==> r == Finite(a.val * b.val)
    ensures a.NaN? || b.NaN? ==> r == NaN
    ensures IsPositive(a) && IsPositive(b) ==> IsPositive(r)
  {
    if a.NaN? || b.NaN? then NaN
    else if a.Finite? && b.Finite? then Finite(a.val * b.val)
    else if a.Finite? then (if a.val == 0.0 then NaN else Infinity(b.negative != (a.val < 0.0)))
    else if b.Finite? then (if b.val == 0.0 then NaN else Infinity(a.negative != (b.val < 0.0)))
    else Infinity(a.negative != b.negative)
  }

  /** The equal-temperament ratio 2^(n/12) for a finite semitone count n.
      Its value is left abstract apart from being positive and 1 at n = 0. */
  type SemitoneRatio = f: real -> real | f(0.0) == 1.0 && forall n :: f(n) > 0.0
    witness (n: real) => 1.0

  /** `Math.pow(2, n / 12)` on a JavaScript number n. */
  function Pow2Semitones(ratio: SemitoneRatio, n: Num): (r: Num)
    ensures n.Finite? ==> IsPositive(r) && r.val == ratio(n.val)
    ensures n == Finite(0.0) ==> r == Finite(1.0)
    ensures n.NaN? ==> r.NaN?
  {
    match n
    case Finite(x) => Finite(ratio(x))
    case NaN => NaN
    case Infinity(negative) => if negative then Finite(0.0) else Infinity(false)
  }

  /** `SubharmonicCalculator.calculateSubharmonicFreq(fundamental, division)`,
      whose implementation is not part of this model. */
  type Calculator = (Num, Num) -> Num

  /** The numeric collaborators every frequency computation depends on. */
  datatype Env = Env(ratio: SemitoneRatio, subharmonic: Calculator)
}
