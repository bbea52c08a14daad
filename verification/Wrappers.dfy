/** Option, Result, floating-point values and bounded counters, shared by every other module. */
module Wrappers {

  datatype Option<+T> = None | Some(value: T)

  datatype Result<+T, +E> = Success(value: T) | Failure(error: E)

  /** A floating-point value: a real number, or one of the three values that are not. */
  datatype Float = Finite(value: real) | PositiveInfinity | NegativeInfinity | NotANumber

  const U32_MAX: nat := 0xFFFF_FFFF
  const U64_MAX: nat := 0xFFFF_FFFF_FFFF_FFFF

  /** What a saturating counter shows. */
  function AtMost(limit: nat, n: nat): nat {
    if n < limit then n else limit
  }

  function MaxNat(a: nat, b: nat): (m: nat)
    ensures m >= a && m >= b && (m == a || m == b)
  {
    if a >= b then a else b
  }

  predicate PositiveFinite(x: Float) {
    x.Finite? && x.value > 0.0
  }

  /** One step per item, from the first to the last. */
  function Fold<S, A>(step: (S, A) -> S, start: S, items: seq<A>): S {
    if items == [] then start else Fold(step, step(start, items[0]), items[1..])
  }

  lemma {:induction false} FoldLast<S, A>(step: (S, A) -> S, start: S, items: seq<A>, last: A)
    ensures Fold(step, start, items + [last]) == step(Fold(step, start, items), last)
    decreases |items|
  {
    if items == [] {
      assert [] + [last] == [last];
    } else {
      assert (items + [last])[1..] == items[1..] + [last];
      FoldLast(step, step(start, items[0]), items[1..], last);
    }
  }
}
