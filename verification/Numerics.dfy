/** Arithmetic left uninterpreted. No law is assumed of the operations (in particular no
    associativity or commutativity), so two values are provably equal only when they were
    built by the same operations in the same order: the bit-identity the kernels claim. */
module Numerics {

  /** The operations dot products are built from, over whatever they accumulate in. */
  datatype Ops<!F> = Ops(
    zero: F,
    add: (F, F) -> F,
    sub: (F, F) -> F,
    mul: (F, F) -> F,
    fma: (F, F, F) -> F)   // fma(a, b, c) = a*b + c, rounded once

  /** The same operations on real numbers, where nothing is rounded. */
  function RealOps(): Ops<real>
  {
    Ops(0.0, (a, b) => a + b, (a, b) => a - b, (a, b) => a * b, (a, b, c) => a * b + c)
  }

  /** What the layers need beyond them. */
  datatype Arith<!F> = Arith(
    ops: Ops<F>,
    negInf: F,
    div: (F, F) -> F,
    exp: F -> F,
    sigmoid: F -> F,
    gt: (F, F) -> bool)

  /** The floating-point element of activations and weights. */
  type Scalar(0, !new)

  /** One token's hidden row; only whole-row operations are applied to it. */
  type Vec(0, !new)
}
