// The scalars the kernels compute with. A float is represented by the
// expression that produced it: the free algebra over the machine operations,
// with no associativity, commutativity or distributivity. Two results are
// equal here exactly when they come from the same operations on the same
// operands in the same order, so they have equal bits under any rounding.
module Scalar {
  type W(==,0,!new)  // a stored weight element: f32, int8 or bf16

  datatype F =
    | Input(id: nat)          // a value that was in memory before the call
    | OfStored(w: W)          // a stored weight, widened
    | OfNat(n: nat)           // an integer converted to float
    | NegInf
    | Add(F, F)
    | Sub(F, F)
    | Mul(F, F)
    | Div(F, F)
    | Neg(F)
    | Exp(F)
    | Sqrt(F)
    | Pow(F, F)
    | MaxOf(F, F)             // the second operand, or the first where it is greater
    | Relu(F)
    | Gelu(F)
    | Silu(F)
    | Narrow(D)

  datatype D =
    | Widen(F)
    | DZero
    | DAdd(D, D)
    | DMul(D, D)
    | DDiv(D, D)
    | DSqrt(D)

  const ZERO := OfNat(0)
  const ONE := OfNat(1)

  datatype Option<+T> = None | Some(value: T)
}

// Row-major indexing of a flat buffer.
module Indexing {
  function Ix(m: nat, n: nat, stride: nat): nat { m * stride + n }

  lemma RowFits(m: nat, rows: nat, stride: nat)
    requires m < rows
    ensures m * stride + stride <= rows * stride
  {
    assert m * stride + stride == (m + 1) * stride <= rows * stride;
  }

  lemma RowBase(m: nat, i: nat, stride: nat)
    ensures (m + i) * stride == m * stride + i * stride
  {
  }

  lemma IxBound(m: nat, n: nat, rows: nat, stride: nat)
    requires m < rows && n < stride
    ensures Ix(m, n, stride) < rows * stride
  {
    assert m * stride + stride == (m + 1) * stride <= rows * stride;
  }

  lemma IxIncreases(m: nat, n: nat, m': nat, n': nat, stride: nat)
    requires m < m' && n < stride
    ensures Ix(m, n, stride) < Ix(m', n', stride)
  {
    assert m * stride + stride == (m + 1) * stride <= m' * stride;
  }

  lemma IxInjective(m: nat, n: nat, m': nat, n': nat, stride: nat)
    requires n < stride && n' < stride
    ensures Ix(m, n, stride) == Ix(m', n', stride) ==> m == m' && n == n'
  {
    if m < m' {
      IxIncreases(m, n, m', n', stride);
    } else if m' < m {
      IxIncreases(m', n', m, n, stride);
    }
  }
}
