// What the terms of Scalar stand for over the reals when every operation is exact: a
// value, and the value's derivative along a direction in which the inputs move.
module Meaning {
  import opened Scalar

  function Quotient(a: real, b: real): real { if b == 0.0 then 0.0 else a / b }

  function Power(a: real, n: nat): real { if n == 0 then 1.0 else Power(a, n - 1) * a }

  ghost predicate IsRoot(r: real, x: real) { r >= 0.0 && r * r == x }

  /** A value for every term and a derivative; the library's exponential and root. */
  datatype Sense = Sense(
    val: F -> real, wide: D -> real, der: F -> real, derWide: D -> real, exp: real -> real, sqrt: real -> real)
  {
    /** Values respect the operations. The least float is below everything: a maximum with it is the other operand. */
    ghost predicate Exact() { Arithmetic() && Functions() && Doubles() }

    ghost predicate Arithmetic() {
      && (forall n {:trigger val(OfNat(n))} :: val(OfNat(n)) == n as real)
      && (forall a, b {:trigger val(Add(a, b))} :: val(Add(a, b)) == val(a) + val(b))
      && (forall a, b {:trigger val(Sub(a, b))} :: val(Sub(a, b)) == val(a) - val(b))
      && (forall a, b {:trigger val(Mul(a, b))} :: val(Mul(a, b)) == val(a) * val(b))
      && (forall a, b {:trigger val(Div(a, b))} :: val(Div(a, b)) == Quotient(val(a), val(b)))
    }

    ghost predicate Functions() {
      && (forall a {:trigger val(Exp(a))} :: val(Exp(a)) == exp(val(a)))
      && (forall a {:trigger val(Sqrt(a))} :: val(Sqrt(a)) == sqrt(val(a)))
      && (forall a {:trigger val(Relu(a))} :: val(Relu(a)) == if val(a) > 0.0 then val(a) else 0.0)
      && (forall a, n {:trigger val(Pow(a, OfNat(n)))} :: val(Pow(a, OfNat(n))) == Power(val(a), n))
      && (forall a, b {:trigger val(MaxOf(a, b))} :: val(MaxOf(a, b)) == if b == NegInf || val(b) < val(a) then val(a) else val(b))
    }

    ghost predicate Doubles() {
      && (forall a {:trigger val(Narrow(a))} :: val(Narrow(a)) == wide(a))
      && wide(DZero) == 0.0
      && (forall a {:trigger wide(Widen(a))} :: wide(Widen(a)) == val(a))
      && (forall a, b {:trigger wide(DAdd(a, b))} :: wide(DAdd(a, b)) == wide(a) + wide(b))
      && (forall a, b {:trigger wide(DMul(a, b))} :: wide(DMul(a, b)) == wide(a) * wide(b))
      && (forall a, b {:trigger wide(DDiv(a, b))} :: wide(DDiv(a, b)) == Quotient(wide(a), wide(b)))
      && (forall a {:trigger wide(DSqrt(a))} :: wide(DSqrt(a)) == sqrt(wide(a)))
    }

    /** Derivatives follow the rules of calculus. */
    ghost predicate Calculus() { SumRules() && QuotientRules() && FunctionRules() && DoubleRules() && WideRules() }

    ghost predicate SumRules() {
      && (forall n {:trigger der(OfNat(n))} :: der(OfNat(n)) == 0.0)
      && (forall a, b {:trigger der(Add(a, b))} :: der(Add(a, b)) == der(a) + der(b))
      && (forall a, b {:trigger der(Sub(a, b))} :: der(Sub(a, b)) == der(a) - der(b))
      && (forall a, b {:trigger der(Mul(a, b))} :: der(Mul(a, b)) == der(a) * val(b) + val(a) * der(b))
    }

    ghost predicate QuotientRules() {
      && (forall a, b {:trigger der(Div(a, b))} ::
           der(Div(a, b)) == Quotient(der(a) * val(b) - val(a) * der(b), val(b) * val(b)))
    }

    ghost predicate FunctionRules() {
      && (forall a {:trigger der(Exp(a))} :: der(Exp(a)) == exp(val(a)) * der(a))
      && (forall a {:trigger der(Sqrt(a))} :: der(Sqrt(a)) == Quotient(der(a), 2.0 * sqrt(val(a))))
    }

    ghost predicate DoubleRules() {
      && (forall a {:trigger der(Narrow(a))} :: der(Narrow(a)) == derWide(a))
      && derWide(DZero) == 0.0
      && (forall a {:trigger derWide(Widen(a))} :: derWide(Widen(a)) == der(a))
    }

    ghost predicate WideRules() {
      && (forall a, b {:trigger derWide(DAdd(a, b))} :: derWide(DAdd(a, b)) == derWide(a) + derWide(b))
      && (forall a, b {:trigger derWide(DMul(a, b))} :: derWide(DMul(a, b)) == derWide(a) * wide(b) + wide(a) * derWide(b))
    }

    ghost predicate Positive() { forall x :: exp(x) > 0.0 }

    ghost predicate Adds(x: real, y: real) { exp(x + y) == exp(x) * exp(y) }

    ghost predicate Exponential() { Positive() && forall x, y {:trigger Adds(x, y)} :: Adds(x, y) }

    ghost predicate Roots() { forall x :: x >= 0.0 ==> IsRoot(sqrt(x), x) }
  }

  // ---------------------------------------------------------- terms evaluated one by one

  /** Inputs and how they move, stored weights, and the functions of the math library with their slopes. */
  datatype Library = Library(
    input: nat -> real, along: nat -> real, stored: W -> real, exp: real -> real, sqrt: real -> real,
    gelu: real -> real, geluSlope: real -> real, silu: real -> real, siluSlope: real -> real)

  ghost function Val(lib: Library, x: F): real
    decreases x
  {
    match x
    case Input(id) => lib.input(id)
    case OfStored(w) => lib.stored(w)
    case OfNat(n) => n as real
    case NegInf => 0.0
    case Add(a, b) => Val(lib, a) + Val(lib, b)
    case Sub(a, b) => Val(lib, a) - Val(lib, b)
    case Mul(a, b) => Val(lib, a) * Val(lib, b)
    case Div(a, b) => Quotient(Val(lib, a), Val(lib, b))
    case Neg(a) => -Val(lib, a)
    case Exp(a) => lib.exp(Val(lib, a))
    case Sqrt(a) => lib.sqrt(Val(lib, a))
    case Pow(a, b) => if b.OfNat? then Power(Val(lib, a), b.n) else 0.0
    case MaxOf(a, b) => if b == NegInf || Val(lib, b) < Val(lib, a) then Val(lib, a) else Val(lib, b)
    case Relu(a) => if Val(lib, a) > 0.0 then Val(lib, a) else 0.0
    case Gelu(a) => lib.gelu(Val(lib, a))
    case Silu(a) => lib.silu(Val(lib, a))
    case Narrow(d) => Wide(lib, d)
  }

  ghost function Wide(lib: Library, x: D): real
    decreases x
  {
    match x
    case Widen(a) => Val(lib, a)
    case DZero => 0.0
    case DAdd(a, b) => Wide(lib, a) + Wide(lib, b)
    case DMul(a, b) => Wide(lib, a) * Wide(lib, b)
    case DDiv(a, b) => Quotient(Wide(lib, a), Wide(lib, b))
    case DSqrt(a) => lib.sqrt(Wide(lib, a))
  }

  ghost function Der(lib: Library, x: F): real
    decreases x
  {
    match x
    case Input(id) => lib.along(id)
    case OfStored(_) => 0.0
    case OfNat(_) => 0.0
    case NegInf => 0.0
    case Add(a, b) => Der(lib, a) + Der(lib, b)
    case Sub(a, b) => Der(lib, a) - Der(lib, b)
    case Mul(a, b) => Der(lib, a) * Val(lib, b) + Val(lib, a) * Der(lib, b)
    case Div(a, b) => Quotient(Der(lib, a) * Val(lib, b) - Val(lib, a) * Der(lib, b), Val(lib, b) * Val(lib, b))
    case Neg(a) => -Der(lib, a)
    case Exp(a) => lib.exp(Val(lib, a)) * Der(lib, a)
    case Sqrt(a) => Quotient(Der(lib, a), 2.0 * lib.sqrt(Val(lib, a)))
    case Pow(a, b) => if b.OfNat? && b.n > 0 then b.n as real * Power(Val(lib, a), b.n - 1) * Der(lib, a) else 0.0
    case MaxOf(a, b) => if b == NegInf || Val(lib, b) < Val(lib, a) then Der(lib, a) else Der(lib, b)
    case Relu(a) => if Val(lib, a) > 0.0 then Der(lib, a) else 0.0
    case Gelu(a) => lib.geluSlope(Val(lib, a)) * Der(lib, a)
    case Silu(a) => lib.siluSlope(Val(lib, a)) * Der(lib, a)
    case Narrow(d) => DerWide(lib, d)
  }

  ghost function DerWide(lib: Library, x: D): real
    decreases x
  {
    match x
    case Widen(a) => Der(lib, a)
    case DZero => 0.0
    case DAdd(a, b) => DerWide(lib, a) + DerWide(lib, b)
    case DMul(a, b) => DerWide(lib, a) * Wide(lib, b) + Wide(lib, a) * DerWide(lib, b)
    case DDiv(a, b) => Quotient(DerWide(lib, a) * Wide(lib, b) - Wide(lib, a) * DerWide(lib, b), Wide(lib, b) * Wide(lib, b))
    case DSqrt(a) => Quotient(DerWide(lib, a), 2.0 * lib.sqrt(Wide(lib, a)))
  }

  /** Terms evaluated with any library, along any direction. */
  ghost function Evaluation(lib: Library): Sense {
    Sense(x => Val(lib, x), x => Wide(lib, x), x => Der(lib, x), x => DerWide(lib, x), lib.exp, lib.sqrt)
  }

  /** Evaluating is such a sense, so what is proved of every sense holds of the values computed. */
  lemma EvaluationIsExact(lib: Library)
    ensures Evaluation(lib).Exact()
  {
    EvaluatesArithmetic(lib);
    EvaluatesFunctions(lib);
    EvaluatesDoubles(lib);
  }

  lemma EvaluatesArithmetic(lib: Library)
    ensures Evaluation(lib).Arithmetic()
  {
  }

  lemma EvaluatesFunctions(lib: Library)
    ensures Evaluation(lib).Functions()
  {
  }

  lemma EvaluatesDoubles(lib: Library)
    ensures Evaluation(lib).Doubles()
  {
  }

  lemma EvaluationIsCalculus(lib: Library)
    ensures Evaluation(lib).Calculus()
  {
    DerivesSums(lib);
    DerivesQuotients(lib);
    DerivesFunctions(lib);
    DerivesDoubles(lib);
    DerivesWides(lib);
  }

  lemma DerivesSums(lib: Library)
    ensures Evaluation(lib).SumRules()
  {
  }

  lemma DerivesQuotients(lib: Library)
    ensures Evaluation(lib).QuotientRules()
  {
  }

  lemma DerivesFunctions(lib: Library)
    ensures Evaluation(lib).FunctionRules()
  {
  }

  lemma DerivesDoubles(lib: Library)
    ensures Evaluation(lib).DoubleRules()
  {
  }

  lemma DerivesWides(lib: Library)
    ensures Evaluation(lib).WideRules()
  {
  }

  // ------------------------------------------------------------------ finite sums

  /** The elements of a row, and how they move; zero past the end. */
  ghost function Vals(sn: Sense, r: seq<F>): (f: nat -> real)
    ensures forall c: nat :: f(c) == if c < |r| then sn.val(r[c]) else 0.0
  {
    (c: nat) => if c < |r| then sn.val(r[c]) else 0.0
  }

  ghost function Ders(sn: Sense, r: seq<F>): (f: nat -> real)
    ensures forall c: nat :: f(c) == if c < |r| then sn.der(r[c]) else 0.0
  {
    (c: nat) => if c < |r| then sn.der(r[c]) else 0.0
  }

  ghost function Sum(f: nat -> real, n: nat): real { if n == 0 then 0.0 else Sum(f, n - 1) + f(n - 1) }

  ghost function Products(f: nat -> real, g: nat -> real): (h: nat -> real)
    ensures forall i: nat :: h(i) == f(i) * g(i)
  {
    (i: nat) => f(i) * g(i)
  }

  ghost function Multiple(a: real, f: nat -> real): (h: nat -> real)
    ensures forall i: nat :: h(i) == a * f(i)
  {
    (i: nat) => a * f(i)
  }

  lemma {:induction false} SumSame(f: nat -> real, g: nat -> real, n: nat)
    requires forall i: nat :: i < n ==> f(i) == g(i)
    ensures Sum(f, n) == Sum(g, n)
  {
    if n > 0 {
      SumSame(f, g, n - 1);
    }
  }

  lemma ProductsCommute(f: nat -> real, g: nat -> real, n: nat)
    ensures Sum(Products(f, g), n) == Sum(Products(g, f), n)
  {
    SumSame(Products(f, g), Products(g, f), n);
  }

  lemma {:induction false} SumAdds(f: nat -> real, g: nat -> real, h: nat -> real, n: nat)
    requires forall i: nat :: i < n ==> h(i) == f(i) + g(i)
    ensures Sum(h, n) == Sum(f, n) + Sum(g, n)
  {
    if n > 0 {
      SumAdds(f, g, h, n - 1);
    }
  }

  lemma {:induction false} SumScales(f: nat -> real, h: nat -> real, a: real, n: nat)
    requires forall i: nat :: i < n ==> h(i) == a * f(i)
    ensures Sum(h, n) == a * Sum(f, n)
  {
    if n > 0 {
      SumScales(f, h, a, n - 1);
    }
  }

  /** h = f + a * g. */
  lemma SumCombines(f: nat -> real, g: nat -> real, h: nat -> real, a: real, n: nat)
    requires forall i: nat :: i < n ==> h(i) == f(i) + a * g(i)
    ensures Sum(h, n) == Sum(f, n) + a * Sum(g, n)
  {
    SumScales(g, Multiple(a, g), a, n);
    SumAdds(f, Multiple(a, g), h, n);
  }

  lemma {:induction false} SumZero(f: nat -> real, n: nat)
    requires forall i: nat :: i < n ==> f(i) == 0.0
    ensures Sum(f, n) == 0.0
  {
    if n > 0 {
      SumZero(f, n - 1);
    }
  }

  lemma {:induction false} SumPositive(f: nat -> real, n: nat)
    requires n > 0 && forall i: nat :: i < n ==> f(i) > 0.0
    ensures Sum(f, n) > 0.0
  {
    if n > 1 {
      SumPositive(f, n - 1);
    }
  }

  lemma {:induction false} SumBetween(f: nat -> real, lo: nat -> real, hi: nat -> real, n: nat)
    requires forall i: nat :: i < n ==> lo(i) <= f(i) <= hi(i)
    ensures Sum(lo, n) <= Sum(f, n) <= Sum(hi, n)
  {
    if n > 0 {
      SumBetween(f, lo, hi, n - 1);
    }
  }

  /** Terms that vanish from n on add nothing. */
  lemma {:induction false} SumStops(f: nat -> real, n: nat, m: nat)
    requires n <= m && forall i: nat :: n <= i < m ==> f(i) == 0.0
    ensures Sum(f, m) == Sum(f, n)
  {
    if m > n {
      SumStops(f, n, m - 1);
    }
  }

  /** Row i, and column j, of a table. */
  ghost function RowOf(t: (nat, nat) -> real, i: nat): (f: nat -> real)
    ensures forall j: nat :: f(j) == t(i, j)
  {
    (j: nat) => t(i, j)
  }

  ghost function ColumnOf(t: (nat, nat) -> real, j: nat): (f: nat -> real)
    ensures forall i: nat :: f(i) == t(i, j)
  {
    (i: nat) => t(i, j)
  }

  ghost function ColumnSums(t: (nat, nat) -> real, n: nat): (f: nat -> real)
    ensures forall j: nat :: f(j) == Sum(ColumnOf(t, j), n)
  {
    (j: nat) => Sum(ColumnOf(t, j), n)
  }

  /** A table summed by rows and by columns. */
  lemma {:induction false} SumSwaps(t: (nat, nat) -> real, rows: nat -> real, cols: nat -> real, n: nat, m: nat)
    requires forall i: nat :: i < n ==> rows(i) == Sum(RowOf(t, i), m)
    requires forall j: nat :: j < m ==> cols(j) == Sum(ColumnOf(t, j), n)
    ensures Sum(rows, n) == Sum(cols, m)
  {
    if n == 0 {
      SumZero(cols, m);
    } else {
      SumSwaps(t, rows, ColumnSums(t, n - 1), n - 1, m);
      SumAdds(ColumnSums(t, n - 1), RowOf(t, n - 1), cols, m);
    }
  }

  /** The weighted sum of the rows of a table, and each row against a vector. */
  ghost function Mixed(w: nat -> real, x: (nat, nat) -> real, n: nat): (f: nat -> real)
    ensures forall c: nat :: f(c) == Sum(Products(w, ColumnOf(x, c)), n)
  {
    (c: nat) => Sum(Products(w, ColumnOf(x, c)), n)
  }

  ghost function Against(y: nat -> real, x: (nat, nat) -> real, m: nat): (f: nat -> real)
    ensures forall j: nat :: f(j) == Sum(Products(y, RowOf(x, j)), m)
  {
    (j: nat) => Sum(Products(y, RowOf(x, j)), m)
  }

  ghost function Weighed(w: nat -> real, y: nat -> real, x: (nat, nat) -> real): (t: (nat, nat) -> real)
    ensures forall j: nat, c: nat :: t(j, c) == w(j) * (y(c) * x(j, c))
  {
    (j: nat, c: nat) => w(j) * (y(c) * x(j, c))
  }

  /** A vector against a weighted sum of rows is the weighted sum of the vector against each row. */
  lemma MixedAgainst(w: nat -> real, y: nat -> real, x: (nat, nat) -> real, n: nat, m: nat)
    ensures Sum(Products(y, Mixed(w, x, n)), m) == Sum(Products(w, Against(y, x, m)), n)
  {
    var t := Weighed(w, y, x);
    forall j: nat | j < n ensures Products(w, Against(y, x, m))(j) == Sum(RowOf(t, j), m) {
      SumScales(Products(y, RowOf(x, j)), RowOf(t, j), w(j), m);
    }
    forall c: nat | c < m ensures Products(y, Mixed(w, x, n))(c) == Sum(ColumnOf(t, c), n) {
      SumScales(Products(w, ColumnOf(x, c)), ColumnOf(t, c), y(c), n);
    }
    SumSwaps(t, Products(w, Against(y, x, m)), Products(y, Mixed(w, x, n)), n, m);
  }
}
