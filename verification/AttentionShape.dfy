// Units and head segments of the attention kernels (runtime/executor/attention.cc).
// A unit is one (b, h, row); a segment is the d floats of head h in token row b*S + row.
module AttentionShape {
  import opened Indexing
  import opened Parallel

  datatype Unit = Unit(b: nat, h: nat, i: nat)

  datatype Shape = Shape(B: nat, S: nat, H: nat, d: nat) {
    predicate Has(x: Unit) { x.b < B && x.h < H && x.i < S }

    function Units(): nat { B * H * S }

    /** The flat unit index, and its decomposition. */
    function IndexOf(x: Unit): nat { Ix(Ix(x.b, x.h, H), x.i, S) }

    function UnitOf(u: nat): Unit
      requires u < Units()
    {
      HasUnits(u);
      Unit(u / (H * S), u / S % H, u % S)
    }

    /** The segment of unit x in an activation, counted in segments of d floats. */
    function Slot(x: Unit): nat { Ix(Ix(x.b, x.i, S), x.h, H) }

    function Slots(): nat { B * S * H }

    lemma HasUnits(u: nat)
      requires u < Units()
      ensures B > 0 && H > 0 && S > 0 && H * S > 0
    {
      FactorsPositive(B, H, S);
      TimesMonotone(H, 1, S);
    }

    lemma UnitOfIsUnit(u: nat)
      requires u < Units()
      ensures Has(UnitOf(u)) && IndexOf(UnitOf(u)) == u
    {
      HasUnits(u);
      var x := u / S;
      DivisionBounds(u, S);
      DivisionBounds(x, H);
      TimesLess(x, B * H, S);
      TimesLess(x / H, B, H);
      FlatDivision(x / H, x % H, u % S, H, S);
      QuotientUnique(u, H * S, x / H);
    }

    lemma IndexOfIsIndex(x: Unit)
      requires Has(x)
      ensures IndexOf(x) < Units() && UnitOf(IndexOf(x)) == x
    {
      var y := Ix(x.b, x.h, H);
      IxBound(x.b, x.h, B, H);
      IxBound(y, x.i, B * H, S);
      HasUnits(IndexOf(x));
      QuotientUnique(IndexOf(x), S, y);
      QuotientUnique(y, H, x.b);
      FlatDivision(x.b, x.h, x.i, H, S);
      QuotientUnique(IndexOf(x), H * S, x.b);
    }

    lemma SlotBound(x: Unit)
      requires Has(x)
      ensures Slot(x) < Slots()
    {
      IxBound(x.b, x.i, B, S);
      IxBound(Ix(x.b, x.i, S), x.h, B * S, H);
    }

    /** In floats: row b*S + i of an activation H*d wide, and column h*d of it. */
    lemma SlotOffset(x: Unit)
      ensures Slot(x) * d == (x.b * S + x.i) * (H * d) + x.h * d
    {
      assert (x.b * S + x.i) * H * d == (x.b * S + x.i) * (H * d);
    }

    lemma SlotInjective(x: Unit, y: Unit)
      requires Has(x) && Has(y)
      ensures Slot(x) == Slot(y) ==> x == y
    {
      IxInjective(Ix(x.b, x.i, S), x.h, Ix(y.b, y.i, S), y.h, H);
      IxInjective(x.b, x.i, y.b, y.i, S);
    }

    lemma SlotCovered(r: nat) returns (x: Unit)
      requires r < Slots()
      ensures Has(x) && Slot(x) == r
    {
      FactorsPositive(B, S, H);
      DivisionBounds(r, H);
      TimesLess(r / H, B * S, H);
      DivisionBounds(r / H, S);
      TimesLess(r / H / S, B, S);
      x := Unit(r / H / S, r % H, r / H % S);
    }
  }

  lemma FactorsPositive(a: nat, b: nat, c: nat)
    ensures a * b * c > 0 ==> a > 0 && b > 0 && c > 0
  {
    if a == 0 || b == 0 {
      assert a * b == 0;
    }
  }

  /** u = (b*H + h)*S + i lies in the b-th block of H*S. */
  lemma FlatDivision(b: nat, h: nat, i: nat, H: nat, S: nat)
    requires h < H && i < S
    ensures b * (H * S) <= (b * H + h) * S + i < b * (H * S) + H * S
  {
    assert (b * H + h) * S == b * H * S + h * S;
    assert b * H * S == b * (H * S);
    RowFits(h, H, S);
  }
}
