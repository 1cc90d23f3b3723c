// What the elementwise kernels do over the reals.
module ElementwiseMeaning {
  import opened Scalar
  import opened Meaning
  import opened Elementwise

  /** Adding adds, multiplying and scaling multiply, whichever side the running value is on. */
  lemma StageVal(sn: Sense, st: Stage, v: F, i: nat)
    requires sn.Exact() && (st.AddStage? || st.MulStage? ==> i < |st.y|)
    ensures st.AddStage? ==> sn.val(st.Expr(v, i)) == sn.val(v) + sn.val(st.y[i])
    ensures st.MulStage? ==> sn.val(st.Expr(v, i)) == sn.val(v) * sn.val(st.y[i])
    ensures st.ScaleStage? ==> sn.val(st.Expr(v, i)) == sn.val(st.alpha) * sn.val(v)
    ensures st.ReluStage? ==> sn.val(st.Expr(v, i)) == if sn.val(v) > 0.0 then sn.val(v) else 0.0
    ensures st.GeluStage? ==> sn.val(st.Expr(v, i)) == sn.val(Gelu(v))
    ensures st.SiluStage? ==> sn.val(st.Expr(v, i)) == sn.val(Silu(v))
  {
  }

  /** Element c of row r of a gradient. */
  ghost function Entries(sn: Sense, dy: seq<seq<F>>, c: nat): (f: nat -> real)
    ensures forall r: nat :: r < |dy| && c < |dy[r]| ==> f(r) == sn.val(dy[r][c])
  {
    (r: nat) => if r < |dy| && c < |dy[r]| then sn.val(dy[r][c]) else 0.0
  }

  /** The row reduction leaves the sum of each column. */
  lemma {:induction false} ColumnVal(sn: Sense, dy: seq<seq<F>>, c: nat, rows: nat)
    requires sn.Exact() && rows <= |dy| && forall r :: 0 <= r < |dy| ==> c < |dy[r]|
    ensures sn.val(ColumnSum(dy, c, rows)) == Sum(Entries(sn, dy, c), rows)
  {
    if rows > 0 {
      ColumnVal(sn, dy, c, rows - 1);
    }
  }
}
