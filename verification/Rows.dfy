// Flat stores cut into rows of one width.
module Rows {
  import opened Indexing

  /** Elements in n rows of a width: n * width. */
  function Area(n: nat, width: nat): nat {
    if n == 0 then 0 else Area(n - 1, width) + width
  }

  lemma {:induction false} AreaIs(n: nat, width: nat)
    ensures Area(n, width) == n * width
  {
    if n > 0 {
      AreaIs(n - 1, width);
      RowBase(n - 1, 1, width);
    }
  }

  lemma {:induction false} AreaAdds(a: nat, b: nat, width: nat)
    ensures Area(a + b, width) == Area(a, width) + Area(b, width)
  {
    if a > 0 {
      AreaAdds(a - 1, b, width);
      assert a + b - 1 == (a - 1) + b;
    }
  }

  lemma AreaSum(a: nat, b: nat, c: nat, width: nat)
    requires c == a + b
    ensures Area(c, width) == Area(a, width) + Area(b, width)
  {
    AreaAdds(a, b, width);
  }

  lemma AreaFits(a: nat, b: nat, n: nat, width: nat)
    requires a + b <= n
    ensures Area(a, width) + Area(b, width) <= Area(n, width)
  {
    AreaAdds(a, b, width);
    AreaAdds(a + b, n - a - b, width);
  }

  /** One more row ends one width further. */
  lemma AreaNext(a: nat, width: nat)
    ensures Area(a + 1, width) == Area(a, width) + width
  {
  }

  lemma {:induction false} AreaNested(k: nat, step: nat, w: nat)
    ensures Area(k, Area(step, w)) == Area(Area(k, step), w)
  {
    if k > 0 {
      AreaNested(k - 1, step, w);
      AreaAdds(Area(k - 1, step), step, w);
    }
  }

  method Offset(rows: nat, width: nat) returns (r: nat)
    ensures r == Area(rows, width)
  {
    AreaIs(rows, width);
    r := rows * width;
  }

  /** Record i of a store of n records, `width` elements each. */
  function Row<T>(store: seq<T>, n: nat, width: nat, i: nat): (row: seq<T>)
    requires |store| == Area(n, width) && i < n
    ensures |row| == width
  {
    AreaFits(i, 1, n, width);
    AreaNext(i, width);
    store[Area(i, width)..Area(i + 1, width)]
  }

  lemma RowOfPrefix<T>(store: seq<T>, n: nat, k: nat, width: nat, i: nat)
    requires |store| == Area(n, width) && i < k <= n
    ensures Area(k, width) <= |store| && Row(store[..Area(k, width)], k, width, i) == Row(store, n, width, i)
  {
    AreaFits(k, n - k, n, width);
    AreaFits(i + 1, 0, k, width);
    AreaNext(i, width);
  }

  lemma RowOfSuffix<T>(store: seq<T>, n: nat, k: nat, width: nat, i: nat, j: nat)
    requires |store| == Area(n, width) && k <= n && j == k + i < n
    ensures Area(k, width) <= |store| && |store[Area(k, width)..]| == Area(n - k, width)
    ensures Row(store[Area(k, width)..], n - k, width, i) == Row(store, n, width, j)
  {
    AreaAdds(k, n - k, width);
    AreaAdds(k, i, width);
    AreaNext(j, width);
    AreaNext(i, width);
    AreaFits(j + 1, 0, n, width);
  }

  function Concat<T>(rows: seq<seq<T>>): seq<T> {
    if rows == [] then [] else Concat(rows[..|rows| - 1]) + rows[|rows| - 1]
  }

  ghost predicate Uniform<T>(rows: seq<seq<T>>, width: nat) {
    forall i :: 0 <= i < |rows| ==> |rows[i]| == width
  }

  lemma {:induction false} ConcatLength<T>(rows: seq<seq<T>>, width: nat)
    requires Uniform(rows, width)
    ensures |Concat(rows)| == Area(|rows|, width)
  {
    if rows != [] {
      ConcatLength(rows[..|rows| - 1], width);
    }
  }

  lemma {:induction false} ConcatSplits<T>(a: seq<seq<T>>, b: seq<seq<T>>)
    ensures Concat(a + b) == Concat(a) + Concat(b)
  {
    if b == [] {
      assert a + b == a;
    } else {
      var b' := b[..|b| - 1];
      assert (a + b)[..|a + b| - 1] == a + b';
      ConcatSplits(a, b');
    }
  }

  lemma ConcatOne<T>(rows: seq<seq<T>>, row: seq<T>)
    ensures Concat(rows + [row]) == Concat(rows) + row
  {
    assert (rows + [row])[..|rows|] == rows;
  }

  /** The n rows of a flat store. */
  function RowsOf<T>(store: seq<T>, n: nat, width: nat): (rows: seq<seq<T>>)
    requires |store| == Area(n, width)
    ensures |rows| == n && forall i :: 0 <= i < n ==> rows[i] == Row(store, n, width, i)
  {
    seq(n, i requires 0 <= i < n => Row(store, n, width, i))
  }

  /** Cutting a store into rows loses nothing. */
  lemma {:induction false} ConcatRows<T>(store: seq<T>, n: nat, width: nat)
    requires |store| == Area(n, width)
    ensures Concat(RowsOf(store, n, width)) == store
    decreases n
  {
    if n > 0 {
      var k := n - 1;
      AreaNext(k, width);
      var head := store[..Area(k, width)];
      ConcatRows(head, k, width);
      forall i | 0 <= i < k ensures RowsOf(store, n, width)[i] == RowsOf(head, k, width)[i] {
        RowOfPrefix(store, n, k, width, i);
      }
      assert RowsOf(store, n, width)[..k] == RowsOf(head, k, width);
      LastRow(store, n, k, width);
    }
  }

  lemma LastRow<T>(store: seq<T>, n: nat, k: nat, width: nat)
    requires |store| == Area(n, width) && n == k + 1
    ensures Area(k, width) <= |store| && store[..Area(k, width)] + Row(store, n, width, k) == store
  {
    AreaNext(k, width);
  }

  /** Rows laid end to end are found again at their places. */
  lemma RowOfConcat<T>(rows: seq<seq<T>>, width: nat, i: nat)
    requires Uniform(rows, width) && i < |rows|
    ensures |Concat(rows)| == Area(|rows|, width) && Row(Concat(rows), |rows|, width, i) == rows[i]
  {
    var n, k := |rows|, i + 1;
    ConcatLength(rows, width);
    ConcatLength(rows[..i], width);
    ConcatLength(rows[..k], width);
    assert rows == rows[..k] + rows[k..] && rows[..k] == rows[..i] + [rows[i]];
    ConcatSplits(rows[..k], rows[k..]);
    ConcatOne(rows[..i], rows[i]);
    AreaNext(i, width);
    AreaFits(k, n - k, n, width);
  }

  lemma SliceOfSlice<T>(w: seq<T>, a: nat, b: nat, c: nat, d: nat, from: nat, to: nat)
    requires a <= b <= |w| && c <= d <= b - a && from == a + c && to == a + d
    ensures w[a..b][c..d] == w[from..to]
  {
    forall j | 0 <= j < d - c ensures w[a..b][c..d][j] == w[from..to][j] {
    }
  }
}
