// Tile geometry of the blocked GEMM cores (runtime/executor/kernel_policy.h).
module KernelPolicy {
  import opened Parallel

  datatype GemmTiles = GemmTiles(k: nat, n: nat) {
    predicate Valid() { k > 0 && k % 4 == 0 && n > 0 }
  }

  // Elements a chunk, for plain arithmetic and for library functions.
  const GRAIN_CHEAP: nat := 32768
  const GRAIN_MATH: nat := 4096

  /** The tiles the NN core walks: K cut to whole quads that fit the panel, then N to what is left. */
  function FitToPanel(tiles: GemmTiles, panel: nat): (fit: GemmTiles)
    requires tiles.Valid() && panel >= 4
    ensures fit.Valid() && fit.k <= tiles.k && fit.n <= tiles.n
    ensures fit.k * fit.n <= panel
  {
    var k := Min(tiles.k, panel / 4 * 4) / 4 * 4;
    assert 4 <= k <= panel;
    DivTimes(panel, k);
    TimesMonotone(k, Min(tiles.n, panel / k), panel / k);
    GemmTiles(k, Min(tiles.n, panel / k))
  }

  lemma DivTimes(x: nat, d: nat)
    requires d > 0
    ensures d * (x / d) <= x
    ensures d <= x ==> x / d >= 1
  {
  }
}
