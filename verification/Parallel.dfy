// Chunk geometry of ParallelFor (source/parallel/parallel_for.h): a pure
// function of the size and the grain. Kernels run their chunks in any order.
module Parallel {
  import opened Indexing

  const MAX_CHUNKS := 256

  function CeilDiv(x: nat, d: nat): nat
    requires d > 0
  {
    (x + d - 1) / d
  }

  lemma DivisionBounds(x: nat, d: nat)
    requires d > 0
    ensures x / d * d <= x < x / d * d + d
  {
  }

  lemma TimesLess(a: nat, b: nat, d: nat)
    ensures a * d < b * d ==> a < b
    ensures a * d < b * d + d ==> a <= b
  {
    if a >= b {
      RowBase(b, a - b, d);
    }
    if a > b {
      RowFits(b, a, d);
    }
  }

  lemma QuotientUnique(x: nat, d: nat, q: nat)
    requires d > 0 && q * d <= x < q * d + d
    ensures x / d == q && x % d == x - q * d
  {
    DivisionBounds(x, d);
    TimesLess(q, x / d, d);
    TimesLess(x / d, q, d);
  }

  /** q = CeilDiv(x, d) is the least q with x <= q * d. */
  lemma CeilDivLeast(x: nat, d: nat)
    requires d > 0
    ensures x <= CeilDiv(x, d) * d
    ensures x > 0 ==> CeilDiv(x, d) > 0 && (CeilDiv(x, d) - 1) * d < x
  {
    var q := CeilDiv(x, d);
    DivisionBounds(x + d - 1, d);
    if q == 0 {
      assert q * d == 0;
    }
    if q > 0 {
      RowBase(q - 1, 1, d);
    }
  }

  lemma CeilDivAtMost(x: nat, d: nat, b: nat)
    requires d > 0 && x <= b * d
    ensures CeilDiv(x, d) <= b
  {
    CeilDivLeast(x, d);
    if x > 0 {
      TimesLess(CeilDiv(x, d) - 1, b, d);
    } else {
      QuotientUnique(d - 1, d, 0);
    }
  }

  function Min(a: nat, b: nat): nat { if a < b then a else b }

  function ChunkGrain(n: nat, grain: nat): (g: nat)
    ensures g > 0
  {
    var grain' := if grain == 0 then 1 else grain;
    var cap := CeilDiv(n, MAX_CHUNKS);
    if grain' < cap then cap else grain'
  }

  function ChunkCount(n: nat, grain: nat): nat {
    if n == 0 then 0 else CeilDiv(n, ChunkGrain(n, grain))
  }

  function ChunkBegin(n: nat, grain: nat, c: nat): nat { c * ChunkGrain(n, grain) }

  function ChunkEnd(n: nat, grain: nat, c: nat): nat { Min(ChunkBegin(n, grain, c) + ChunkGrain(n, grain), n) }

  function ChunkOf(n: nat, grain: nat, i: nat): nat { i / ChunkGrain(n, grain) }

  /** The task numbers 0..n, from which a loop may draw in any order. */
  function TaskSet(n: nat): (tasks: set<nat>)
    ensures forall t: nat :: t in tasks <==> t < n
  {
    if n == 0 then {} else TaskSet(n - 1) + {n - 1}
  }

  /** At most MAX_CHUNKS chunks, so a fixed table of that size holds one slot a chunk. */
  lemma ChunkCountBound(n: nat, grain: nat)
    ensures ChunkCount(n, grain) <= MAX_CHUNKS
    ensures n <= ChunkCount(n, grain) * ChunkGrain(n, grain)
    ensures n > 0 ==> ChunkCount(n, grain) > 0 && (ChunkCount(n, grain) - 1) * ChunkGrain(n, grain) < n
  {
    var g := ChunkGrain(n, grain);
    CeilDivLeast(n, MAX_CHUNKS);
    CeilDivLeast(n, g);
    TimesMonotone(MAX_CHUNKS, CeilDiv(n, MAX_CHUNKS), g);
    CeilDivAtMost(n, g, MAX_CHUNKS);
  }

  lemma ChunkInside(n: nat, grain: nat, c: nat)
    requires c < ChunkCount(n, grain)
    ensures ChunkBegin(n, grain, c) < ChunkEnd(n, grain, c) <= n
  {
    ChunkCountBound(n, grain);
    TimesLeft(c, ChunkCount(n, grain) - 1, ChunkGrain(n, grain));
  }

  /** Each index lies in exactly one chunk. */
  lemma ChunkOwner(n: nat, grain: nat, i: nat)
    requires i < n
    ensures ChunkOf(n, grain, i) < ChunkCount(n, grain)
    ensures forall c: nat :: c < ChunkCount(n, grain) ==>
      (ChunkBegin(n, grain, c) <= i < ChunkEnd(n, grain, c) <==> c == ChunkOf(n, grain, i))
  {
    var g := ChunkGrain(n, grain);
    ChunkCountBound(n, grain);
    DivisionBounds(i, g);
    TimesLess(i / g, ChunkCount(n, grain), g);
    forall c: nat | c < ChunkCount(n, grain)
      ensures ChunkBegin(n, grain, c) <= i < ChunkEnd(n, grain, c) <==> c == ChunkOf(n, grain, i)
    {
      OwnerUnique(i, g, c);
    }
  }

  lemma ChunksAll(n: nat, grain: nat)
    ensures forall i: nat :: i < n ==> ChunkOf(n, grain, i) < ChunkCount(n, grain)
  {
    forall i: nat | i < n ensures ChunkOf(n, grain, i) < ChunkCount(n, grain) {
      ChunkOwner(n, grain, i);
    }
  }

  lemma OwnerUnique(i: nat, g: nat, c: nat)
    requires g > 0
    ensures c * g <= i < c * g + g <==> c == i / g
  {
    DivisionBounds(i, g);
    if c * g <= i < c * g + g {
      QuotientUnique(i, g, c);
    }
  }

  lemma TimesLeft(a: nat, b: nat, d: nat)
    requires a <= b
    ensures a * d <= b * d
  {
  }

  lemma TimesMonotone(k: nat, a: nat, b: nat)
    requires a <= b
    ensures k * a <= k * b
  {
  }
}
