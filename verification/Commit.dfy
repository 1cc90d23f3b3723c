// The commit of merged deltas into a model file (runtime/dispatcher/update_engine.cc,
// CommitToModel): read, add and write back in bounded chunks.
module Commit {
  import opened Scalar
  import opened Corpus
  import opened Rows

  const CHUNK_FLOATS: nat := 65536

  /** A byte of the file: as it was, or byte k of the float sum of four bytes and a delta. */
  datatype Cell = Original(w: W) | SumByte(base: seq<Cell>, delta: F, k: nat)

  /** An emit entry: where its f32 weights lie in the file, its size in bytes, its deltas. */
  datatype Entry = Entry(offset: nat, size: nat, deltas: seq<F>)

  function End(e: Entry): nat { e.offset + e.size }

  /** RangeOk and whole floats, for every entry. */
  predicate InFile(entries: seq<Entry>, size: nat) { FirstFit(entries, |entries|, size) }

  predicate FirstFit(entries: seq<Entry>, n: nat, size: nat) {
    n <= |entries| && forall k {:trigger entries[k]} :: 0 <= k < n ==> EntryFits(entries[k], size)
  }

  predicate EntryFits(e: Entry, size: nat) { End(e) <= size && e.size % 4 == 0 }

  /** The compiler's emit table: one delta a weight, no two entries over one byte. */
  predicate Tabled(entries: seq<Entry>) {
    && (forall k :: 0 <= k < |entries| ==> |entries[k].deltas| == entries[k].size / 4)
    && (forall a, b :: 0 <= a < b < |entries| ==> End(entries[a]) <= entries[b].offset || End(entries[b]) <= entries[a].offset)
  }

  /** The float at a byte of an entry, and the byte's place in it. */
  function FloatAt(e: Entry, p: nat): nat
    requires e.offset <= p
  {
    (p - e.offset) / 4
  }

  /** What an entry leaves at byte p of its range. */
  function EntryByte(file: seq<Cell>, e: Entry, p: nat): Cell
    requires e.offset <= p < End(e) <= |file| && e.size % 4 == 0 && |e.deltas| == e.size / 4
  {
    var i := FloatAt(e, p);
    var at := e.offset + 4 * i;
    SumByte(file[at..at + 4], e.deltas[i], p - at)
  }

  /** The first `floats` floats of the entry are patched; every other byte is as before. */
  ghost predicate PatchedTo(file: seq<Cell>, before: seq<Cell>, after: seq<Cell>, e: Entry, floats: nat)
    requires End(e) <= |file| && e.size % 4 == 0 && |e.deltas| == e.size / 4 && 4 * floats <= e.size
  {
    && |after| == |before| == |file|
    && (forall p :: e.offset <= p < e.offset + 4 * floats ==> after[p] == EntryByte(file, e, p))
    && (forall p :: 0 <= p < |file| && !(e.offset <= p < e.offset + 4 * floats) ==> after[p] == before[p])
  }

  /** One float read, added to and written back; `buf` is the chunk as read. */
  method PatchFloat(sidecar: array<Cell>, buf: seq<Cell>, first: nat, e: Entry, i: nat, ghost file: seq<Cell>, ghost before: seq<Cell>)
    requires sidecar.Length == |file| && End(e) <= |file| && e.size % 4 == 0 && |e.deltas| == e.size / 4
    requires first <= i < |e.deltas| && 4 * (i - first) + 4 <= |buf| && e.offset + 4 * first + |buf| <= |file|
    requires buf == file[e.offset + 4 * first..e.offset + 4 * first + |buf|]
    requires PatchedTo(file, before, sidecar[..], e, i)
    modifies sidecar
    ensures PatchedTo(file, before, sidecar[..], e, i + 1)
  {
    var at, k := e.offset + 4 * i, 4 * (i - first);
    var base := buf[k..k + 4];
    ghost var now := sidecar[..];
    SliceOfSlice(file, e.offset + 4 * first, e.offset + 4 * first + |buf|, k, k + 4, at, at + 4);
    sidecar[at] := SumByte(base, e.deltas[i], 0);
    sidecar[at + 1] := SumByte(base, e.deltas[i], 1);
    sidecar[at + 2] := SumByte(base, e.deltas[i], 2);
    sidecar[at + 3] := SumByte(base, e.deltas[i], 3);
    FloatJoins(file, before, now, sidecar[..], base, e, i, i + 1, at);
  }

  lemma FloatJoins(file: seq<Cell>, before: seq<Cell>, now: seq<Cell>, after: seq<Cell>, base: seq<Cell>, e: Entry, i: nat, next: nat, at: nat)
    requires End(e) <= |file| && e.size % 4 == 0 && |e.deltas| == e.size / 4 && i < |e.deltas| && next == i + 1
    requires PatchedTo(file, before, now, e, i) && |after| == |now| && at == e.offset + 4 * i
    requires forall p :: 0 <= p < |now| && !(at <= p < at + 4) ==> after[p] == now[p]
    requires base == file[at..at + 4]
    requires forall p :: at <= p < at + 4 ==> after[p] == SumByte(base, e.deltas[i], p - at)
    ensures PatchedTo(file, before, after, e, next)
  {
    forall p | at <= p < at + 4 ensures after[p] == EntryByte(file, e, p) {
      assert FloatAt(e, p) == i;
    }
  }

  /** One chunk: floats [i, t) of the entry. */
  method PatchChunk(sidecar: array<Cell>, e: Entry, i: nat, t: nat, ghost file: seq<Cell>, ghost before: seq<Cell>)
    requires sidecar.Length == |file| && End(e) <= |file| && e.size % 4 == 0 && |e.deltas| == e.size / 4
    requires i <= t <= |e.deltas| && PatchedTo(file, before, sidecar[..], e, i)
    requires forall p :: e.offset <= p < End(e) ==> before[p] == file[p]
    modifies sidecar
    ensures PatchedTo(file, before, sidecar[..], e, t)
  {
    var at := e.offset + 4 * i;
    var buf := sidecar[at..at + 4 * (t - i)];
    assert buf == file[at..at + 4 * (t - i)];
    var j := i;
    while j < t
      invariant i <= j <= t && PatchedTo(file, before, sidecar[..], e, j)
    {
      PatchFloat(sidecar, buf, i, e, j, file, before);
      j := j + 1;
    }
  }

  method PatchEntry(sidecar: array<Cell>, e: Entry, chunk: nat, ghost file: seq<Cell>)
    requires chunk > 0 && sidecar.Length == |file| && EntryFits(e, |file|) && |e.deltas| == e.size / 4
    requires forall p :: e.offset <= p < End(e) ==> sidecar[p] == file[p]
    modifies sidecar
    ensures PatchedTo(file, old(sidecar[..]), sidecar[..], e, |e.deltas|)
  {
    var i := 0;
    while i < |e.deltas|
      invariant i <= |e.deltas| && PatchedTo(file, old(sidecar[..]), sidecar[..], e, i)
    {
      var t := if chunk < |e.deltas| - i then i + chunk else |e.deltas|;
      PatchChunk(sidecar, e, i, t, file, old(sidecar[..]));
      i := t;
    }
  }

  predicate Covers(e: Entry, p: nat) { e.offset <= p < End(e) }

  /** The first n entries are in: their ranges hold source plus delta, every other byte
      of the file is the source's. */
  ghost predicate PatchedBy(file: seq<Cell>, result: seq<Cell>, entries: seq<Entry>, n: nat)
    requires Tabled(entries) && FirstFit(entries, n, |file|)
  {
    && |result| == |file|
    && (forall k, p :: 0 <= k < n && 0 <= p < |file| && Covers(entries[k], p) ==> result[p] == EntryByte(file, entries[k], p))
    && (forall p :: 0 <= p < |file| && (forall k :: 0 <= k < n ==> !Covers(entries[k], p)) ==> result[p] == file[p])
  }

  lemma EntryJoins(file: seq<Cell>, before: seq<Cell>, after: seq<Cell>, entries: seq<Entry>, n: nat)
    requires Tabled(entries) && FirstFit(entries, n + 1, |file|)
    requires PatchedBy(file, before, entries, n) && PatchedTo(file, before, after, entries[n], |entries[n].deltas|)
    ensures PatchedBy(file, after, entries, n + 1)
  {
    forall k, p | 0 <= k < n + 1 && 0 <= p < |file| && Covers(entries[k], p)
      ensures after[p] == EntryByte(file, entries[k], p)
    {
      if k < n {
        assert !Covers(entries[n], p);
      }
    }
    forall p | 0 <= p < |file| && (forall k :: 0 <= k < n + 1 ==> !Covers(entries[k], p))
      ensures after[p] == file[p]
    {
      assert !Covers(entries[n], p);
    }
  }

  ghost predicate Patched(file: seq<Cell>, result: seq<Cell>, entries: seq<Entry>)
    requires Tabled(entries) && InFile(entries, |file|)
  {
    PatchedBy(file, result, entries, |entries|)
  }

  /** A copy of the file with every entry added in, whatever the chunk size; refused when
      an entry leaves the file. */
  method PatchModel(file: seq<Cell>, entries: seq<Entry>, chunk: nat) returns (r: Result<seq<Cell>>)
    requires chunk > 0 && Tabled(entries)
    ensures r.Ok? <==> InFile(entries, |file|)
    ensures r.Ok? ==> Patched(file, r.value, entries)
  {
    var sidecar := new Cell[|file|](i requires 0 <= i < |file| => file[i]);
    assert sidecar[..] == file;
    var k := 0;
    while k < |entries|
      invariant FirstFit(entries, k, |file|)
      invariant PatchedBy(file, sidecar[..], entries, k)
    {
      var e := entries[k];
      if e.offset + e.size > |file| || e.size % 4 != 0 { return Err("emit entry exceeds the source model file"); }
      ghost var before := sidecar[..];
      StillSource(file, before, entries, k);
      PatchEntry(sidecar, e, chunk, file);
      EntryJoins(file, before, sidecar[..], entries, k);
      k := k + 1;
    }
    r := Ok(sidecar[..]);
  }

  lemma StillSource(file: seq<Cell>, before: seq<Cell>, entries: seq<Entry>, n: nat)
    requires Tabled(entries) && FirstFit(entries, n + 1, |file|)
    requires PatchedBy(file, before, entries, n)
    ensures forall p :: entries[n].offset <= p < End(entries[n]) ==> before[p] == file[p]
  {
    forall p | entries[n].offset <= p < End(entries[n]) ensures before[p] == file[p] {
      forall k | 0 <= k < n ensures !Covers(entries[k], p) {
      }
    }
  }

  /** There is one patched file: neither the chunk size nor the order of the table shows. */
  lemma PatchedOnce(file: seq<Cell>, a: seq<Cell>, b: seq<Cell>, entries: seq<Entry>, others: seq<Entry>)
    requires Tabled(entries) && InFile(entries, |file|) && Tabled(others) && InFile(others, |file|)
    requires forall e :: e in entries <==> e in others
    requires Patched(file, a, entries) && Patched(file, b, others)
    ensures a == b
  {
    forall p | 0 <= p < |file| ensures a[p] == b[p] {
      if k :| 0 <= k < |entries| && Covers(entries[k], p) {
        assert entries[k] in others;
        var l :| 0 <= l < |others| && others[l] == entries[k];
        assert Covers(others[l], p);
      } else {
        forall l | 0 <= l < |others| ensures !Covers(others[l], p) {
          assert others[l] in entries;
        }
      }
    }
  }
}
