// The executor's two memories (tool/frontier_exec.py): the flat byte arena, and the
// write-back cache of device tensors keyed by byte offset that must agree with it.
// A device tensor is its little-endian bytes: moving it to the device and back loses
// nothing, which holds for the f32 and integer kinds the cache stores.
module SlotMemory {
  import opened Bytes
  import opened Corpus

  /** References at or above this are read-only data or null, never the arena. */
  const ARENA_LIMIT: nat := 0x8000_0000_0000_0000

  datatype Kind = F4 | I4 | U2 | I1

  datatype Tensor = Tensor(kind: Kind, data: seq<Byte>)

  // ------------------------------------------------------------ the flat arena

  predicate InArena(ref: nat, n: nat, size: nat) { ref < ARENA_LIMIT && ref + n <= size }

  /** ArenaMemory: a tensor is a view of the arena's bytes. */
  function ArenaRead(arena: seq<Byte>, ref: nat, n: nat, kind: Kind): Result<Tensor> {
    if !InArena(ref, n, |arena|) then Err("not in the arena") else Ok(Tensor(kind, arena[ref..ref + n]))
  }

  function ArenaWrite(arena: seq<Byte>, ref: nat, data: seq<Byte>): (after: seq<Byte>)
    ensures |after| == |arena|
  {
    if !InArena(ref, |data|, |arena|) then arena else arena[..ref] + data + arena[ref + |data|..]
  }

  // ------------------------------------------------------------------ the cache

  predicate Overlaps(a: nat, m: nat, b: nat, n: nat) { a < b + n && b < a + m }

  function Size(live: map<nat, Tensor>, s: nat): nat
    requires s in live
  {
    |live[s].data|
  }

  predicate Holds(live: map<nat, Tensor>, s: nat, p: nat)
    requires s in live
  {
    s <= p < s + Size(live, s)
  }

  /** Live tensors are non-empty, inside the arena and pairwise disjoint. */
  ghost predicate Apart(live: map<nat, Tensor>, size: nat) {
    && (forall s :: s in live ==> 0 < Size(live, s) && s + Size(live, s) <= size)
    && (forall a, b :: a in live && b in live && a < b ==> a + Size(live, a) <= b)
  }

  /** The start list is the sorted list of the live offsets. */
  ghost predicate Indexes(starts: seq<nat>, live: map<nat, Tensor>) {
    && (forall i, j :: 0 <= i < j < |starts| ==> starts[i] < starts[j])
    && (forall s :: s in starts <==> s in live)
  }

  ghost predicate Uncovered(live: map<nat, Tensor>, p: nat) {
    forall s :: s in live ==> !Holds(live, s, p)
  }

  /** The live tensors hold their bytes of the flat image. */
  ghost predicate LiveAgrees(live: map<nat, Tensor>, flat: seq<Byte>) {
    forall s, p: nat :: s in live && Holds(live, s, p) && p < |flat| ==> live[s].data[p - s] == flat[p]
  }

  /** The host bytes hold the rest, except possibly bytes [off, end). */
  ghost predicate HostAgrees(arena: seq<Byte>, live: map<nat, Tensor>, flat: seq<Byte>, off: nat, end: nat) {
    |arena| == |flat| && forall p :: 0 <= p < |flat| && !(off <= p < end) && Uncovered(live, p) ==> arena[p] == flat[p]
  }

  method BisectLeft(starts: seq<nat>, x: nat) returns (i: nat)
    requires forall i, j :: 0 <= i < j < |starts| ==> starts[i] < starts[j]
    ensures i <= |starts|
    ensures forall k :: 0 <= k < i ==> starts[k] < x
    ensures forall k :: i <= k < |starts| ==> starts[k] >= x
  {
    var lo, hi := 0, |starts|;
    while lo < hi
      invariant lo <= hi <= |starts|
      invariant forall k :: 0 <= k < lo ==> starts[k] < x
      invariant forall k :: hi <= k < |starts| ==> starts[k] >= x
    {
      var mid := (lo + hi) / 2;
      if starts[mid] < x { lo := mid + 1; } else { hi := mid; }
    }
    i := lo;
  }

  class SlotMemory {
    var arena: array<Byte>
    var live: map<nat, Tensor>
    var starts: seq<nat>
    /** The flat arena this cache stands for. */
    ghost var flat: seq<Byte>

    ghost predicate Shape() reads this, arena {
      |flat| == arena.Length <= ARENA_LIMIT && Apart(live, arena.Length) && Indexes(starts, live)
    }

    ghost predicate Valid() reads this, arena {
      Shape() && LiveAgrees(live, flat) && HostAgrees(arena[..], live, flat, 0, 0)
    }

    constructor (image: seq<Byte>)
      requires |image| <= ARENA_LIMIT
      ensures Valid() && flat == image && fresh(arena)
    {
      arena := new Byte[|image|](i requires 0 <= i < |image| => image[i]);
      live, starts, flat := map[], [], image;
      new;
      assert arena[..] == image;
    }

    /** Exactly the live tensors that overlap [off, off + n), in order; one predecessor
        and a run of successors are all that need looking at. */
    method Overlapping(off: nat, n: nat) returns (hits: seq<nat>)
      requires Shape() && n > 0
      ensures forall s :: s in hits <==> s in live && Overlaps(s, Size(live, s), off, n)
      ensures forall i, j :: 0 <= i < j < |hits| ==> hits[i] < hits[j]
    {
      var lo, from := Near(off);
      hits := starts[lo..from];
      var i := from;
      while i < |starts| && starts[i] < off + n
        invariant from <= i <= |starts| && hits == starts[lo..i]
        invariant forall k :: from <= k < i ==> starts[k] < off + n
      {
        hits := hits + [starts[i]];
        i := i + 1;
      }
      RunOverlaps(starts, live, arena.Length, off, n, lo, from, i);
    }

    /** Where the start list passes `off`, and one before it if that tensor reaches over. */
    method Near(off: nat) returns (lo: nat, from: nat)
      requires Shape()
      ensures lo <= from <= |starts| && Around(starts, live, off, lo, from)
    {
      from := BisectLeft(starts, off);
      lo := from;
      if from > 0 && starts[from - 1] + |live[starts[from - 1]].data| > off {
        lo := from - 1;
      }
    }

    /** Write a live tensor's bytes back to the host. */
    method Flush(off: nat)
      requires off in live && off + |live[off].data| <= arena.Length
      modifies arena
      ensures forall p :: 0 <= p < arena.Length ==>
        arena[p] == if Holds(live, off, p) then live[off].data[p - off] else old(arena[p])
    {
      var data := live[off].data;
      for k := 0 to |data|
        invariant forall p :: 0 <= p < arena.Length ==>
          arena[p] == if off <= p < off + k then data[p - off] else old(arena[p])
      {
        arena[off + k] := data[k];
      }
    }

    /** Forget one live tensor, after writing it back if any of its bytes outlive the
        range [off, off + n) or the range is only being read. */
    method EvictOne(start: nat, off: nat, n: nat, flush: bool)
      requires Shape() && start in live && LiveAgrees(live, flat)
      requires HostAgrees(arena[..], live, flat, off, if flush then off else off + n)
      modifies `live, `starts, arena
      ensures Shape() && live == old(live) - {start} && LiveAgrees(live, flat)
      ensures HostAgrees(arena[..], live, flat, off, if flush then off else off + n)
    {
      var size := |live[start].data|;
      if flush || start < off || start + size > off + n {
        Flush(start);
      }
      HostForgets(old(arena[..]), arena[..], live, start, flat, off, if flush then off else off + n);
      DropStart(start);
    }

    method DropStart(start: nat)
      requires Shape() && start in live && LiveAgrees(live, flat)
      modifies `live, `starts
      ensures Shape() && live == old(live) - {start} && LiveAgrees(live, flat)
    {
      var i := BisectLeft(starts, start);
      RemoveAt(starts, i, start, live, live - {start});
      Fewer(live, start, flat, arena.Length);
      live := live - {start};
      starts := starts[..i] + starts[i + 1..];
    }

    /** Make room for [off, off + n): afterwards no live tensor overlaps it. */
    method Evict(off: nat, n: nat, flush: bool)
      requires Valid() && n > 0
      modifies `live, `starts, arena
      ensures Shape() && LiveAgrees(live, flat)
      ensures HostAgrees(arena[..], live, flat, off, if flush then off else off + n)
      ensures forall s :: s in live ==> !Overlaps(s, Size(live, s), off, n)
    {
      var hits := Overlapping(off, n);
      ghost var all := live;
      for k := 0 to |hits|
        invariant Shape() && LiveAgrees(live, flat)
        invariant HostAgrees(arena[..], live, flat, off, if flush then off else off + n)
        invariant forall s :: s in live <==> s in all && s !in hits[..k]
        invariant forall s :: s in live ==> live[s] == all[s]
      {
        assert hits[k] in hits && hits[..k + 1] == hits[..k] + [hits[k]];
        EvictOne(hits[k], off, n, flush);
      }
      assert hits[..|hits|] == hits;
    }

    /** A new live tensor where no other one lies. */
    method Insert(off: nat, t: Tensor)
      requires Shape() && t.data != [] && off + |t.data| <= arena.Length
      requires forall s :: s in live ==> !Overlaps(s, Size(live, s), off, |t.data|)
      modifies `live, `starts
      ensures Shape() && live == old(live)[off := t]
    {
      assert off !in live;
      var i := BisectLeft(starts, off);
      InsertAt(starts, i, off, live, live[off := t]);
      live := live[off := t];
      starts := starts[..i] + [off] + starts[i..];
    }
  
    /** A read: an exact hit is served from the device, anything else from the host after
        the tensors it overlaps are written back. Either way it is the flat arena's answer. */
    method Read(ref: nat, n: nat, kind: Kind) returns (r: Result<Tensor>)
      requires Valid() && n > 0
      modifies `live, `starts, arena
      ensures Valid() && flat == old(flat) && r == ArenaRead(flat, ref, n, kind)
    {
      if ref in live && |live[ref].data| == n && live[ref].kind == kind {
        HitIsFlat(live, ref, flat);
        return Ok(live[ref]);
      }
      if ref >= ARENA_LIMIT { return Err("not in the arena"); }
      if ref + n > arena.Length { return Err("not in the arena"); }
      Evict(ref, n, true);
      var t := Tensor(kind, arena[ref..ref + n]);
      NothingOver(live, ref, n);
      assert t.data == flat[ref..ref + n];
      InsertAgrees(arena[..], live, ref, t, flat, ref);
      Insert(ref, t);
      r := Ok(t);
    }

    /** A write replaces the range: overlapped tensors go, their outlying bytes written
        back, and the new tensor lives. */
    method Write(ref: nat, data: seq<Byte>) returns (ok: bool)
      requires Valid() && data != []
      modifies `live, `starts, `flat, arena
      ensures Valid() && flat == ArenaWrite(old(flat), ref, data) && ok == InArena(ref, |data|, |flat|)
    {
      ok := ref < ARENA_LIMIT && ref + |data| <= arena.Length;
      if !ok { return; }
      Evict(ref, |data|, false);
      var t := Tensor(F4, data);
      ghost var next := ArenaWrite(flat, ref, data);
      NothingOver(live, ref, |data|);
      RangeReplaced(arena[..], live, ref, data, flat, next);
      flat := next;
      InsertAgrees(arena[..], live, ref, t, flat, ref + |data|);
      Insert(ref, t);
    }

    /** Host bytes staged over a range. */
    method Stage(ref: nat, payload: seq<Byte>)
      requires Valid() && payload != [] && InArena(ref, |payload|, |flat|)
      modifies `live, `starts, `flat, arena
      ensures Valid() && flat == ArenaWrite(old(flat), ref, payload)
    {
      Evict(ref, |payload|, false);
      ghost var next := ArenaWrite(flat, ref, payload);
      NothingOver(live, ref, |payload|);
      RangeReplaced(arena[..], live, ref, payload, flat, next);
      flat := next;
      CopyIn(ref, payload);
    }

    method CopyIn(ref: nat, payload: seq<Byte>)
      requires ref + |payload| <= arena.Length
      modifies arena
      ensures forall p :: 0 <= p < arena.Length ==>
        arena[p] == if ref <= p < ref + |payload| then payload[p - ref] else old(arena[p])
    {
      for k := 0 to |payload|
        invariant forall p :: 0 <= p < arena.Length ==>
          arena[p] == if ref <= p < ref + k then payload[p - ref] else old(arena[p])
      {
        arena[ref + k] := payload[k];
      }
    }

    /** The image: every live tensor written back, all of them still live. */
    method Export() returns (image: seq<Byte>)
      requires Valid()
      modifies arena
      ensures Valid() && image == flat == arena[..]
    {
      var left := starts;
      while left != []
        invariant Valid() && (forall s :: s in left ==> s in live)
        invariant forall s, p: nat :: s in live && s !in left && Holds(live, s, p) && p < arena.Length ==> arena[p] == flat[p]
        decreases |left|
      {
        ghost var was := arena[..];
        Flush(left[0]);
        FlushAgrees(was, arena[..], live, left[0], flat);
        left := left[1..];
      }
      forall p | 0 <= p < arena.Length ensures arena[p] == flat[p] {
        if s :| s in live && Holds(live, s, p) {
          assert s !in left;
        } else {
          assert Uncovered(live, p);
        }
      }
      image := arena[..];
    }

    /** A whole new image; nothing stays live. */
    method Adopt(image: seq<Byte>)
      requires Valid() && |image| == arena.Length
      modifies `live, `starts, `flat, arena
      ensures Valid() && flat == image
    {
      live, starts, flat := map[], [], image;
      CopyIn(0, image);
    }
  }

  lemma HitIsFlat(live: map<nat, Tensor>, ref: nat, flat: seq<Byte>)
    requires ref in live && LiveAgrees(live, flat) && Apart(live, |flat|)
    ensures ref + Size(live, ref) <= |flat| && live[ref].data == flat[ref..ref + Size(live, ref)]
  {
    forall k | 0 <= k < Size(live, ref) ensures live[ref].data[k] == flat[ref + k] {
      var p := ref + k;
      assert Holds(live, ref, p) && p - ref == k;
    }
  }

  lemma NothingOver(live: map<nat, Tensor>, off: nat, n: nat)
    requires forall s :: s in live ==> !Overlaps(s, Size(live, s), off, n)
    ensures forall p: nat :: off <= p < off + n ==> Uncovered(live, p)
  {
  }

  /** A tensor put where nothing lives, equal to the flat bytes there. */
  lemma InsertAgrees(arena: seq<Byte>, live: map<nat, Tensor>, off: nat, t: Tensor, flat: seq<Byte>, end: nat)
    requires off !in live && off + |t.data| <= |flat| && t.data == flat[off..off + |t.data|]
    requires LiveAgrees(live, flat) && HostAgrees(arena, live, flat, off, end) && off <= end <= off + |t.data|
    ensures LiveAgrees(live[off := t], flat) && HostAgrees(arena, live[off := t], flat, 0, 0)
  {
    var after := live[off := t];
    forall p: nat | p < |flat| && Uncovered(after, p) ensures arena[p] == flat[p] {
      assert off in after && !Holds(after, off, p);
      forall s | s in live ensures !Holds(live, s, p) {
        assert s in after && !Holds(after, s, p);
      }
    }
    forall s, p: nat | s in after && Holds(after, s, p) && p < |flat| ensures after[s].data[p - s] == flat[p] {
      if s != off {
        assert Holds(live, s, p);
      }
    }
  }

  /** Replacing a range nothing lives in. */
  lemma RangeReplaced(arena: seq<Byte>, live: map<nat, Tensor>, off: nat, data: seq<Byte>, flat: seq<Byte>, next: seq<Byte>)
    requires off + |data| <= |flat| && next == flat[..off] + data + flat[off + |data|..]
    requires forall p: nat :: off <= p < off + |data| ==> Uncovered(live, p)
    requires LiveAgrees(live, flat) && HostAgrees(arena, live, flat, off, off + |data|)
    ensures LiveAgrees(live, next) && HostAgrees(arena, live, next, off, off + |data|)
    ensures next[off..off + |data|] == data
  {
    forall s, p: nat | s in live && Holds(live, s, p) && p < |next| ensures live[s].data[p - s] == next[p] {
      assert !Uncovered(live, p);
    }
  }

  lemma FlushAgrees(before: seq<Byte>, after: seq<Byte>, live: map<nat, Tensor>, start: nat, flat: seq<Byte>)
    requires start in live && LiveAgrees(live, flat) && HostAgrees(before, live, flat, 0, 0) && |after| == |before|
    requires forall p: nat :: p < |after| ==> after[p] == if Holds(live, start, p) then live[start].data[p - start] else before[p]
    ensures HostAgrees(after, live, flat, 0, 0)
    ensures forall p: nat :: p < |after| && (Holds(live, start, p) || before[p] == flat[p]) ==> after[p] == flat[p]
  {
  }

  lemma Fewer(live: map<nat, Tensor>, start: nat, flat: seq<Byte>, size: nat)
    requires start in live && Apart(live, size) && LiveAgrees(live, flat)
    ensures Apart(live - {start}, size) && LiveAgrees(live - {start}, flat)
  {
    var after := live - {start};
    forall s, p: nat | s in after && Holds(after, s, p) && p < |flat| ensures after[s].data[p - s] == flat[p] {
      assert Holds(live, s, p);
    }
  }

  /** The host still agrees once a tensor is forgotten: its bytes were written back, or
      all of them lie in the range about to be replaced. */
  lemma HostForgets(before: seq<Byte>, after: seq<Byte>, live: map<nat, Tensor>, start: nat, flat: seq<Byte>, off: nat, end: nat)
    requires start in live && LiveAgrees(live, flat) && HostAgrees(before, live, flat, off, end)
    requires |after| == |before|
    requires (forall p: nat :: p < |after| && !Holds(live, start, p) ==> after[p] == before[p])
    requires (forall p: nat :: p < |after| && Holds(live, start, p) ==> after[p] == live[start].data[p - start])
          || (off <= start && start + Size(live, start) <= end)
    ensures HostAgrees(after, live - {start}, flat, off, end)
  {
    var rest := live - {start};
    forall p: nat | p < |flat| && !(off <= p < end) && Uncovered(rest, p) ensures after[p] == flat[p] {
      if !Holds(live, start, p) {
        Uncover(live, start, p);
      }
    }
  }

  lemma Uncover(live: map<nat, Tensor>, start: nat, p: nat)
    requires start in live && Uncovered(live - {start}, p) && !Holds(live, start, p)
    ensures Uncovered(live, p)
  {
    forall s | s in live ensures !Holds(live, s, p) {
      if s != start {
        assert s in live - {start} && !Holds(live - {start}, s, p);
      }
    }
  }

  ghost predicate Around(starts: seq<nat>, live: map<nat, Tensor>, off: nat, lo: nat, from: nat) {
    && from <= |starts| && (forall k :: 0 <= k < |starts| ==> (starts[k] < off <==> k < from))
    && (from > 0 ==> starts[from - 1] in live)
    && lo == if from > 0 && starts[from - 1] + Size(live, starts[from - 1]) > off then from - 1 else from
  }

  /** Around the place of `off` in the start list, the tensors that overlap a range are one
      run of it: at most one predecessor, and successors up to the range's end. */
  lemma RunOverlaps(starts: seq<nat>, live: map<nat, Tensor>, size: nat, off: nat, n: nat, lo: nat, from: nat, hi: nat)
    requires Indexes(starts, live) && Apart(live, size) && n > 0 && from <= hi <= |starts|
    requires Around(starts, live, off, lo, from)
    requires forall k :: from <= k < hi ==> starts[k] < off + n
    requires hi < |starts| ==> starts[hi] >= off + n
    ensures forall s :: s in starts[lo..hi] <==> s in live && Overlaps(s, Size(live, s), off, n)
  {
    forall k | 0 <= k < |starts| ensures starts[k] in live && (Overlaps(starts[k], Size(live, starts[k]), off, n) <==> lo <= k < hi) {
      StartOverlaps(starts, live, size, off, n, lo, from, hi, k);
    }
    forall s | s in live && Overlaps(s, Size(live, s), off, n) ensures s in starts[lo..hi] {
      var k :| 0 <= k < |starts| && starts[k] == s;
      assert starts[lo..hi][k - lo] == s;
    }
  }

  lemma StartOverlaps(starts: seq<nat>, live: map<nat, Tensor>, size: nat, off: nat, n: nat, lo: nat, from: nat, hi: nat, k: nat)
    requires Indexes(starts, live) && Apart(live, size) && n > 0 && from <= hi <= |starts| && k < |starts|
    requires k < from ==> starts[k] < off
    requires k >= from ==> starts[k] >= off
    requires lo == if from > 0 && starts[from - 1] + Size(live, starts[from - 1]) > off then from - 1 else from
    requires from > 0 ==> starts[from - 1] < off
    requires from <= k < hi ==> starts[k] < off + n
    requires hi < |starts| ==> starts[hi] >= off + n
    ensures starts[k] in live && (Overlaps(starts[k], Size(live, starts[k]), off, n) <==> lo <= k < hi)
  {
    assert starts[k] in starts;
    if k < from - 1 {
      assert starts[from - 1] in starts && starts[k] < starts[from - 1];
    } else if k > hi {
      assert starts[hi] < starts[k];
    }
  }

  lemma InOrder(starts: seq<nat>, i: nat, j: nat)
    requires i <= |starts| && j < |starts| && forall a, b :: 0 <= a < b < |starts| ==> starts[a] < starts[b]
    ensures i < j ==> starts[i] < starts[j]
  {
  }

  lemma RemoveAt(starts: seq<nat>, i: nat, start: nat, before: map<nat, Tensor>, after: map<nat, Tensor>)
    requires Indexes(starts, before) && start in before && after == before - {start} && i <= |starts|
    requires forall k :: 0 <= k < i ==> starts[k] < start
    requires forall k :: i <= k < |starts| ==> starts[k] >= start
    ensures i < |starts| && starts[i] == start && Indexes(starts[..i] + starts[i + 1..], after)
  {
    var j :| 0 <= j < |starts| && starts[j] == start;
    InOrder(starts, i, j);
    var rest := starts[..i] + starts[i + 1..];
    RemoveSorted(starts, i);
    forall s | s in after ensures s in rest {
      var k :| 0 <= k < |starts| && starts[k] == s;
      assert rest[if k < i then k else k - 1] == s;
    }
  }

  lemma RemoveSorted(starts: seq<nat>, i: nat)
    requires i < |starts| && (forall a, b :: 0 <= a < b < |starts| ==> starts[a] < starts[b])
    ensures var rest := starts[..i] + starts[i + 1..];
      && (forall a, b :: 0 <= a < b < |rest| ==> rest[a] < rest[b])
      && (forall s :: s in rest ==> s != starts[i] && s in starts)
  {
    var rest := starts[..i] + starts[i + 1..];
    forall s | s in rest ensures s != starts[i] && s in starts {
      var k :| 0 <= k < |rest| && rest[k] == s;
      assert s == starts[if k < i then k else k + 1];
    }
  }

  lemma InsertAt(starts: seq<nat>, i: nat, off: nat, before: map<nat, Tensor>, after: map<nat, Tensor>)
    requires Indexes(starts, before) && off !in before && after.Keys == before.Keys + {off} && i <= |starts|
    requires forall k :: 0 <= k < i ==> starts[k] < off
    requires forall k :: i <= k < |starts| ==> starts[k] >= off
    ensures Indexes(starts[..i] + [off] + starts[i..], after)
  {
    var grown := starts[..i] + [off] + starts[i..];
    forall k | i <= k < |starts| ensures starts[k] > off {
      assert starts[k] in starts;
    }
    InsertSorted(starts, i, off);
    forall s | s in after ensures s in grown {
      if s == off {
        assert grown[i] == off;
      } else {
        var k :| 0 <= k < |starts| && starts[k] == s;
        assert grown[if k < i then k else k + 1] == s;
      }
    }
  }

  lemma InsertSorted(starts: seq<nat>, i: nat, off: nat)
    requires i <= |starts| && (forall a, b :: 0 <= a < b < |starts| ==> starts[a] < starts[b])
    requires forall k :: 0 <= k < i ==> starts[k] < off
    requires forall k :: i <= k < |starts| ==> starts[k] > off
    ensures var grown := starts[..i] + [off] + starts[i..];
      && (forall a, b :: 0 <= a < b < |grown| ==> grown[a] < grown[b])
      && (forall s :: s in grown ==> s == off || s in starts)
  {
  }

  // ------------------------------------------------------- any sequence of calls

  datatype Call = ReadAt(ref: nat, n: nat, kind: Kind) | WriteAt(ref: nat, data: seq<Byte>) | StageAt(ref: nat, data: seq<Byte>)
                | ExportAll | AdoptImage(image: seq<Byte>)

  datatype Answer = Got(r: Result<Tensor>) | Wrote(ok: bool) | Image(image: seq<Byte>) | Silent

  /** Non-empty, staged in bounds, images of the arena's size. */
  predicate Allowed(c: Call, size: nat) {
    match c
    case ReadAt(_, n, _) => n > 0
    case WriteAt(_, data) => data != []
    case StageAt(ref, data) => data != [] && InArena(ref, |data|, size)
    case ExportAll => true
    case AdoptImage(image) => |image| == size
  }

  /** One call on the flat arena. */
  function ArenaCall(flat: seq<Byte>, c: Call): (seq<Byte>, Answer) {
    match c
    case ReadAt(ref, n, kind) => (flat, Got(ArenaRead(flat, ref, n, kind)))
    case WriteAt(ref, data) => (ArenaWrite(flat, ref, data), Wrote(InArena(ref, |data|, |flat|)))
    case StageAt(ref, data) => (ArenaWrite(flat, ref, data), Silent)
    case ExportAll => (flat, Image(flat))
    case AdoptImage(image) => (image, Silent)
  }

  function ArenaCalls(flat: seq<Byte>, calls: seq<Call>): (r: (seq<Byte>, seq<Answer>)) {
    if calls == [] then (flat, [])
    else
      var (before, answers) := ArenaCalls(flat, calls[..|calls| - 1]);
      var (after, answer) := ArenaCall(before, calls[|calls| - 1]);
      (after, answers + [answer])
  }

  method CallOne(m: SlotMemory, c: Call) returns (a: Answer)
    requires m.Valid() && Allowed(c, |m.flat|)
    modifies m, m.arena
    ensures m.Valid() && m.arena == old(m.arena) && (m.flat, a) == ArenaCall(old(m.flat), c)
  {
    match c
    case ReadAt(ref, n, kind) => var r := m.Read(ref, n, kind); a := Got(r);
    case WriteAt(ref, data) => var ok := m.Write(ref, data); a := Wrote(ok);
    case StageAt(ref, data) => m.Stage(ref, data); a := Silent;
    case ExportAll => var image := m.Export(); a := Image(image);
    case AdoptImage(image) => m.Adopt(image); a := Silent;
  }

  /** Over every sequence of calls the cache gives the flat arena's answers. */
  method Replay(m: SlotMemory, calls: seq<Call>) returns (answers: seq<Answer>)
    requires m.Valid() && forall k :: 0 <= k < |calls| ==> Allowed(calls[k], |m.flat|)
    modifies m, m.arena
    ensures m.Valid() && (m.flat, answers) == ArenaCalls(old(m.flat), calls)
  {
    answers := [];
    var k := 0;
    while k < |calls|
      invariant k <= |calls| && m.Valid() && m.arena == old(m.arena)
      invariant (m.flat, answers) == ArenaCalls(old(m.flat), calls[..k])
    {
      var answer := CallOne(m, calls[k]);
      assert calls[..k + 1][..k] == calls[..k];
      answers := answers + [answer];
      k := k + 1;
    }
    assert calls[..k] == calls;
  }
}
