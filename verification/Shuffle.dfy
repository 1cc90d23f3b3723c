// The seeded epoch permutations of the data feeder (runtime/pipeline/dataset.cc).
module Shuffle {
  import opened Parallel

  /** splitmix64: the generator's next state, and the number drawn with it. */
  function NextState(s: bv64): bv64 { s + 0x9E3779B97F4A7C15 }

  function Draw(s: bv64): bv64 { Fold31(Mix2(Fold27(Mix1(Fold30(NextState(s)))))) }

  function Fold30(z: bv64): bv64 { z ^ (z >> 30) }

  function Fold27(z: bv64): bv64 { z ^ (z >> 27) }

  function Fold31(z: bv64): bv64 { z ^ (z >> 31) }

  function Mix1(z: bv64): bv64 { z * 0xBF58476D1CE4E5B9 }

  function Mix2(z: bv64): bv64 { z * 0x94D049BB133111EB }

  /** The folded seed shuffling starts from; never 0, which means "off". */
  function Origin(seed: bv64): bv64 { Draw(seed) | 1 }

  lemma OriginIsNotZero(seed: bv64)
    ensures Origin(seed) != 0
  {
    hide Draw;
  }

  function Identity(n: nat): (order: seq<nat>)
    ensures |order| == n && forall i :: 0 <= i < n ==> order[i] == i
  {
    seq(n, i => i)
  }

  function Swap(order: seq<nat>, i: nat, j: nat): (r: seq<nat>)
    requires i < |order| && j < |order|
    ensures |r| == |order| && r[i] == order[j] && r[j] == order[i]
    ensures forall k :: 0 <= k < |order| && k != i && k != j ==> r[k] == order[k]
  {
    order[i := order[j]][j := order[i]]
  }

  function AsNat(x: bv64): nat { x as nat }

  /** The index position i is exchanged with. */
  function Pick(s: bv64, i: nat): nat { AsNat(Draw(s)) % (i + 1) }

  /** Fisher-Yates from position i down to 1. */
  function FisherYates(order: seq<nat>, s: bv64, i: nat): (r: (seq<nat>, bv64))
    requires i == 0 || i < |order|
    ensures |r.0| == |order|
    decreases i
  {
    if i == 0 then (order, s) else FisherYates(Swap(order, i, Pick(s, i)), NextState(s), i - 1)
  }

  // ------------------------------------------------------- what the generator can draw

  /** The published stream of the generator for seed 1234567. */
  lemma ReferenceDraws()
    ensures Draw(1234567) == 6457827717110365317
    ensures Draw(NextState(1234567)) == 3203168211198807973
    ensures Draw(NextState(NextState(1234567))) == 9817491932198370423
  {
  }

  /** The mixing steps taken back. */
  function Unfold30(x: bv64): bv64 { x ^ (x >> 30) ^ (x >> 60) }

  function Unfold27(x: bv64): bv64 { x ^ (x >> 27) ^ (x >> 54) }

  function Unfold31(x: bv64): bv64 { x ^ (x >> 31) ^ (x >> 62) }

  function Unmix1(x: bv64): bv64 { x * 0x96DE1B173F119089 }

  function Unmix2(x: bv64): bv64 { x * 0x319642B2D24D8EC3 }

  function LastState(x: bv64): bv64 { x - 0x9E3779B97F4A7C15 }

  /** The state a number is drawn from. */
  function Undraw(x: bv64): bv64 { LastState(Unfold30(Unmix1(Unfold27(Unmix2(Unfold31(x)))))) }

  // Each step and its inverse, on the expressions themselves.
  lemma FoldsOut(x: bv64)
    ensures Fold30(x ^ (x >> 30) ^ (x >> 60)) == x
    ensures Fold27(x ^ (x >> 27) ^ (x >> 54)) == x
    ensures Fold31(x ^ (x >> 31) ^ (x >> 62)) == x
  {
  }

  lemma FoldsIn(x: bv64)
    ensures Unfold30(x ^ (x >> 30)) == x
    ensures Unfold27(x ^ (x >> 27)) == x
    ensures Unfold31(x ^ (x >> 31)) == x
  {
  }

  lemma Mixes(x: bv64)
    ensures Mix1(x * 0x96DE1B173F119089) == x && Unmix1(x * 0xBF58476D1CE4E5B9) == x
    ensures Mix2(x * 0x319642B2D24D8EC3) == x && Unmix2(x * 0x94D049BB133111EB) == x
    ensures NextState(x - 0x9E3779B97F4A7C15) == x && LastState(x + 0x9E3779B97F4A7C15) == x
  {
  }

  lemma Bodies(x: bv64)
    ensures Fold30(x) == x ^ (x >> 30) && Fold27(x) == x ^ (x >> 27) && Fold31(x) == x ^ (x >> 31)
    ensures Unfold30(x) == x ^ (x >> 30) ^ (x >> 60) && Unfold27(x) == x ^ (x >> 27) ^ (x >> 54)
    ensures Unfold31(x) == x ^ (x >> 31) ^ (x >> 62)
    ensures Mix1(x) == x * 0xBF58476D1CE4E5B9 && Mix2(x) == x * 0x94D049BB133111EB
    ensures Unmix1(x) == x * 0x96DE1B173F119089 && Unmix2(x) == x * 0x319642B2D24D8EC3
    ensures NextState(x) == x + 0x9E3779B97F4A7C15 && LastState(x) == x - 0x9E3779B97F4A7C15
  {
  }

  lemma StepsInvert(x: bv64)
    ensures Fold30(Unfold30(x)) == Unfold30(Fold30(x)) == x
    ensures Fold27(Unfold27(x)) == Unfold27(Fold27(x)) == x
    ensures Fold31(Unfold31(x)) == Unfold31(Fold31(x)) == x
    ensures Mix1(Unmix1(x)) == Unmix1(Mix1(x)) == x && Mix2(Unmix2(x)) == Unmix2(Mix2(x)) == x
    ensures NextState(LastState(x)) == LastState(NextState(x)) == x
  {
    hide *;
    FoldsOut(x);
    FoldsIn(x);
    Mixes(x);
    Bodies(x);
  }

  /** Drawing is one to one: every 64-bit number is drawn from exactly one state. */
  lemma DrawIsBijection(x: bv64)
    ensures Draw(Undraw(x)) == x && Undraw(Draw(x)) == x
  {
    hide Fold30, Fold27, Fold31, Mix1, Mix2, Unfold30, Unfold27, Unfold31, Unmix1, Unmix2, NextState, LastState;
    StepsInvert(x);
    StepsInvert(Unfold31(x));
    StepsInvert(Unmix2(Unfold31(x)));
    StepsInvert(Unfold27(Unmix2(Unfold31(x))));
    StepsInvert(Unmix1(Unfold27(Unmix2(Unfold31(x)))));
    StepsInvert(Unfold30(Unmix1(Unfold27(Unmix2(Unfold31(x))))));
    StepsInvert(NextState(x));
    StepsInvert(Fold30(NextState(x)));
    StepsInvert(Mix1(Fold30(NextState(x))));
    StepsInvert(Fold27(Mix1(Fold30(NextState(x)))));
    StepsInvert(Mix2(Fold27(Mix1(Fold30(NextState(x))))));
  }

  /** So over all states the exchange partner of position i is every 64-bit number modulo i + 1. */
  lemma PickIsRemainder(x: bv64, i: nat)
    ensures Pick(Undraw(x), i) == AsNat(x) % (i + 1)
  {
    hide Draw, Undraw;
    DrawIsBijection(x);
  }

  // --------------------------------------------- what lists of exchanges can produce

  /** Partners for the positions i, i - 1, .. 1, each at most its position; picks[j] is position j + 1's. */
  predicate Partners(picks: seq<nat>, i: nat) {
    |picks| == i && forall j :: 0 <= j < i ==> picks[j] <= j + 1
  }

  /** The order after exchanging positions i down to 1 with the given partners. */
  function Exchanged(order: seq<nat>, picks: seq<nat>, i: nat): (r: seq<nat>)
    requires (i == 0 || i < |order|) && Partners(picks, i)
    ensures |r| == |order|
    decreases i
  {
    if i == 0 then order else Exchanged(Swap(order, i, picks[i - 1]), picks[..i - 1], i - 1)
  }

  /** The partners a state picks. */
  function PicksFrom(s: bv64, i: nat): (picks: seq<nat>)
    ensures Partners(picks, i)
    decreases i
  {
    if i == 0 then [] else PicksFrom(NextState(s), i - 1) + [Pick(s, i)]
  }

  lemma {:induction false} ShuffleExchanges(order: seq<nat>, s: bv64, i: nat)
    requires i == 0 || i < |order|
    ensures FisherYates(order, s, i).0 == Exchanged(order, PicksFrom(s, i), i)
    decreases i
  {
    if i > 0 {
      ShuffleExchanges(Swap(order, i, Pick(s, i)), NextState(s), i - 1);
      assert PicksFrom(s, i)[..i - 1] == PicksFrom(NextState(s), i - 1);
    }
  }

  /** Positions above i are not touched. */
  lemma {:induction false} ExchangedAbove(order: seq<nat>, picks: seq<nat>, i: nat, k: nat)
    requires (i == 0 || i < |order|) && Partners(picks, i) && i < k < |order|
    ensures Exchanged(order, picks, i)[k] == order[k]
    decreases i
  {
    if i > 0 {
      ExchangedAbove(Swap(order, i, picks[i - 1]), picks[..i - 1], i - 1, k);
    }
  }

  lemma SwapPermutes(order: seq<nat>, i: nat, j: nat)
    requires Permutation(order) && i < |order| && j < |order|
    ensures Permutation(Swap(order, i, j))
  {
  }

  /** Different lists of partners give different orders. */
  lemma {:induction false} PartnersDecide(order: seq<nat>, p: seq<nat>, q: seq<nat>, i: nat)
    requires (i == 0 || i < |order|) && Permutation(order) && Partners(p, i) && Partners(q, i)
    requires Exchanged(order, p, i) == Exchanged(order, q, i)
    ensures p == q
    decreases i
  {
    if i > 0 {
      ExchangedAt(order, p, i);
      ExchangedAt(order, q, i);
      SwapPermutes(order, i, p[i - 1]);
      PartnersDecide(Swap(order, i, p[i - 1]), p[..i - 1], q[..i - 1], i - 1);
    }
  }

  /** What ends up at the first position exchanged. */
  lemma ExchangedAt(order: seq<nat>, picks: seq<nat>, i: nat)
    requires 0 < i < |order| && Partners(picks, i)
    ensures Exchanged(order, picks, i)[i] == order[picks[i - 1]]
  {
    ExchangedAbove(Swap(order, i, picks[i - 1]), picks[..i - 1], i - 1, i);
  }

  /** And every order comes from one of them. */
  lemma {:induction false} PartnersReach(order: seq<nat>, target: seq<nat>, i: nat) returns (picks: seq<nat>)
    requires (i == 0 || i < |order|) && Permutation(order) && Permutation(target) && |target| == |order|
    requires forall k :: i < k < |order| ==> target[k] == order[k]
    ensures Partners(picks, i) && Exchanged(order, picks, i) == target
    decreases i
  {
    if i == 0 {
      picks := [];
      if |order| > 0 {
        LastPlace(order, target);
      }
    } else {
      var j := PlaceOf(order, target, i);
      SwapPermutes(order, i, j);
      var rest := PartnersReach(Swap(order, i, j), target, i - 1);
      picks := rest + [j];
      assert picks[..i - 1] == rest;
    }
  }

  /** Where the value wanted at position i stands: not above it, if everything above is in place. */
  lemma PlaceOf(order: seq<nat>, target: seq<nat>, i: nat) returns (j: nat)
    requires i < |order| == |target| && Permutation(order) && Permutation(target)
    requires forall k :: i < k < |order| ==> target[k] == order[k]
    ensures j <= i && order[j] == target[i]
  {
    PermutationCovers(order, target[i]);
    j :| 0 <= j < |order| && order[j] == target[i];
  }

  lemma LastPlace(order: seq<nat>, target: seq<nat>)
    requires 0 < |order| == |target| && Permutation(order) && Permutation(target)
    requires forall k :: 0 < k < |order| ==> target[k] == order[k]
    ensures order == target
  {
    var j := PlaceOf(order, target, 0);
  }

  /** A permutation of 0..n. */
  ghost predicate Permutation(order: seq<nat>) {
    && (forall i :: 0 <= i < |order| ==> order[i] < |order|)
    && (forall i, j :: 0 <= i < |order| && 0 <= j < |order| && order[i] == order[j] ==> i == j)
  }

  lemma {:induction false} FisherYatesPermutes(order: seq<nat>, s: bv64, i: nat)
    requires (i == 0 || i < |order|) && Permutation(order)
    ensures Permutation(FisherYates(order, s, i).0)
    decreases i
  {
    if i > 0 {
      FisherYatesPermutes(Swap(order, i, Pick(s, i)), NextState(s), i - 1);
    }
  }

  function Values(order: seq<nat>): (s: set<nat>)
    ensures forall x: nat :: x in s <==> x in order
  {
    if order == [] then {} else Values(order[..|order| - 1]) + {order[|order| - 1]}
  }

  /** A permutation leaves no index out. */
  lemma PermutationCovers(order: seq<nat>, i: nat)
    requires Permutation(order) && i < |order|
    ensures i in order
  {
    var n := |order|;
    ValuesCount(order);
    TaskCount(n);
    if i !in order {
      SubsetCount(Values(order), TaskSet(n) - {i});
    }
  }

  lemma {:induction false} TaskCount(n: nat)
    ensures |TaskSet(n)| == n
  {
    if n > 0 {
      TaskCount(n - 1);
    }
  }

  lemma {:induction false} ValuesCount(order: seq<nat>)
    requires forall i, j :: 0 <= i < |order| && 0 <= j < |order| && order[i] == order[j] ==> i == j
    ensures |Values(order)| == |order|
  {
    if order != [] {
      ValuesCount(order[..|order| - 1]);
    }
  }

  lemma {:induction false} SubsetCount(a: set<nat>, b: set<nat>)
    requires a <= b
    ensures |a| <= |b|
  {
    if a != {} {
      var x :| x in a;
      SubsetCount(a - {x}, b - {x});
    }
  }

  /** The permutation of one epoch and the generator state after drawing it,
      as a function of the origin and the epoch's number alone. */
  function Drawn(origin: bv64, n: nat, epoch: nat): (r: (seq<nat>, bv64))
    requires n > 0
    ensures |r.0| == n
  {
    if epoch == 0 then FisherYates(Identity(n), origin, n - 1)
    else FisherYates(Identity(n), Drawn(origin, n, epoch - 1).1, n - 1)
  }

  ghost predicate DrawnIs(r: (seq<nat>, bv64), origin: bv64, n: nat, epoch: nat)
    requires n > 0
  {
    r == Drawn(origin, n, epoch)
  }

  /** This order and state are those drawn for an epoch; what they are is only looked at
      where DrawnOpen says so. */
  ghost predicate IsDrawn(order: seq<nat>, state: bv64, origin: bv64, n: nat, epoch: nat)
    requires n > 0
  {
    forall r {:trigger DrawnIs(r, origin, n, epoch)} :: DrawnIs(r, origin, n, epoch) ==> r == (order, state)
  }

  lemma DrawnOpen(order: seq<nat>, state: bv64, origin: bv64, n: nat, epoch: nat)
    requires n > 0
    ensures IsDrawn(order, state, origin, n, epoch) <==> (order, state) == Drawn(origin, n, epoch)
  {
    assert DrawnIs(Drawn(origin, n, epoch), origin, n, epoch);
  }

  lemma {:induction false} DrawnPermutes(origin: bv64, n: nat, epoch: nat)
    requires n > 0
    ensures Permutation(Drawn(origin, n, epoch).0)
  {
    FisherYatesPermutes(Identity(n), if epoch == 0 then origin else Drawn(origin, n, epoch - 1).1, n - 1);
  }

  lemma DrawnNext(origin: bv64, n: nat, epoch: nat)
    requires n > 0
    ensures Drawn(origin, n, epoch + 1) == FisherYates(Identity(n), Drawn(origin, n, epoch).1, n - 1)
  {
  }

  /** A fresh permutation written over an order buffer of the same size. */
  method Redraw(buffer: seq<nat>, s: bv64) returns (order: seq<nat>, state: bv64)
    requires buffer != []
    ensures (order, state) == FisherYates(Identity(|buffer|), s, |buffer| - 1)
  {
    order := Restart(buffer);
    ghost var goal := FisherYates(Identity(|buffer|), s, |buffer| - 1);
    var i := |order| - 1;
    state := s;
    LeadsOpen(order, state, i, goal);
    while i > 0
      invariant 0 <= i < |order| == |buffer| && Leads(order, state, i, goal)
    {
      order, state := Exchange(order, state, i, i - 1, goal);
      i := i - 1;
    }
    LeadsOpen(order, state, i, goal);
  }

  /** The exchanges from position i down end in `goal`; what they are is only looked at one
      exchange at a time. */
  ghost predicate Leads(order: seq<nat>, s: bv64, i: nat, goal: (seq<nat>, bv64))
    requires i == 0 || i < |order|
  {
    forall r {:trigger Ends(order, s, i, r)} :: Ends(order, s, i, r) ==> r == goal
  }

  ghost predicate Ends(order: seq<nat>, s: bv64, i: nat, r: (seq<nat>, bv64))
    requires i == 0 || i < |order|
  {
    r == FisherYates(order, s, i)
  }

  lemma LeadsOpen(order: seq<nat>, s: bv64, i: nat, goal: (seq<nat>, bv64))
    requires i == 0 || i < |order|
    ensures Leads(order, s, i, goal) <==> FisherYates(order, s, i) == goal
  {
    assert Ends(order, s, i, FisherYates(order, s, i));
  }

  /** One exchange of the shuffle, on the way down. */
  method Exchange(order: seq<nat>, s: bv64, i: nat, ghost next: nat, ghost goal: (seq<nat>, bv64)) returns (order': seq<nat>, s': bv64)
    requires next + 1 == i < |order| && Leads(order, s, i, goal)
    ensures |order'| == |order| && Leads(order', s', next, goal)
  {
    var j := Pick(s, i);
    order', s' := Swap(order, i, j), NextState(s);
    LeadsOpen(order, s, i, goal);
    LeadsOpen(order', s', next, goal);
  }

  method Restart(buffer: seq<nat>) returns (order: seq<nat>)
    ensures order == Identity(|buffer|)
  {
    order := buffer;
    for i := 0 to |buffer|
      invariant |order| == |buffer| && forall k :: 0 <= k < i ==> order[k] == k
    {
      order := order[i := i];
    }
  }
}
