/**
  The weighted pick.  The weights are live cells, so the two passes of `Pick` may read different values:
  `first` and `second` are what each pass read.  Sums are 32-bit.
 */
module Mixer {
  import opened Basics

  type int32 = x: int | -0x8000_0000 <= x < 0x8000_0000

  /** Two's-complement wrap-around of `+=` on an int32. */
  function Wrap32(x: int): int32 {
    (x + 0x8000_0000) % TWO32 - 0x8000_0000
  }

  function Pos(w: int): nat {
    if w > 0 then w else 0
  }

  function PosSum(ws: seq<int32>): nat {
    if ws == [] then 0 else PosSum(ws[..|ws| - 1]) + Pos(ws[|ws| - 1])
  }

  /** The slot the walk stops at, if it stops. */
  function Walk(ws: seq<int32>, r: nat): Option<nat> {
    if ws == [] then None
    else if r < PosSum(ws[..|ws| - 1]) then Walk(ws[..|ws| - 1], r)
    else if r < PosSum(ws) then Some(|ws| - 1)
    else None
  }

  datatype Outcome = NoGenerator | Chosen(slot: nat) | DrawPanics

  /** What `Pick` returns, as a function of the reads. */
  function PickOutcome(first: seq<int32>, second: seq<int32>, seed: nat): Outcome
    requires |first| == |second|
  {
    var total := Wrap32(PosSum(first));
    if total == 0 then NoGenerator
    else if total < 0 then DrawPanics
    else match Walk(second, seed % total)
         case Some(k) => Chosen(k)
         case None => if second == [] then NoGenerator else Chosen(|second| - 1)
  }

  /** `IntN` panics for a negative bound; `seed % total` stands for its result otherwise. */
  method Pick(first: seq<int32>, second: seq<int32>, seed: nat) returns (o: Outcome)
    requires |first| == |second|
    ensures o == PickOutcome(first, second, seed)
  {
    var total: int32 := 0;
    for i := 0 to |first|
      invariant total == Wrap32(PosSum(first[..i]))
    {
      assert first[..i + 1][..i] == first[..i];
      var w := first[i];
      if w > 0 {
        total := Wrap32(total + w);
      }
    }
    assert first[..|first|] == first;
    if total == 0 {
      return NoGenerator;
    }
    if total < 0 {
      return DrawPanics;
    }
    var r: int32 := seed % total;
    ghost var drawn := r;
    for i := 0 to |second|
      invariant 0 <= r && drawn == PosSum(second[..i]) + r
    {
      assert second[..i + 1][..i] == second[..i];
      var w := second[i];
      if w <= 0 {
        continue;
      }
      if r < w {
        WalkStopsHere(second, i, drawn);
        return Chosen(i);
      }
      r := r - w;
    }
    assert second[..|second|] == second;
    WalkEndsAtSum(second, drawn);
    return Chosen(|second| - 1);
  }

  lemma {:induction false} PosSumGrows(ws: seq<int32>, i: nat)
    requires i <= |ws|
    ensures PosSum(ws[..i]) <= PosSum(ws)
    decreases |ws|
  {
    if i < |ws| {
      PosSumGrows(ws[..|ws| - 1], i);
      assert ws[..|ws| - 1][..i] == ws[..i];
    } else {
      assert ws[..i] == ws;
    }
  }

  /** The walk stops at slot `i` exactly on the draws the earlier slots leave to it. */
  lemma {:induction false} WalkStopsHere(ws: seq<int32>, i: nat, r: nat)
    requires i < |ws|
    ensures Walk(ws, r) == Some(i) <==> PosSum(ws[..i]) <= r < PosSum(ws[..i + 1])
    decreases |ws|
  {
    var n := |ws| - 1;
    if i < n {
      assert ws[..n][..i] == ws[..i] && ws[..n][..i + 1] == ws[..i + 1];
      PosSumGrows(ws[..n], i + 1);
      WalkStopsHere(ws[..n], i, r);
    } else {
      assert ws[..i + 1] == ws;
      WalkInRange(ws[..n], r);
    }
  }

  lemma {:induction false} WalkInRange(ws: seq<int32>, r: nat)
    ensures Walk(ws, r).Some? ==> Walk(ws, r).value < |ws|
  {
    if ws != [] { WalkInRange(ws[..|ws| - 1], r); }
  }

  /** The walk runs off the end exactly when the draw is not below the sum it walked over. */
  lemma {:induction false} WalkEndsAtSum(ws: seq<int32>, r: nat)
    ensures Walk(ws, r) == None <==> r >= PosSum(ws)
    ensures Walk(ws, r).Some? ==> Walk(ws, r).value < |ws| && ws[Walk(ws, r).value] > 0
  {
    if ws != [] { WalkEndsAtSum(ws[..|ws| - 1], r); }
  }

  // --------------------------------------------------------------- bag form

  function Repeat<T>(x: T, n: nat): seq<T> {
    seq(n, _ => x)
  }

  /** Slot `i`, as often as its weight says, for every slot in order. */
  function Bag(ws: seq<int32>): (bag: seq<nat>)
    ensures |bag| == PosSum(ws)
  {
    if ws == [] then []
    else Bag(ws[..|ws| - 1]) + Repeat(|ws| - 1, Pos(ws[|ws| - 1]))
  }

  /** The subtractive walk is uniform indexing into the bag. */
  lemma {:induction false} WalkIndexesBag(ws: seq<int32>, r: nat)
    ensures Walk(ws, r) == if r < |Bag(ws)| then Some(Bag(ws)[r]) else None
  {
    if ws != [] { WalkIndexesBag(ws[..|ws| - 1], r); }
  }

  lemma {:induction false} RepeatCount<T>(x: T, n: nat, y: T)
    ensures multiset(Repeat(x, n))[y] == if x == y then n else 0
  {
    if n > 0 {
      RepeatCount(x, n - 1, y);
      assert Repeat(x, n) == Repeat(x, n - 1) + [x];
    } else {
      assert Repeat(x, n) == [];
    }
  }

  lemma {:induction false} BagCount(ws: seq<int32>, i: nat)
    ensures multiset(Bag(ws))[i] == if i < |ws| && ws[i] > 0 then ws[i] else 0
  {
    if ws != [] {
      var n := |ws| - 1;
      BagCount(ws[..n], i);
      RepeatCount(n, Pos(ws[n]), i);
      assert multiset(Bag(ws))[i] == multiset(Bag(ws[..n]))[i] + multiset(Repeat(n, Pos(ws[n])))[i];
    }
  }

  predicate Between(lo: nat, r: nat, hi: nat) {
    lo <= r < hi
  }

  lemma {:induction false} IntervalSize(lo: nat, hi: nat)
    requires lo <= hi
    ensures |set r: nat | r < hi && Between(lo, r, hi)| == hi - lo
    decreases hi
  {
    var s := set r: nat | r < hi && Between(lo, r, hi);
    if lo == hi {
      assert s == {};
    } else {
      var top := hi - 1;
      IntervalSize(lo, top);
      assert s == (set r: nat | r < top && Between(lo, r, top)) + {top};
    }
  }

  /** The draws in [0, total) that lead to slot `i`. */
  function Share(ws: seq<int32>, i: nat): set<nat> {
    set r: nat | r < PosSum(ws) && Walk(ws, r) == Some(i)
  }

  /** Every slot gets as many draws as its weight says. */
  lemma SlotGetsItsWeight(ws: seq<int32>, i: nat)
    requires i < |ws|
    ensures |Share(ws, i)| == if ws[i] > 0 then ws[i] else 0
  {
    var lo, hi := PosSum(ws[..i]), PosSum(ws[..i + 1]);
    PosSumGrows(ws, i + 1);
    assert ws[..i + 1][..i] == ws[..i];
    assert hi == lo + Pos(ws[i]);
    forall r: nat ensures Walk(ws, r) == Some(i) <==> Between(lo, r, hi) {
      WalkStopsHere(ws, i, r);
    }
    var interval := set r: nat | r < hi && Between(lo, r, hi);
    assert Share(ws, i) == interval;
    IntervalSize(lo, hi);
  }

  /** With steady weights that fit an int32, the pick is the bag entry of the draw. */
  lemma {:induction false} SteadyPick(ws: seq<int32>, seed: nat)
    requires PosSum(ws) < 0x8000_0000
    ensures PickOutcome(ws, ws, seed) ==
            if PosSum(ws) == 0 then NoGenerator else Chosen(Bag(ws)[seed % PosSum(ws)])
    ensures PosSum(ws) > 0 ==> Walk(ws, seed % PosSum(ws)).Some?
  {
    if PosSum(ws) > 0 { WalkIndexesBag(ws, seed % PosSum(ws)); }
  }

  /** With racing weights the pick is still a configured slot, and the last one only by default. */
  lemma RacingPick(first: seq<int32>, second: seq<int32>, seed: nat)
    requires |first| == |second| && Wrap32(PosSum(first)) > 0
    ensures var o := PickOutcome(first, second, seed);
            var r := seed % Wrap32(PosSum(first));
            && o.Chosen? && o.slot < |second|
            && (r < PosSum(second) ==> second[o.slot] > 0)
            && (r >= PosSum(second) ==> o.slot == |second| - 1)
            && (Walk(second, r) == None <==> r >= PosSum(second))
  {
    WalkEndsAtSum(second, seed % Wrap32(PosSum(first)));
  }

  lemma WrapSign(x: nat)
    ensures Wrap32(x) == 0 <==> x % TWO32 == 0
    ensures Wrap32(x) < 0 <==> x % TWO32 >= 0x8000_0000
  {
    var q, m := x / TWO32, x % TWO32;
    assert x + 0x8000_0000 == TWO32 * q + (m + 0x8000_0000);
    if m < 0x8000_0000 {
      assert (x + 0x8000_0000) % TWO32 == m + 0x8000_0000;
    } else {
      assert (x + 0x8000_0000) % TWO32 == m - 0x8000_0000;
    }
  }

  /** Outside the int32 range the two documented outcomes break down, exactly here. */
  lemma {:induction false} WideWeights(first: seq<int32>, second: seq<int32>, seed: nat)
    requires |first| == |second|
    ensures PickOutcome(first, second, seed).NoGenerator? <==> PosSum(first) % TWO32 == 0
    ensures PickOutcome(first, second, seed).DrawPanics? <==> PosSum(first) % TWO32 >= 0x8000_0000
  {
    WrapSign(PosSum(first));
    WalkEndsAtSum(second, 0);
  }

  // ------------------------------------------------- who gets the draws of `Pick`

  /** How many draws `Pick` chooses from. */
  function Drawn(ws: seq<int32>): nat {
    Pos(Wrap32(PosSum(ws)))
  }

  /** The draws of `Pick` that lead to slot `i`. */
  function PickShare(ws: seq<int32>, i: nat): set<nat> {
    set r: nat | r < Drawn(ws) && PickOutcome(ws, ws, r) == Chosen(i)
  }

  lemma WrapIsBelow(x: nat)
    ensures Wrap32(x) <= x
    ensures x < 0x8000_0000 <==> Wrap32(x) == x
  {
    var q, y := (x + 0x8000_0000) / TWO32, x + 0x8000_0000;
    assert y == TWO32 * q + y % TWO32;
  }

  lemma SmallMod(r: nat, total: nat)
    requires r < total
    ensures r % total == r
  {}

  /** Draws below the wrapped sum follow the walk. */
  lemma {:induction false} DrawFollowsWalk(ws: seq<int32>, i: nat, r: nat)
    requires r < Drawn(ws)
    ensures r < PosSum(ws)
    ensures PickOutcome(ws, ws, r) == Chosen(i) <==> Walk(ws, r) == Some(i)
  {
    WrapIsBelow(PosSum(ws));
    WalkEndsAtSum(ws, r);
    SmallMod(r, Drawn(ws));
  }

  /** For all weights: a slot gets the part of its interval that lies below the wrapped sum. */
  lemma {:induction false} PickShareSize(ws: seq<int32>, i: nat)
    requires i < |ws|
    ensures var lo, hi := PosSum(ws[..i]), PosSum(ws[..i + 1]);
            |PickShare(ws, i)| == Pos((if hi <= Drawn(ws) then hi else Drawn(ws)) - lo)
  {
    var lo, hi := PosSum(ws[..i]), PosSum(ws[..i + 1]);
    var end := if hi <= Drawn(ws) then hi else Drawn(ws);
    forall r: nat | r < Drawn(ws)
      ensures PickOutcome(ws, ws, r) == Chosen(i) <==> Between(lo, r, end)
    {
      DrawFollowsWalk(ws, i, r);
      WalkStopsHere(ws, i, r);
    }
    if lo <= end {
      assert PickShare(ws, i) == set r: nat | r < end && Between(lo, r, end);
      IntervalSize(lo, end);
    } else {
      assert PickShare(ws, i) == {};
    }
  }

  /** A sum beyond the int32 range takes a draw away from some slot. */
  lemma {:induction false} WideSumStarves(ws: seq<int32>) returns (k: nat)
    requires PosSum(ws) >= 0x8000_0000
    ensures k < |ws| && |PickShare(ws, k)| < if ws[k] > 0 then ws[k] else 0
  {
    var lost := Drawn(ws);
    WrapIsBelow(PosSum(ws));
    WalkEndsAtSum(ws, lost);
    k := Walk(ws, lost).value;
    WalkStopsHere(ws, k, lost);
    PickShareSize(ws, k);
    assert ws[..k + 1][..k] == ws[..k];
  }

  /** Every slot gets its weight of the draws of `Pick` exactly when the sum fits an int32. */
  lemma {:induction false} FairIffSumFits(ws: seq<int32>)
    ensures (forall i | 0 <= i < |ws| :: |PickShare(ws, i)| == if ws[i] > 0 then ws[i] else 0)
            <==> PosSum(ws) < 0x8000_0000
  {
    if PosSum(ws) < 0x8000_0000 {
      forall i | 0 <= i < |ws| ensures |PickShare(ws, i)| == if ws[i] > 0 then ws[i] else 0 {
        WrapIsBelow(PosSum(ws));
        PosSumGrows(ws, i + 1);
        assert ws[..i + 1][..i] == ws[..i];
        PickShareSize(ws, i);
      }
    } else {
      var k := WideSumStarves(ws);
    }
  }

  lemma WideWeightsExist()
    ensures PickOutcome([0x7fff_ffff, 1], [0x7fff_ffff, 1], 0).DrawPanics?
    ensures PickOutcome([0x4000_0000, 0x4000_0000, 0x4000_0000, 0x4000_0000],
                        [0x4000_0000, 0x4000_0000, 0x4000_0000, 0x4000_0000], 0).NoGenerator?
  {
    var a: seq<int32> := [0x7fff_ffff, 1];
    assert a[..1] == [0x7fff_ffff] && a[..1][..0] == [];
    assert PosSum(a) == 0x8000_0000;
    var b: seq<int32> := [0x4000_0000, 0x4000_0000, 0x4000_0000, 0x4000_0000];
    assert b[..3][..2] == b[..2] && b[..2][..1] == b[..1] && b[..1][..0] == [];
    assert PosSum(b[..1]) == 0x4000_0000;
    assert PosSum(b[..2]) == 0x8000_0000;
    assert PosSum(b[..3]) == 0xc000_0000;
    assert PosSum(b) == TWO32;
  }

  /** Three positive weights of which only the first is ever picked: their sum wraps to 1. */
  lemma StarvedSlotsExist(seed: nat)
    ensures var ws: seq<int32> := [0x7fff_ffff, 0x7fff_ffff, 3];
            PickOutcome(ws, ws, seed) == Chosen(0)
  {
    var ws: seq<int32> := [0x7fff_ffff, 0x7fff_ffff, 3];
    assert ws[..2][..1] == ws[..1] && ws[..1][..0] == [];
    assert PosSum(ws[..1]) == 0x7fff_ffff;
    assert PosSum(ws[..2]) == 0xffff_fffe;
    assert Wrap32(PosSum(ws)) == 1;
    WalkStopsHere(ws, 0, 0);
  }
}
