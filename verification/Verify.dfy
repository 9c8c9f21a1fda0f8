/** The metrics scraper's baseline and what the observed values mean across server restarts. */
module Verify {
  import opened Basics

  datatype Snapshot = Snapshot(processed: int, newQname: int, ignoredTotal: int,
                               cryptopanHits: int, cryptopanEvict: int, seenQnameEvict: int)
  {
    function RelativeTo(base: Snapshot): Snapshot {
      Snapshot(Clamp(processed, base.processed), Clamp(newQname, base.newQname),
               Clamp(ignoredTotal, base.ignoredTotal), Clamp(cryptopanHits, base.cryptopanHits),
               Clamp(cryptopanEvict, base.cryptopanEvict), Clamp(seenQnameEvict, base.seenQnameEvict))
    }

    predicate WentBackwards(base: Snapshot) {
      || processed < base.processed
      || newQname < base.newQname
      || ignoredTotal < base.ignoredTotal
      || cryptopanHits < base.cryptopanHits
      || cryptopanEvict < base.cryptopanEvict
      || seenQnameEvict < base.seenQnameEvict
    }

    /** Counter by counter, without a clamp. */
    function Minus(base: Snapshot): Snapshot {
      Snapshot(processed - base.processed, newQname - base.newQname, ignoredTotal - base.ignoredTotal,
               cryptopanHits - base.cryptopanHits, cryptopanEvict - base.cryptopanEvict,
               seenQnameEvict - base.seenQnameEvict)
    }

    predicate AtLeast(other: Snapshot) {
      && processed >= other.processed && newQname >= other.newQname
      && ignoredTotal >= other.ignoredTotal && cryptopanHits >= other.cryptopanHits
      && cryptopanEvict >= other.cryptopanEvict && seenQnameEvict >= other.seenQnameEvict
    }
  }

  function Clamp(a: int, b: int): int {
    if a <= b then 0 else a - b
  }

  /** `relativeTo` alone: the difference where it is positive, zero elsewhere. */
  lemma RelativeToIsClamped(snap: Snapshot, base: Snapshot)
    ensures snap.RelativeTo(base).AtLeast(NOTHING) && snap.RelativeTo(base).AtLeast(snap.Minus(base))
    ensures snap.AtLeast(base) ==> snap.RelativeTo(base) == snap.Minus(base)
    ensures base.AtLeast(snap) ==> snap.RelativeTo(base) == NOTHING
  {}

  const NOTHING := Snapshot(0, 0, 0, 0, 0, 0)

  /** `state.Observed`. */
  class Cells {
    var observed: Snapshot

    constructor ()
      ensures observed == NOTHING
    {
      observed := NOTHING;
    }
  }

  // ------------------------------------------------------ what a stream means

  /** The scrape that serves as baseline once scrape `k` has been applied. */
  function BaseIndex(snaps: seq<Snapshot>, k: nat): (b: nat)
    requires k < |snaps|
    ensures b <= k
  {
    if k == 0 then 0
    else if snaps[k].WentBackwards(snaps[BaseIndex(snaps, k - 1)]) then k
    else BaseIndex(snaps, k - 1)
  }

  function Base(snaps: seq<Snapshot>): Option<Snapshot> {
    if snaps == [] then None else Some(snaps[BaseIndex(snaps, |snaps| - 1)])
  }

  function Observed(snaps: seq<Snapshot>): Snapshot {
    if snaps == [] then NOTHING
    else snaps[|snaps| - 1].Minus(snaps[BaseIndex(snaps, |snaps| - 1)])
  }

  lemma {:induction false} BaseIndexLocal(snaps: seq<Snapshot>, more: seq<Snapshot>, k: nat)
    requires k < |snaps|
    ensures BaseIndex(snaps + more, k) == BaseIndex(snaps, k)
  {
    if k > 0 { BaseIndexLocal(snaps, more, k - 1); }
  }

  class Scraper {
    var baselineSet: bool
    var baseline: Snapshot
    ghost var seen: seq<Snapshot>      // every scrape applied so far

    /** The private fields are the baseline of the scrapes seen. */
    ghost predicate Valid()
      reads this
    {
      (if baselineSet then Some(baseline) else None) == Base(seen)
    }

    constructor ()
      ensures Valid() && seen == []
    {
      baselineSet, baseline, seen := false, NOTHING, [];
    }

    /** `apply`: after every scrape the observed cells are current minus baseline, never clamped. */
    method Apply(st: Cells, snap: Snapshot)
      requires Valid()
      modifies this, st`observed
      ensures Valid() && seen == old(seen) + [snap]
      ensures st.observed == Observed(seen)
    {
      ghost var before := seen;
      seen := seen + [snap];
      if before != [] {
        BaseIndexLocal(before, [snap], |before| - 1);
      }
      if !baselineSet || snap.WentBackwards(baseline) {
        baseline := snap;
        baselineSet := true;
      }
      var rel := snap.RelativeTo(baseline);
      BaselineIsBelow(seen, |seen| - 1, |seen| - 1);
      st.observed := rel;
    }
  }

  /** Since the baseline was taken no scrape has been below it in any counter. */
  lemma {:induction false} BaselineIsBelow(snaps: seq<Snapshot>, k: nat, j: nat)
    requires BaseIndexIn(snaps, k) <= j <= k < |snaps|
    ensures snaps[j].AtLeast(snaps[BaseIndex(snaps, k)])
    ensures BaseIndex(snaps, j) == BaseIndex(snaps, k)
    decreases k
  {
    if k > 0 && j < k {
      BaselineIsBelow(snaps, k - 1, j);
    } else if k > 0 && BaseIndex(snaps, k) < k {
      assert !snaps[k].WentBackwards(snaps[BaseIndex(snaps, k - 1)]);
    }
  }

  function BaseIndexIn(snaps: seq<Snapshot>, k: nat): nat {
    if k < |snaps| then BaseIndex(snaps, k) else 0
  }

  /** Observed values are counts: nonnegative, and additive between scrapes that share a baseline. */
  lemma ObservedTelescopes(snaps: seq<Snapshot>, j: nat, k: nat)
    requires BaseIndexIn(snaps, k) <= j <= k < |snaps|
    ensures Observed(snaps[..k + 1]).AtLeast(NOTHING)
    ensures Observed(snaps[..k + 1]).Minus(Observed(snaps[..j + 1])) == snaps[k].Minus(snaps[j])
  {
    BaselineIsBelow(snaps, k, k);
    BaselineIsBelow(snaps, k, j);
    ObservedAt(snaps, k);
    ObservedAt(snaps, j);
  }

  /** The observed values, counter by counter. */
  lemma ObservedByCounter(snaps: seq<Snapshot>, k: nat)
    requires k < |snaps|
    ensures var o, now, base := Observed(snaps[..k + 1]), snaps[k], snaps[BaseIndex(snaps, k)];
            && o.processed == now.processed - base.processed
            && o.newQname == now.newQname - base.newQname
            && o.ignoredTotal == now.ignoredTotal - base.ignoredTotal
            && o.cryptopanHits == now.cryptopanHits - base.cryptopanHits
            && o.cryptopanEvict == now.cryptopanEvict - base.cryptopanEvict
            && o.seenQnameEvict == now.seenQnameEvict - base.seenQnameEvict
  {
    ObservedAt(snaps, k);
  }

  lemma ObservedAt(snaps: seq<Snapshot>, k: nat)
    requires k < |snaps|
    ensures Observed(snaps[..k + 1]) == snaps[k].Minus(snaps[BaseIndex(snaps, k)])
  {
    assert snaps == snaps[..k + 1] + snaps[k + 1..];
    BaseIndexLocal(snaps[..k + 1], snaps[k + 1..], k);
  }

  /** Counters that only grow keep the first scrape as their baseline. */
  lemma {:induction false} GrowingStreamKeepsFirstBaseline(snaps: seq<Snapshot>, k: nat)
    requires k < |snaps| && forall i | 0 < i < |snaps| :: snaps[i].AtLeast(snaps[i - 1])
    ensures BaseIndex(snaps, k) == 0 && snaps[k].AtLeast(snaps[0])
    ensures Observed(snaps[..k + 1]) == snaps[k].Minus(snaps[0])
    ensures k > 0 ==> Observed(snaps[..k + 1]).AtLeast(Observed(snaps[..k]))
    decreases k
  {
    if k > 0 {
      GrowingStreamKeepsFirstBaseline(snaps, k - 1);
    }
    ObservedAt(snaps, k);
  }

  // ---------------------------------------------------------------- restarts

  /** The scrape that opened the server lifetime scrape `k` belongs to. */
  function LifetimeStart(restarts: seq<bool>, k: nat): (b: nat)
    requires k < |restarts|
    ensures b <= k
  {
    if k == 0 || restarts[k] then k else LifetimeStart(restarts, k - 1)
  }

  /** Within a lifetime counters only grow. */
  predicate Lifetimes(snaps: seq<Snapshot>, restarts: seq<bool>) {
    && |snaps| == |restarts|
    && forall i | 0 < i < |snaps| :: !restarts[i] ==> snaps[i].AtLeast(snaps[i - 1])
  }

  /** A restart's first scrape is below the scrape that opened the lifetime before, or equal to it. */
  predicate RestartShows(snaps: seq<Snapshot>, restarts: seq<bool>, i: nat)
    requires 0 < i < |snaps| == |restarts|
  {
    var before := snaps[LifetimeStart(restarts, i - 1)];
    restarts[i] ==> snaps[i].WentBackwards(before) || snaps[i] == before
  }

  /** After scrape `k` the observed values count from the start of the current lifetime. */
  predicate CountsLifetime(snaps: seq<Snapshot>, restarts: seq<bool>, k: nat)
    requires k < |snaps| == |restarts|
  {
    Observed(snaps[..k + 1]) == snaps[k].Minus(snaps[LifetimeStart(restarts, k)])
  }

  lemma CountsFromEqualBase(snaps: seq<Snapshot>, restarts: seq<bool>, k: nat)
    requires k < |snaps| == |restarts|
    ensures CountsLifetime(snaps, restarts, k) <==>
            snaps[BaseIndex(snaps, k)] == snaps[LifetimeStart(restarts, k)]
  {
    ObservedAt(snaps, k);
  }

  lemma {:induction false} LifetimeGrows(snaps: seq<Snapshot>, restarts: seq<bool>, k: nat)
    requires Lifetimes(snaps, restarts) && k < |snaps|
    ensures snaps[k].AtLeast(snaps[LifetimeStart(restarts, k)])
    decreases k
  {
    if k > 0 && !restarts[k] {
      LifetimeGrows(snaps, restarts, k - 1);
      assert snaps[k].AtLeast(snaps[k - 1]);
    }
  }

  lemma {:induction false} ShownRestartsRebase(snaps: seq<Snapshot>, restarts: seq<bool>, k: nat)
    requires Lifetimes(snaps, restarts) && k < |snaps|
    requires forall i | 0 < i <= k :: RestartShows(snaps, restarts, i)
    ensures snaps[BaseIndex(snaps, k)] == snaps[LifetimeStart(restarts, k)]
    decreases k
  {
    if k > 0 {
      ShownRestartsRebase(snaps, restarts, k - 1);
      LifetimeGrows(snaps, restarts, k);
      assert RestartShows(snaps, restarts, k);
    }
  }

  /** Before or after a restart that does not show, the observed values count from another lifetime. */
  lemma HiddenRestartMiscounts(snaps: seq<Snapshot>, restarts: seq<bool>, i: nat)
    requires Lifetimes(snaps, restarts) && 0 < i < |snaps| && !RestartShows(snaps, restarts, i)
    ensures !CountsLifetime(snaps, restarts, i - 1) || !CountsLifetime(snaps, restarts, i)
  {
    CountsFromEqualBase(snaps, restarts, i - 1);
    CountsFromEqualBase(snaps, restarts, i);
    assert restarts[i] && LifetimeStart(restarts, i) == i;
  }

  /**
    The observed values count from the scrape that opened the current server lifetime, after every
    scrape, exactly when every restart's first scrape is below the scrape that opened the lifetime
    before in some counter, or equal to it in all.  A restart that has caught up by then goes unseen.
   */
  lemma {:induction false} CountsCurrentLifetimeIffRestartsShow(snaps: seq<Snapshot>, restarts: seq<bool>)
    requires Lifetimes(snaps, restarts)
    ensures (forall k | 0 <= k < |snaps| :: CountsLifetime(snaps, restarts, k))
            <==> (forall i | 0 < i < |snaps| :: RestartShows(snaps, restarts, i))
  {
    if forall i | 0 < i < |snaps| :: RestartShows(snaps, restarts, i) {
      forall k | 0 <= k < |snaps| ensures CountsLifetime(snaps, restarts, k) {
        ShownRestartsRebase(snaps, restarts, k);
        CountsFromEqualBase(snaps, restarts, k);
      }
    } else {
      var i :| 0 < i < |snaps| && !RestartShows(snaps, restarts, i);
      HiddenRestartMiscounts(snaps, restarts, i);
    }
  }

  /** A restart that goes unseen: the counter fell from 1500 to 1200, above the baseline of 1000. */
  lemma UnseenRestart()
    ensures var snaps := [NOTHING.(processed := 1000), NOTHING.(processed := 1500), NOTHING.(processed := 1200)];
            snaps[2].WentBackwards(snaps[1]) && BaseIndex(snaps, 2) == 0 && Observed(snaps).processed == 200
  {
    var snaps := [NOTHING.(processed := 1000), NOTHING.(processed := 1500), NOTHING.(processed := 1200)];
    assert BaseIndex(snaps, 1) == 0;
  }
}
