/**
  `Reconcile` against the running pipeline.  It loads `Sent.Total` first and the nine pattern
  counters after it, one atomic load at a time, with any number of pipeline steps in between.
 */
module PipelineReconcile {
  import opened Pipeline
  import opened PipelineShutdown
  import opened PipelineRuns

  /** The map literal's loads, in evaluation order. */
  const PATTERN_LOADS: seq<Name> :=
    [Background, WellKnown, Dga, Name.Beacon, FastFlux, DynDns, Exfil, Exotic, Evasion]

  /** Pipeline steps interleaved with loads: `gaps[k]` runs just before load `k`. */
  predicate ValidGaps(c: Config, s: State, gaps: seq<seq<Action>>)
    decreases |gaps|
  {
    gaps != [] ==> ValidRun(c, s, gaps[0]) && ValidGaps(c, Exec(c, s, gaps[0]), gaps[1..])
  }

  /** The values the loads of `names` return. */
  function Loads(c: Config, s: State, names: seq<Name>, gaps: seq<seq<Action>>): (vals: seq<nat>)
    requires |gaps| == |names| && ValidGaps(c, s, gaps)
    ensures |vals| == |names|
    decreases |names|
  {
    if names == [] then []
    else
      var s' := Exec(c, s, gaps[0]);
      [s'.sent.Of(names[0])] + Loads(c, s', names[1..], gaps[1..])
  }

  function After(c: Config, s: State, gaps: seq<seq<Action>>): State
    requires ValidGaps(c, s, gaps)
    decreases |gaps|
  {
    if gaps == [] then s else After(c, Exec(c, s, gaps[0]), gaps[1..])
  }

  function SumOf(vals: seq<nat>): nat {
    if vals == [] then 0 else vals[0] + SumOf(vals[1..])
  }

  /** The sum of some counters in one state. */
  function SumIn(s: State, names: seq<Name>): nat {
    if names == [] then 0 else s.sent.Of(names[0]) + SumIn(s, names[1..])
  }

  ghost predicate NoCounterDrops(s: State, s': State) {
    && (forall n: Name :: s.sent.Of(n) <= s'.sent.Of(n))
    && s.total <= s'.total
    && (s.sender.SDone? ==> s'.sender.SDone? && s'.sent == s.sent && s'.total == s.total)
  }

  lemma SenderCountsUp(s: State, m: SenderMove)
    requires SenderEnabled(s, m)
    ensures NoCounterDrops(s, ApplySender(s, m))
  {
    match m
    case Receive =>
    case Sink(_) =>
    case BumpPattern =>
    case BumpTotal =>
    case Recycle =>
  }

  lemma FrameCountsUp(c: Config, s: State, i: nat, m: FrameMove)
    requires i < |s.feeders| && FrameEnabled(c, s, i, s.feeders[i], m)
    ensures NoCounterDrops(s, ApplyFrame(c, s, i, m))
  {
    if !m.Send? { FrameEffect(c, s, i, m); }
  }

  lemma StepCountsUp(c: Config, s: State, a: Action)
    requires Enabled(c, s, a) && InPhase(c, s)
    ensures NoCounterDrops(s, Apply(c, s, a))
  {
    match a
    case Env(m) => EnvEffect(s, m);
    case Builder(_, _) =>
    case Beacon(_) =>
    case Frame(i, m) => FrameCountsUp(c, s, i, m);
    case Deliver(m) => SenderCountsUp(s, m);
    case Main(m) => MainEffect(c, s, m);
  }

  lemma {:induction false} RunCountsUp(c: Config, s: State, run: seq<Action>)
    requires ValidRun(c, s, run) && InPhase(c, s)
    ensures InPhase(c, Exec(c, s, run)) && NoCounterDrops(s, Exec(c, s, run))
    decreases |run|
  {
    if run != [] {
      StepKeepsPhase(c, s, run[0]);
      StepCountsUp(c, s, run[0]);
      RunCountsUp(c, Apply(c, s, run[0]), run[1..]);
    }
  }

  lemma {:induction false} SumInGrows(s: State, s': State, names: seq<Name>)
    requires NoCounterDrops(s, s')
    ensures SumIn(s, names) <= SumIn(s', names)
    ensures s.sender.SDone? ==> SumIn(s, names) == SumIn(s', names)
  {
    if names != [] { SumInGrows(s, s', names[1..]); }
  }

  lemma {:induction false} LoadsAreBetween(c: Config, s: State, names: seq<Name>, gaps: seq<seq<Action>>)
    requires |gaps| == |names| && ValidGaps(c, s, gaps) && InPhase(c, s)
    ensures InPhase(c, After(c, s, gaps)) && NoCounterDrops(s, After(c, s, gaps))
    ensures SumIn(s, names) <= SumOf(Loads(c, s, names, gaps)) <= SumIn(After(c, s, gaps), names)
    decreases |names|
  {
    if names != [] {
      var s' := Exec(c, s, gaps[0]);
      RunCountsUp(c, s, gaps[0]);
      LoadsAreBetween(c, s', names[1..], gaps[1..]);
      SumInGrows(s, s', names[1..]);
      var vals := Loads(c, s, names, gaps);
      assert vals[1..] == Loads(c, s', names[1..], gaps[1..]);
    }
  }

  /** Each load returns a value its own counter has had between the start and the end. */
  lemma {:induction false} EachLoadIsBetween(c: Config, s: State, names: seq<Name>, gaps: seq<seq<Action>>, k: nat)
    requires |gaps| == |names| && ValidGaps(c, s, gaps) && InPhase(c, s) && k < |names|
    ensures NoCounterDrops(s, After(c, s, gaps))
    ensures s.sent.Of(names[k]) <= Loads(c, s, names, gaps)[k] <= After(c, s, gaps).sent.Of(names[k])
    decreases |names|
  {
    var s' := Exec(c, s, gaps[0]);
    RunCountsUp(c, s, gaps[0]);
    LoadsAreBetween(c, s', names[1..], gaps[1..]);
    if k > 0 {
      EachLoadIsBetween(c, s', names[1..], gaps[1..], k - 1);
      assert Loads(c, s, names, gaps)[k] == Loads(c, s', names[1..], gaps[1..])[k - 1];
    }
  }

  lemma SumInFrom(s: State, names: seq<Name>, k: nat)
    requires k < |names|
    ensures SumIn(s, names[k..]) == s.sent.Of(names[k]) + SumIn(s, names[k + 1..])
  {
    assert names[k..][1..] == names[k + 1..];
  }

  lemma SumInThree(s: State, names: seq<Name>, k: nat)
    requires k + 3 <= |names|
    ensures SumIn(s, names[k..]) ==
            s.sent.Of(names[k]) + s.sent.Of(names[k + 1]) + s.sent.Of(names[k + 2]) + SumIn(s, names[k + 3..])
  {
    SumInFrom(s, names, k);
    SumInFrom(s, names, k + 1);
    SumInFrom(s, names, k + 2);
  }

  lemma SumInNine(s: State, names: seq<Name>)
    requires |names| == 9
    ensures SumIn(s, names) ==
            s.sent.Of(names[0]) + s.sent.Of(names[1]) + s.sent.Of(names[2])
            + s.sent.Of(names[3]) + s.sent.Of(names[4]) + s.sent.Of(names[5])
            + s.sent.Of(names[6]) + s.sent.Of(names[7]) + s.sent.Of(names[8])
  {
    assert names[0..] == names;
    SumInThree(s, names, 0);
    SumInThree(s, names, 3);
    SumInThree(s, names, 6);
  }

  lemma SumInAll(s: State)
    ensures SumIn(s, PATTERN_LOADS) == s.sent.Sum()
  {
    SumInNine(s, PATTERN_LOADS);
  }

  /** Pattern loads that start in `s3`, against the total of an earlier state `s`. */
  lemma {:induction false} LaterPatternLoads(c: Config, s: State, s3: State, gaps: seq<seq<Action>>)
    requires Inv(c, s) && Inv(c, s3) && NoCounterDrops(s, s3)
    requires |gaps| == |PATTERN_LOADS| && ValidGaps(c, s3, gaps)
    ensures var sum := SumOf(Loads(c, s3, PATTERN_LOADS, gaps));
            && s.total <= sum <= After(c, s3, gaps).total + 1
            && (s.sender.SDone? ==> s.total == sum)
  {
    LoadsAreBetween(c, s3, PATTERN_LOADS, gaps);
    SumInAll(s3);
    SumInAll(After(c, s3, gaps));
    GapsKeepInv(c, s3, gaps);
  }

  /**
    With the pattern loads right after the load of the total, a report never shows more frames in total
    than over its patterns.  Its pattern sum is at most one above the total counted by the time the last
    load is done (the frame between the two increments); once the sender is done the two sums are equal.
   */
  lemma {:induction false} ReconcileTotalNeverExceedsPatterns(c: Config, s: State, gaps: seq<seq<Action>>)
    requires Reachable(c, s) && |gaps| == |PATTERN_LOADS| && ValidGaps(c, s, gaps)
    ensures var sentTotal := s.total;
            var perPattern := Loads(c, s, PATTERN_LOADS, gaps);
            && sentTotal <= SumOf(perPattern)
            && SumOf(perPattern) <= After(c, s, gaps).total + 1
            && (s.sender.SDone? ==> sentTotal == SumOf(perPattern))
  {
    ReachableInv(c, s);
    LaterPatternLoads(c, s, s, gaps);
  }

  lemma {:induction false} GapsKeepInv(c: Config, s: State, gaps: seq<seq<Action>>)
    requires ValidGaps(c, s, gaps) && Inv(c, s)
    ensures Inv(c, After(c, s, gaps))
    decreases |gaps|
  {
    if gaps != [] {
      RunKeepsInv(c, s, gaps[0]);
      GapsKeepInv(c, Exec(c, s, gaps[0]), gaps[1..]);
    }
  }
}
