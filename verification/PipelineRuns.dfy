/** What holds in every state of every run of the pipeline. */
module PipelineRuns {
  import opened Pipeline
  import opened PipelineMemory
  import opened PipelineShutdown
  import opened PipelineDelivery

  ghost predicate Inv(c: Config, s: State) {
    && InPhase(c, s)
    && Memory(s)
    && Ordered(s)
    && NamesKnown(c, s)
    && Counted(s)
    && |s.queue| <= QueueCap(c)
  }

  lemma InitHolds(c: Config, running: bool, beaconOn: bool)
    ensures Inv(c, Init(c, running, beaconOn))
  {
    InitInPhase(c, running, beaconOn);
    InitMemory(c, running, beaconOn);
    InitOrdered(c, running, beaconOn);
    InitCounted(c, running, beaconOn);
  }

  lemma StepKeepsBound(c: Config, s: State, a: Action)
    requires Enabled(c, s, a) && |s.queue| <= QueueCap(c)
    ensures |Apply(c, s, a).queue| <= QueueCap(c)
  {
    match a
    case Env(m) => EnvEffect(s, m);
    case Builder(_, _) =>
    case Beacon(_) =>
    case Frame(i, m) => if !m.Send? { FrameEffect(c, s, i, m); }
    case Deliver(m) => SenderEffect(s, m);
    case Main(m) => MainEffect(c, s, m);
  }

  lemma StepKeepsInv(c: Config, s: State, a: Action)
    requires Enabled(c, s, a) && Inv(c, s)
    ensures Inv(c, Apply(c, s, a))
  {
    StepKeepsPhase(c, s, a);
    StepKeepsMemory(c, s, a);
    StepKeepsOrder(c, s, a);
    StepKeepsNames(c, s, a);
    StepKeepsCount(c, s, a);
    StepKeepsBound(c, s, a);
  }

  lemma {:induction false} RunKeepsInv(c: Config, s: State, run: seq<Action>)
    requires ValidRun(c, s, run) && Inv(c, s)
    ensures Inv(c, Exec(c, s, run))
    decreases |run|
  {
    if run != [] {
      StepKeepsInv(c, s, run[0]);
      RunKeepsInv(c, Apply(c, s, run[0]), run[1..]);
    }
  }

  /** The states a producer can reach from its start, whatever the knobs were then. */
  ghost predicate Reachable(c: Config, s: State) {
    exists running, beaconOn, run ::
      ValidRun(c, Init(c, running, beaconOn), run) && Exec(c, Init(c, running, beaconOn), run) == s
  }

  lemma ReachableInv(c: Config, s: State)
    requires Reachable(c, s)
    ensures Inv(c, s)
  {
    var running, beaconOn, run :|
      ValidRun(c, Init(c, running, beaconOn), run) && Exec(c, Init(c, running, beaconOn), run) == s;
    InitHolds(c, running, beaconOn);
    RunKeepsInv(c, Init(c, running, beaconOn), run);
  }

  lemma BuffersHaveOneOwner(c: Config, s: State)
    requires Reachable(c, s)
    ensures Exclusive(s) && PoolOk(s)
  {
    ReachableInv(c, s);
    MemoryIsExclusive(s);
  }

  /** The sink is given the enqueued frames in order, each with the bytes its builder produced. */
  lemma SinkSeesBuiltFramesInOrder(c: Config, s: State)
    requires Reachable(c, s)
    ensures Finished(s.attempts) + InSink(s.heap, s.sender) + Waiting(s.heap, s.queue) == s.enqueued
    ensures |s.queue| <= 8 * c.workers
    ensures forall j | 0 <= j < |s.attempts| :: j < |s.enqueued| && s.attempts[j].entry == s.enqueued[j]
    ensures forall i | 0 <= i < |s.feeders| && s.feeders[i].AtSend? :: Peek(s.heap, s.feeders[i].frame) == s.feeders[i].produced
  {
    ReachableInv(c, s);
    var owner :| MemoryBy(s, owner);
    forall i | 0 <= i < |s.feeders| && s.feeders[i].AtSend?
      ensures Peek(s.heap, s.feeders[i].frame) == s.feeders[i].produced
    {
      assert FeederOk(s.heap, s.feeders[i]);
    }
    forall j | 0 <= j < |s.attempts| ensures j < |s.enqueued| && s.attempts[j].entry == s.enqueued[j] {
      assert Finished(s.attempts)[j] == s.attempts[j].entry;
    }
  }

  lemma ReturnedMeansDelivered(c: Config, s: State)
    requires Reachable(c, s) && s.main.Returned?
    ensures |s.feeders| == c.workers + 1
    ensures BuildersExited(c, s.feeders) && s.sender.SDone? && s.queue == []
    ensures Finished(s.attempts) == s.enqueued
    ensures forall n: Name :: !n.Other? ==> s.sent.Of(n) == Accepted(s.attempts, n)
    ensures s.total == AcceptedAll(s.attempts) == s.sent.Sum()
  {
    ReachableInv(c, s);
  }

  lemma ShutdownOrder(c: Config, s: State)
    requires Reachable(c, s)
    ensures |s.feeders| == c.workers + 1
    ensures s.closed ==> BuildersExited(c, s.feeders)
    ensures forall i | 0 <= i < c.workers :: s.feeders[i].AtSend? ==> !s.closed
    ensures s.sender.SDone? ==> s.closed && s.queue == []
    ensures s.crash.ClosedSend? ==> s.crash.feeder == c.workers && s.closed
  {
    ReachableInv(c, s);
  }
}
