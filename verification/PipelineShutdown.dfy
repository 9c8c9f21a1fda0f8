/**
  Start-up and shutdown order: what the program counters of `Run`, the builders, the beacon and the
  sender say about each other in every reachable state.
 */
module PipelineShutdown {
  import opened Pipeline

  predicate BuilderPc(t: Feeder) {
    !t.AtSleep?
  }

  predicate BeaconPc(t: Feeder) {
    !t.NotStarted? && !t.AtCtxCheck? && !t.AtPick?
  }

  /** `wg.Wait` has returned. */
  predicate PastJoin(m: MainPc) {
    m.Cancelling? || m.Closing? || m.Draining? || m.Returned?
  }

  predicate NotStartedFrom(c: Config, feeders: seq<Feeder>, k: nat)
    requires c.workers <= |feeders|
  {
    forall i | 0 <= i < c.workers :: k <= i <==> feeders[i].NotStarted?
  }

  predicate FeedersInPhase(c: Config, s: State)
    requires |s.feeders| == c.workers + 1
  {
    && (forall i | 0 <= i < c.workers :: BuilderPc(s.feeders[i]))
    && BeaconPc(s.feeders[c.workers])
    && (match s.main
        case Spawning(k) => k <= c.workers && NotStartedFrom(c, s.feeders, k)
        case Failed => true
        case _ => NotStartedFrom(c, s.feeders, c.workers))
    && (PastJoin(s.main) ==> BuildersExited(c, s.feeders))
  }

  predicate FlagsInPhase(c: Config, s: State) {
    && (s.closed <==> s.main.Draining? || s.main.Returned?)
    && (s.main.Closing? || s.main.Draining? || s.main.Returned? || s.main.Failed? ==> s.bgDone)
    && (s.bucketClosed ==> s.main.Returned? || s.main.Failed?)
    && (s.sender.SNotStarted? <==> s.main.Spawning? || s.main.Failed?)
    && (s.sender.SDone? ==> s.closed && s.queue == [])
    && (s.main.Returned? ==> s.sender.SDone?)
    && (s.crash.ClosedSend? ==> s.crash.feeder == c.workers && s.closed)
  }

  predicate InPhase(c: Config, s: State) {
    && |s.feeders| == c.workers + 1
    && FeedersInPhase(c, s)
    && FlagsInPhase(c, s)
  }

  lemma InitInPhase(c: Config, running: bool, beaconOn: bool)
    ensures InPhase(c, Init(c, running, beaconOn))
  {}

  /** A started feeder that has not exited moves; nothing else in the phase changes. */
  lemma GotoKeepsPhase(c: Config, s: State, s': State, i: nat)
    requires InPhase(c, s) && i <= c.workers
    requires !s.feeders[i].NotStarted? && !s.feeders[i].Exited?
    requires |s'.feeders| == c.workers + 1 && s'.feeders == s.feeders[i := s'.feeders[i]]
    requires !s'.feeders[i].NotStarted?
    requires i < c.workers ==> BuilderPc(s'.feeders[i])
    requires i == c.workers ==> BeaconPc(s'.feeders[i])
    requires s'.main == s.main && s'.sender == s.sender && s'.crash == s.crash
    requires s'.closed == s.closed && s'.bgDone == s.bgDone && s'.bucketClosed == s.bucketClosed
    requires s'.queue == s.queue || !s.closed
    ensures InPhase(c, s')
  {}

  /** No builder can be at its send once the queue is closed: builders have exited by then. */
  lemma SendKeepsPhase(c: Config, s: State, i: nat)
    requires InPhase(c, s) && i <= c.workers && s.feeders[i].AtSend?
    ensures InPhase(c, ApplySend(s, i))
  {
    if s.closed {
      assert i == c.workers;
    } else {
      GotoKeepsPhase(c, s, ApplySend(s, i), i);
    }
  }

  lemma FrameKeepsPhase(c: Config, s: State, i: nat, m: FrameMove)
    requires InPhase(c, s) && i <= c.workers && FrameEnabled(c, s, i, s.feeders[i], m)
    ensures InPhase(c, ApplyFrame(c, s, i, m))
  {
    if m.Send? {
      SendKeepsPhase(c, s, i);
    } else {
      FrameEffect(c, s, i, m);
      GotoKeepsPhase(c, s, ApplyFrame(c, s, i, m), i);
    }
  }

  lemma SpawnKeepsPhase(c: Config, s: State, ok: bool)
    requires InPhase(c, s) && MainEnabled(c, s, Spawn(ok))
    ensures InPhase(c, ApplyMain(c, s, Spawn(ok)))
  {}

  lemma MainKeepsPhase(c: Config, s: State, m: MainMove)
    requires InPhase(c, s) && MainEnabled(c, s, m) && s.crash.NoCrash?
    ensures InPhase(c, ApplyMain(c, s, m))
  {
    if m.Spawn? { SpawnKeepsPhase(c, s, m.ok); }
  }

  lemma SenderKeepsPhase(c: Config, s: State, m: SenderMove)
    requires InPhase(c, s) && SenderEnabled(s, m)
    ensures InPhase(c, ApplySender(s, m))
  {}

  lemma EnvKeepsPhase(c: Config, s: State, m: EnvMove)
    requires InPhase(c, s)
    ensures InPhase(c, ApplyEnv(s, m))
  {}

  lemma StepKeepsPhase(c: Config, s: State, a: Action)
    requires Enabled(c, s, a) && InPhase(c, s)
    ensures InPhase(c, Apply(c, s, a))
  {
    match a
    case Env(m) => EnvKeepsPhase(c, s, m);
    case Builder(i, m) => GotoKeepsPhase(c, s, Goto(s, i, BuilderNext(c, s, s.feeders[i], m)), i);
    case Beacon(m) => GotoKeepsPhase(c, s, Goto(s, c.workers, BeaconNext(s, s.feeders[c.workers], m)), c.workers);
    case Frame(i, m) => FrameKeepsPhase(c, s, i, m);
    case Deliver(m) => SenderKeepsPhase(c, s, m);
    case Main(m) => MainKeepsPhase(c, s, m);
  }
}
