/** Buffer accounting: a backing array is owned or pooled until one of four steps lets it go. */
module PipelineBuffers {
  import opened Basics
  import opened Pipeline
  import opened PipelineMemory
  import opened PipelineShutdown
  import opened PipelineLedger

  predicate HoldsBuffer(t: Feeder) {
    FeederBuffer(t).Some?
  }

  /** Arrays in use: pooled, in a feeder's hands, queued, or with the sender. */
  function InUse(s: State): nat {
    |s.pool| + CountFeeders(s.feeders, HoldsBuffer) + |s.queue| + One(SenderBuffer(s.sender).Some?)
  }

  predicate Oversized(s: State, f: Slice)
    requires f.arr < |s.heap|
  {
    |s.heap[f.arr]| > MAX_POOLED_CAP
  }

  /** The collector empties the pool, a frame outgrows its array, or `put` refuses a large one. */
  predicate LetsGo(c: Config, s: State, a: Action)
    requires Enabled(c, s, a)
  {
    match a
    case Env(GcPool(_)) => true
    case Frame(_, Build(Moved(_, _, _))) => true
    case Frame(i, PutBack) => Oversized(s, s.feeders[i].buf)
    case Deliver(Recycle) => Oversized(s, s.sender.frame)
    case _ => false
  }

  function Dropped(c: Config, s: State, run: seq<Action>): nat
    requires ValidRun(c, s, run)
    decreases |run|
  {
    if run == [] then 0
    else One(LetsGo(c, s, run[0])) + Dropped(c, Apply(c, s, run[0]), run[1..])
  }

  /** The books of one step: arrays made are in use afterwards, or one was let go. */
  ghost predicate Balanced(s: State, s': State, dropped: nat) {
    |s'.heap| - |s.heap| == InUse(s') - InUse(s) + dropped
  }

  lemma FeederBooks(s: State, s': State, i: nat)
    requires i < |s.feeders| && OnlyFeeder(s, s', i)
    ensures InUse(s') - InUse(s) ==
            |s'.pool| - |s.pool| + One(HoldsBuffer(s'.feeders[i])) - One(HoldsBuffer(s.feeders[i]))
  {
    CountUpdate(s.feeders, i, s'.feeders[i], HoldsBuffer);
  }

  lemma GotoInUse(s: State, i: nat, t: Feeder)
    requires i < |s.feeders| && HoldsBuffer(t) == HoldsBuffer(s.feeders[i])
    ensures Balanced(s, Goto(s, i, t), 0)
  {
    CountUpdate(s.feeders, i, t, HoldsBuffer);
  }

  lemma GetBalance(s: State, i: nat, pooled: Option<Slice>)
    requires i < |s.feeders| && s.feeders[i].AtGet? && (pooled.Some? ==> pooled.value in s.pool)
    ensures Balanced(s, ApplyGet(s, i, pooled), 0)
  {
    GetEffect(s, i, pooled);
    FeederBooks(s, ApplyGet(s, i, pooled), i);
    match pooled
    case Some(b) => assert ApplyGet(s, i, Some(b)).pool == s.pool - multiset{b};
    case None =>
  }

  lemma PackErrorBalance(s: State, i: nat, scribble: seq<byte>)
    requires i < |s.feeders| && s.feeders[i].AtBuild? && CanBuild(s, s.feeders[i].buf, PackError(scribble))
    ensures Balanced(s, ApplyBuild(s, i, PackError(scribble)), 0)
  {
    CountUpdate(s.feeders, i, AtPutBack(s.feeders[i].buf, false), HoldsBuffer);
  }

  lemma InPlaceBalance(s: State, i: nat, bytes: seq<byte>)
    requires i < |s.feeders| && s.feeders[i].AtBuild? && CanBuild(s, s.feeders[i].buf, InPlace(bytes))
    ensures Balanced(s, ApplyBuild(s, i, InPlace(bytes)), 0)
  {
    CountUpdate(s.feeders, i, ApplyBuild(s, i, InPlace(bytes)).feeders[i], HoldsBuffer);
  }

  lemma MovedBalance(s: State, i: nat, bytes: seq<byte>, spare: seq<byte>, scribble: seq<byte>)
    requires i < |s.feeders| && s.feeders[i].AtBuild? && CanBuild(s, s.feeders[i].buf, Moved(bytes, spare, scribble))
    ensures Balanced(s, ApplyBuild(s, i, Moved(bytes, spare, scribble)), 1)
  {
    CountUpdate(s.feeders, i, ApplyBuild(s, i, Moved(bytes, spare, scribble)).feeders[i], HoldsBuffer);
  }

  lemma BuildBalance(s: State, i: nat, result: BuildResult)
    requires i < |s.feeders| && s.feeders[i].AtBuild? && CanBuild(s, s.feeders[i].buf, result)
    ensures Balanced(s, ApplyBuild(s, i, result), One(result.Moved?))
  {
    match result
    case PackError(scribble) => PackErrorBalance(s, i, scribble);
    case InPlace(bytes) => InPlaceBalance(s, i, bytes);
    case Moved(bytes, spare, scribble) => MovedBalance(s, i, bytes, spare, scribble);
  }

  lemma PutBackBalance(s: State, i: nat)
    requires i < |s.feeders| && s.feeders[i].AtPutBack? && s.feeders[i].buf.arr < |s.heap|
    ensures Balanced(s, ApplyPutBack(s, i), One(Oversized(s, s.feeders[i].buf)))
  {
    CountUpdate(s.feeders, i, ApplyPutBack(s, i).feeders[i], HoldsBuffer);
  }

  lemma SendBalance(s: State, i: nat)
    requires i < |s.feeders| && s.feeders[i].AtSend?
    ensures Balanced(s, ApplySend(s, i), 0)
  {
    CountUpdate(s.feeders, i, AtWait, HoldsBuffer);
  }

  lemma FrameBooks(c: Config, s: State, i: nat, m: FrameMove)
    requires Enabled(c, s, Frame(i, m))
    ensures Balanced(s, ApplyFrame(c, s, i, m), One(LetsGo(c, s, Frame(i, m))))
  {
    match m
    case Get(pooled) => GetBalance(s, i, pooled);
    case Build(result) => BuildBalance(s, i, result);
    case PutBack => PutBackBalance(s, i);
    case Send => SendBalance(s, i);
    case Abort => GotoInUse(s, i, AtPutBack(s.feeders[i].frame, true));
  }

  lemma {:induction false} ReceiveBooks(s: State)
    requires s.sender.AtReceive?
    ensures Balanced(s, ApplyReceive(s), 0)
  {
    if s.queue == [] {} else {}
  }

  lemma {:induction false} RecycleBooks(s: State)
    requires s.sender.AtRecycle? && s.sender.frame.arr < |s.heap|
    ensures Balanced(s, ApplyRecycle(s), One(Oversized(s, s.sender.frame)))
  {}

  lemma {:induction false} SameBuffersBalance(s: State, s': State)
    requires s'.heap == s.heap && s'.pool == s.pool && s'.feeders == s.feeders && s'.queue == s.queue
    requires SenderBuffer(s'.sender) == SenderBuffer(s.sender)
    ensures Balanced(s, s', 0)
  {}

  lemma SenderBooks(c: Config, s: State, m: SenderMove)
    requires Enabled(c, s, Deliver(m))
    ensures Balanced(s, ApplySender(s, m), One(LetsGo(c, s, Deliver(m))))
  {
    match m
    case Receive => ReceiveBooks(s);
    case Sink(ok) => SameBuffersBalance(s, ApplySink(s, ok));
    case BumpPattern => SameBuffersBalance(s, ApplyBumpPattern(s));
    case BumpTotal => SameBuffersBalance(s, ApplySender(s, m));
    case Recycle => RecycleBooks(s);
  }

  lemma MainBooks(c: Config, s: State, m: MainMove)
    requires InPhase(c, s) && MainEnabled(c, s, m)
    ensures Balanced(s, ApplyMain(c, s, m), 0)
  {
    MainEffect(c, s, m);
    if m == Spawn(true) { CountUpdate(s.feeders, s.main.next, AtWait, HoldsBuffer); }
  }

  lemma EnvBooks(c: Config, s: State, m: EnvMove)
    requires Enabled(c, s, Env(m))
    ensures Balanced(s, ApplyEnv(s, m), One(m.GcPool?))
  {
    match m
    case Cancel =>
    case SetRunning(_) =>
    case SetBeaconWeight(_) =>
    case GcPool(_) =>
  }

  lemma StepBooks(c: Config, s: State, a: Action)
    requires Enabled(c, s, a) && InPhase(c, s)
    ensures Balanced(s, Apply(c, s, a), One(LetsGo(c, s, a)))
  {
    match a
    case Env(m) => EnvBooks(c, s, m);
    case Builder(i, m) => GotoInUse(s, i, BuilderNext(c, s, s.feeders[i], m));
    case Beacon(m) => GotoInUse(s, c.workers, BeaconNext(s, s.feeders[c.workers], m));
    case Frame(i, m) => FrameBooks(c, s, i, m);
    case Deliver(m) => SenderBooks(c, s, m);
    case Main(m) => MainBooks(c, s, m);
  }

  /** No buffer leaks: along every run, arrays made = arrays in use + arrays let go. */
  lemma {:induction false} BuffersAreConserved(c: Config, s: State, run: seq<Action>)
    requires ValidRun(c, s, run) && InPhase(c, s)
    ensures |Exec(c, s, run).heap| - |s.heap| == InUse(Exec(c, s, run)) - InUse(s) + Dropped(c, s, run)
    decreases |run|
  {
    if run != [] {
      StepBooks(c, s, run[0]);
      StepKeepsPhase(c, s, run[0]);
      BuffersAreConserved(c, Apply(c, s, run[0]), run[1..]);
    }
  }

  lemma NothingInUseAtStart(c: Config, running: bool, beaconOn: bool)
    ensures InUse(Init(c, running, beaconOn)) == 0
  {
    CountNone(Init(c, running, beaconOn).feeders, HoldsBuffer);
  }

  lemma {:induction false} CountLast(feeders: seq<Feeder>, sel: Feeder -> bool)
    requires feeders != [] && forall i | 0 <= i < |feeders| - 1 :: !sel(feeders[i])
    ensures CountFeeders(feeders, sel) == One(sel(feeders[|feeders| - 1]))
  {
    if |feeders| > 1 { CountLast(feeders[1..], sel); }
  }

  lemma InUseOnReturn(c: Config, s: State)
    requires InPhase(c, s) && s.main.Returned?
    ensures InUse(s) == |s.pool| + One(HoldsBuffer(s.feeders[c.workers]))
  {
    CountLast(s.feeders, HoldsBuffer);
  }

  lemma {:induction false} RunKeepsPhase(c: Config, s: State, run: seq<Action>)
    requires ValidRun(c, s, run) && InPhase(c, s)
    ensures InPhase(c, Exec(c, s, run))
    decreases |run|
  {
    if run != [] {
      StepKeepsPhase(c, s, run[0]);
      RunKeepsPhase(c, Apply(c, s, run[0]), run[1..]);
    }
  }

  lemma StartsEmpty(c: Config, running: bool, beaconOn: bool)
    ensures Init(c, running, beaconOn).heap == []
  {}

  /** When `Run` has returned every array it made is back in the pool, dropped, or the beacon's one. */
  lemma ReturnedBuffersAreBack(c: Config, running: bool, beaconOn: bool, run: seq<Action>)
    requires ValidRun(c, Init(c, running, beaconOn), run)
    requires Exec(c, Init(c, running, beaconOn), run).main.Returned?
    ensures var s, e := Init(c, running, beaconOn), Exec(c, Init(c, running, beaconOn), run);
            && |e.feeders| == c.workers + 1
            && |e.heap| == |e.pool| + One(HoldsBuffer(e.feeders[c.workers])) + Dropped(c, s, run)
  {
    var s := Init(c, running, beaconOn);
    InitInPhase(c, running, beaconOn);
    RunKeepsPhase(c, s, run);
    BuffersAreConserved(c, s, run);
    NothingInUseAtStart(c, running, beaconOn);
    StartsEmpty(c, running, beaconOn);
    InUseOnReturn(c, Exec(c, s, run));
  }
}
