/**
  After the context is cancelled `Run` comes to its end: every step of a builder, of `Run` itself and,
  after the close, of the sender uses fuel that nothing refills, and until the end one of them can move.
 */
module PipelineTermination {
  import opened Basics
  import opened Pipeline
  import opened PipelineMemory
  import opened PipelineShutdown
  import opened PipelineRuns

  function Rank(t: Feeder): nat {
    match t
    case Exited => 0
    case AtCtxCheck => 1
    case AtPutBack(_, leave) => if leave then 1 else 3
    case NotStarted => 2
    case AtWait => 2
    case AtSleep => 2
    case AtSend(_, _, _) => 4
    case AtBuild(_, _) => 5
    case AtGet(_) => 6
    case AtNext(_) => 7
    case AtPick => 8
    case AtRunning => 9
  }

  function RankSum(feeders: seq<Feeder>): nat {
    if feeders == [] then 0 else Rank(feeders[0]) + RankSum(feeders[1..])
  }

  function MainRank(c: Config, m: MainPc): nat {
    match m
    case Spawning(k) => if k <= c.workers then 5 + c.workers - k else 5
    case Joining => 4
    case Cancelling => 3
    case Closing => 2
    case Draining => 1
    case Returned => 0
    case Failed => 0
  }

  function SenderRank(x: Sender): nat {
    match x
    case SNotStarted => 0
    case SDone => 0
    case AtReceive => 1
    case AtRecycle(_) => 2
    case AtBumpTotal(_) => 3
    case AtBumpPattern(_) => 4
    case AtSink(_) => 5
  }

  /** More than the sender can need after the close. */
  function DrainCost(c: Config): nat {
    5 * QueueCap(c) + 6
  }

  function BuilderFuel(c: Config, s: State): nat
    requires |s.feeders| == c.workers + 1
  {
    RankSum(s.feeders[..c.workers])
  }

  function MainFuel(c: Config, s: State): nat {
    DrainCost(c) * MainRank(c, s.main)
  }

  function SenderFuel(s: State): nat {
    if s.closed then 5 * |s.queue| + SenderRank(s.sender) else 0
  }

  function Fuel(c: Config, s: State): nat
    requires |s.feeders| == c.workers + 1
  {
    BuilderFuel(c, s) + MainFuel(c, s) + SenderFuel(s)
  }

  /** The steps that bring `Run` to its end. */
  predicate Productive(c: Config, s: State, a: Action) {
    match a
    case Builder(_, _) => true
    case Frame(i, _) => i < c.workers
    case Main(_) => true
    case Deliver(_) => s.closed
    case _ => false
  }

  lemma {:induction false} RankSumUpdate(feeders: seq<Feeder>, i: nat, t: Feeder)
    requires i < |feeders|
    ensures RankSum(feeders[i := t]) == RankSum(feeders) + Rank(t) - Rank(feeders[i])
  {
    if i == 0 {
      assert feeders[i := t][1..] == feeders[1..];
    } else {
      assert feeders[i := t][1..] == feeders[1..][i - 1 := t];
      RankSumUpdate(feeders[1..], i - 1, t);
    }
  }

  lemma {:induction false} RankSumBound(feeders: seq<Feeder>)
    ensures RankSum(feeders) <= 9 * |feeders|
  {
    if feeders != [] { RankSumBound(feeders[1..]); }
  }

  lemma BuilderFuelUpdate(c: Config, s: State, s': State, i: nat)
    requires |s.feeders| == |s'.feeders| == c.workers + 1 && i <= c.workers
    requires s'.feeders == s.feeders[i := s'.feeders[i]]
    ensures BuilderFuel(c, s') ==
            BuilderFuel(c, s) + if i < c.workers then Rank(s'.feeders[i]) - Rank(s.feeders[i]) else 0
  {
    if i < c.workers {
      RankSumUpdate(s.feeders[..c.workers], i, s'.feeders[i]);
      assert s'.feeders[..c.workers] == s.feeders[..c.workers][i := s'.feeders[i]];
    } else {
      assert s'.feeders[..c.workers] == s.feeders[..c.workers];
    }
  }

  lemma BuilderBurns(c: Config, s: State, i: nat, m: BuilderMove)
    requires |s.feeders| == c.workers + 1 && i < c.workers && BuilderEnabled(s.feeders[i], m) && s.ctxDone
    ensures Fuel(c, Goto(s, i, BuilderNext(c, s, s.feeders[i], m))) < Fuel(c, s)
  {
    BuilderFuelUpdate(c, s, Goto(s, i, BuilderNext(c, s, s.feeders[i], m)), i);
  }

  lemma GetRank(s: State, i: nat, pooled: Option<Slice>)
    requires i < |s.feeders| && s.feeders[i].AtGet?
    ensures Rank(ApplyGet(s, i, pooled).feeders[i]) < Rank(s.feeders[i])
  {
    GetEffect(s, i, pooled);
  }

  lemma BuildRank(s: State, i: nat, result: BuildResult)
    requires i < |s.feeders| && s.feeders[i].AtBuild? && CanBuild(s, s.feeders[i].buf, result)
    ensures i < |ApplyBuild(s, i, result).feeders|
    ensures Rank(ApplyBuild(s, i, result).feeders[i]) < Rank(s.feeders[i])
  {
    BuildEffect(s, i, result);
  }

  lemma PutBackRank(s: State, i: nat)
    requires i < |s.feeders| && s.feeders[i].AtPutBack? && s.feeders[i].buf.arr < |s.heap|
    ensures Rank(ApplyPutBack(s, i).feeders[i]) < Rank(s.feeders[i])
  {}

  lemma SendRank(s: State, i: nat)
    requires i < |s.feeders| && s.feeders[i].AtSend? && !s.closed
    ensures Rank(ApplySend(s, i).feeders[i]) < Rank(s.feeders[i])
  {}

  lemma FrameRank(c: Config, s: State, i: nat, m: FrameMove)
    requires i < |s.feeders| && FrameEnabled(c, s, i, s.feeders[i], m) && (m.Send? ==> !s.closed)
    ensures i < |ApplyFrame(c, s, i, m).feeders|
    ensures Rank(ApplyFrame(c, s, i, m).feeders[i]) < Rank(s.feeders[i])
  {
    match m
    case Get(pooled) => GetRank(s, i, pooled);
    case Build(result) => BuildRank(s, i, result);
    case PutBack => PutBackRank(s, i);
    case Send => SendRank(s, i);
    case Abort =>
  }

  /** Fuel of feeders apart, a frame step costs nothing. */
  lemma FrameKeepsOtherFuel(c: Config, s: State, i: nat, m: FrameMove)
    requires i < |s.feeders| && FrameEnabled(c, s, i, s.feeders[i], m)
    ensures var s' := ApplyFrame(c, s, i, m);
            && |s'.feeders| == |s.feeders| && s'.feeders == s.feeders[i := s'.feeders[i]]
            && MainFuel(c, s') == MainFuel(c, s) && SenderFuel(s') == SenderFuel(s)
  {
    if !m.Send? { FrameEffect(c, s, i, m); }
  }

  lemma BuilderFrameBurns(c: Config, s: State, i: nat, m: FrameMove)
    requires InPhase(c, s) && i < c.workers && FrameEnabled(c, s, i, s.feeders[i], m)
    ensures |ApplyFrame(c, s, i, m).feeders| == c.workers + 1
    ensures Fuel(c, ApplyFrame(c, s, i, m)) < Fuel(c, s)
  {
    if m.Send? { assert s.feeders[i].AtSend? && !s.closed; }
    FrameKeepsOtherFuel(c, s, i, m);
    FrameRank(c, s, i, m);
    BuilderFuelUpdate(c, s, ApplyFrame(c, s, i, m), i);
  }

  lemma FrameBurns(c: Config, s: State, i: nat, m: FrameMove)
    requires InPhase(c, s) && i <= c.workers && FrameEnabled(c, s, i, s.feeders[i], m)
    ensures |ApplyFrame(c, s, i, m).feeders| == c.workers + 1
    ensures if i < c.workers then Fuel(c, ApplyFrame(c, s, i, m)) < Fuel(c, s)
            else Fuel(c, ApplyFrame(c, s, i, m)) <= Fuel(c, s)
  {
    if i < c.workers {
      BuilderFrameBurns(c, s, i, m);
    } else {
      FrameKeepsOtherFuel(c, s, i, m);
      BuilderFuelUpdate(c, s, ApplyFrame(c, s, i, m), i);
    }
  }

  lemma SenderBurns(c: Config, s: State, m: SenderMove)
    requires InPhase(c, s) && SenderEnabled(s, m)
    ensures |ApplySender(s, m).feeders| == c.workers + 1
    ensures if s.closed then Fuel(c, ApplySender(s, m)) < Fuel(c, s)
            else Fuel(c, ApplySender(s, m)) <= Fuel(c, s)
  {
    SenderEffect(s, m);
    match m
    case Receive =>
    case Sink(_) =>
    case BumpPattern =>
    case BumpTotal =>
    case Recycle =>
  }

  /** `Run` itself moves on; only the close makes the sender's remaining work count. */
  lemma MainAdvances(c: Config, s: State, m: MainMove)
    requires InPhase(c, s) && MainEnabled(c, s, m) && |s.queue| <= QueueCap(c)
    ensures MainRank(c, ApplyMain(c, s, m).main) + 1 <= MainRank(c, s.main)
    ensures SenderFuel(ApplyMain(c, s, m)) < SenderFuel(s) + DrainCost(c)
  {
    match m
    case Spawn(ok) => if ok {} else {}
    case StartSender =>
    case Join =>
    case CancelBg =>
    case CloseQueue =>
    case Return =>
  }

  lemma {:induction false} MainBurns(c: Config, s: State, m: MainMove)
    requires InPhase(c, s) && MainEnabled(c, s, m) && |s.queue| <= QueueCap(c)
    ensures |ApplyMain(c, s, m).feeders| == c.workers + 1
    ensures Fuel(c, ApplyMain(c, s, m)) < Fuel(c, s)
  {
    var s' := ApplyMain(c, s, m);
    MainEffect(c, s, m);
    MainAdvances(c, s, m);
    if m == Spawn(true) { BuilderFuelUpdate(c, s, s', s.main.next); }
    MulLess(DrainCost(c), MainRank(c, s'.main), MainRank(c, s.main));
  }

  lemma {:induction false} MulLess(k: nat, a: nat, b: nat)
    requires a + 1 <= b
    ensures k * a + k <= k * b
    decreases b
  {
    assert k * b == k * (b - 1) + k;
    if a + 1 < b { MulLess(k, a, b - 1); }
  }

  lemma EnvBurns(c: Config, s: State, m: EnvMove)
    requires |s.feeders| == c.workers + 1
    ensures |ApplyEnv(s, m).feeders| == c.workers + 1
    ensures Fuel(c, ApplyEnv(s, m)) == Fuel(c, s)
  {
    match m
    case Cancel =>
    case SetRunning(_) =>
    case SetBeaconWeight(_) =>
    case GcPool(_) =>
  }

  lemma BeaconBurns(c: Config, s: State, t: Feeder)
    requires |s.feeders| == c.workers + 1
    ensures Fuel(c, Goto(s, c.workers, t)) == Fuel(c, s)
  {
    BuilderFuelUpdate(c, s, Goto(s, c.workers, t), c.workers);
  }

  lemma StepBurns(c: Config, s: State, a: Action)
    requires Enabled(c, s, a) && InPhase(c, s) && s.ctxDone && |s.queue| <= QueueCap(c)
    ensures |Apply(c, s, a).feeders| == c.workers + 1
    ensures Fuel(c, Apply(c, s, a)) + (if Productive(c, s, a) then 1 else 0) <= Fuel(c, s)
  {
    match a
    case Env(m) => EnvBurns(c, s, m);
    case Builder(i, m) => BuilderBurns(c, s, i, m);
    case Beacon(m) => BeaconBurns(c, s, BeaconNext(s, s.feeders[c.workers], m));
    case Frame(i, m) => FrameBurns(c, s, i, m);
    case Deliver(m) => SenderBurns(c, s, m);
    case Main(m) => MainBurns(c, s, m);
  }

  lemma CtxStaysDone(c: Config, s: State, a: Action)
    requires Enabled(c, s, a) && s.ctxDone
    ensures Apply(c, s, a).ctxDone
  {
    match a
    case Env(m) => EnvEffect(s, m);
    case Builder(_, _) =>
    case Beacon(_) =>
    case Frame(i, m) => if !m.Send? { FrameEffect(c, s, i, m); }
    case Deliver(m) => SenderEffect(s, m);
    case Main(m) => MainEffect(c, s, m);
  }

  /** How many productive steps a run takes. */
  function Work(c: Config, s: State, run: seq<Action>): nat
    requires ValidRun(c, s, run)
    decreases |run|
  {
    if run == [] then 0
    else (if Productive(c, s, run[0]) then 1 else 0) + Work(c, Apply(c, s, run[0]), run[1..])
  }

  function WorkBound(c: Config): nat {
    9 * c.workers + DrainCost(c) * (c.workers + 6)
  }

  lemma FuelBound(c: Config, s: State)
    requires InPhase(c, s) && |s.queue| <= QueueCap(c)
    ensures Fuel(c, s) <= WorkBound(c)
  {
    RankSumBound(s.feeders[..c.workers]);
    MulLess(DrainCost(c), MainRank(c, s.main), c.workers + 6);
  }

  lemma {:induction false} WorkIsBounded(c: Config, s: State, run: seq<Action>)
    requires ValidRun(c, s, run) && Inv(c, s) && s.ctxDone
    ensures Work(c, s, run) <= Fuel(c, s)
    decreases |run|
  {
    if run != [] {
      StepBurns(c, s, run[0]);
      CtxStaysDone(c, s, run[0]);
      StepKeepsInv(c, s, run[0]);
      WorkIsBounded(c, Apply(c, s, run[0]), run[1..]);
    }
  }

  /** What a builder that has not exited can do once the context is cancelled. */
  function BuilderMoveOf(s: State, i: nat, t: Feeder): Action {
    match t
    case AtWait => Builder(i, Wait)
    case AtCtxCheck => Builder(i, CheckCtx)
    case AtRunning => Builder(i, CheckRunning)
    case AtPick => Builder(i, Pick(None))
    case AtNext(_) => Builder(i, Next(false))
    case AtGet(_) => Frame(i, Get(None))
    case AtBuild(_, buf) => Frame(i, Build(PackError(Peek(s.heap, Slice(buf.arr, if buf.arr < |s.heap| then |s.heap[buf.arr]| else 0)))))
    case AtPutBack(_, _) => Frame(i, PutBack)
    case _ => Frame(i, Abort)
  }

  lemma BuilderCanMove(c: Config, s: State, i: nat)
    requires Inv(c, s) && s.ctxDone && s.crash.NoCrash? && i < c.workers
    requires !s.feeders[i].Exited? && !s.feeders[i].NotStarted?
    ensures Enabled(c, s, BuilderMoveOf(s, i, s.feeders[i])) && Productive(c, s, BuilderMoveOf(s, i, s.feeders[i]))
  {
    var owner :| MemoryBy(s, owner);
    assert Held(s, FeederHolder(i)) == FeederBuffer(s.feeders[i]);
  }

  function SenderMoveOf(x: Sender): SenderMove {
    match x
    case AtSink(_) => Sink(true)
    case AtBumpPattern(_) => BumpPattern
    case AtBumpTotal(_) => BumpTotal
    case AtRecycle(_) => Recycle
    case _ => Receive
  }

  lemma SenderCanMove(c: Config, s: State)
    requires Inv(c, s) && s.crash.NoCrash? && s.closed && !s.sender.SDone?
    ensures Enabled(c, s, Deliver(SenderMoveOf(s.sender))) && Productive(c, s, Deliver(SenderMoveOf(s.sender)))
  {
    var owner :| MemoryBy(s, owner);
    assert Held(s, SenderHolder) == SenderBuffer(s.sender);
  }

  /** No deadlock: until `Run` is over, a productive step is enabled. */
  lemma SomethingCanMove(c: Config, s: State) returns (a: Action)
    requires Inv(c, s) && s.ctxDone && s.crash.NoCrash? && !s.main.Returned? && !s.main.Failed?
    ensures Enabled(c, s, a) && Productive(c, s, a) && a != Main(Spawn(false)) && a != Frame(c.workers, Send)
  {
    match s.main
    case Spawning(k) => a := if k < c.workers then Main(Spawn(true)) else Main(StartSender);
    case Joining =>
      if BuildersExited(c, s.feeders) {
        a := Main(Join);
      } else {
        var i :| 0 <= i < c.workers && !s.feeders[i].Exited?;
        BuilderCanMove(c, s, i);
        a := BuilderMoveOf(s, i, s.feeders[i]);
      }
    case Cancelling => a := Main(CancelBg);
    case Closing => a := Main(CloseQueue);
    case Draining =>
      if s.sender.SDone? {
        a := Main(Return);
      } else {
        SenderCanMove(c, s);
        a := Deliver(SenderMoveOf(s.sender));
      }
  }

  /**
    After cancellation: every run takes at most `WorkBound` productive steps, and a run that can take
    no more of them has ended `Run` (or the process, by the beacon's panic).
   */
  lemma RunEndsAfterCancel(c: Config, s: State, run: seq<Action>)
    requires Reachable(c, s) && s.ctxDone && ValidRun(c, s, run)
    ensures Work(c, s, run) <= WorkBound(c)
    ensures var e := Exec(c, s, run);
            (forall a :: Enabled(c, e, a) ==> !Productive(c, e, a)) ==>
            e.main.Returned? || e.main.Failed? || e.crash == ClosedSend(c.workers)
  {
    ReachableInv(c, s);
    WorkIsBounded(c, s, run);
    FuelBound(c, s);
    RunKeepsInv(c, s, run);
    RunKeepsCtx(c, s, run);
    var e := Exec(c, s, run);
    if e.crash.NoCrash? && !e.main.Returned? && !e.main.Failed? {
      var a := SomethingCanMove(c, e);
    }
  }

  lemma {:induction false} RunKeepsCtx(c: Config, s: State, run: seq<Action>)
    requires ValidRun(c, s, run) && s.ctxDone
    ensures Exec(c, s, run).ctxDone
    decreases |run|
  {
    if run != [] {
      CtxStaysDone(c, s, run[0]);
      RunKeepsCtx(c, Apply(c, s, run[0]), run[1..]);
    }
  }
}
