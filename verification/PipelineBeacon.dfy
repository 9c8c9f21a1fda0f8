/**
  The beacon is not in the wait group, so it can outlive the close of the queue.  When it does, a
  send panics; this module says exactly from which states that can still happen.
 */
module PipelineBeacon {
  import opened Basics
  import opened Pipeline
  import opened PipelineMemory
  import opened PipelineShutdown
  import opened PipelineRuns

  /** The beacon has neither exited nor decided to. */
  predicate MaySend(t: Feeder) {
    !t.Exited? && !(t.AtPutBack? && t.leave)
  }

  function Cons(c: Config, s: State, a: Action, rest: seq<Action>): (run: seq<Action>)
    requires Enabled(c, s, a) && ValidRun(c, Apply(c, s, a), rest)
    ensures ValidRun(c, s, run) && Exec(c, s, run) == Exec(c, Apply(c, s, a), rest)
  {
    var run := [a] + rest;
    assert run[1..] == rest;
    run
  }

  /** Steps the beacon needs to reach its send, knobs included. */
  function StepsToSend(s: State, t: Feeder): nat {
    match t
    case AtSend(_, _, _) => 0
    case AtBuild(_, _) => 1
    case AtGet(_) => 2
    case AtRunning => if s.running then 3 else 4
    case AtNext(_) => 5
    case AtWait => if s.beaconOn then 6 else 7
    case AtSleep => 8
    case _ => 8
  }

  /** The beacon's next move towards its send. */
  function TowardsSend(s: State, w: nat, t: Feeder): Action {
    match t
    case AtSend(_, _, _) => Frame(w, Send)
    case AtBuild(_, _) => Frame(w, Build(InPlace([])))
    case AtGet(_) => Frame(w, Get(None))
    case AtRunning => if s.running then Action.Beacon(CheckGate) else Env(SetRunning(true))
    case AtNext(_) => Action.Beacon(Emit(true))
    case AtWait => if s.beaconOn then Action.Beacon(CheckWeight) else Env(SetBeaconWeight(true))
    case AtSleep => Action.Beacon(Sleep(true))
    case _ => Frame(w, PutBack)
  }

  /** Action `a` takes the beacon one step nearer to its send. */
  ghost predicate Nearer(c: Config, s: State, a: Action)
    requires |s.feeders| == c.workers + 1
  {
    && Enabled(c, s, a)
    && var s' := Apply(c, s, a);
       && s'.crash.NoCrash? && s'.closed && |s'.feeders| == c.workers + 1
       && MaySend(s'.feeders[c.workers])
       && StepsToSend(s', s'.feeders[c.workers]) < StepsToSend(s, s.feeders[c.workers])
  }

  ghost predicate Alive(c: Config, s: State) {
    && |s.feeders| == c.workers + 1
    && s.crash.NoCrash? && s.closed
    && MaySend(s.feeders[c.workers]) && BeaconPc(s.feeders[c.workers])
  }

  lemma KnobMovesNearer(c: Config, s: State)
    requires Alive(c, s)
    ensures s.feeders[c.workers].AtRunning? && !s.running ==> Nearer(c, s, Env(SetRunning(true)))
    ensures s.feeders[c.workers].AtWait? && !s.beaconOn ==> Nearer(c, s, Env(SetBeaconWeight(true)))
  {}

  lemma BeaconStepMovesNearer(c: Config, s: State, m: BeaconMove)
    requires Alive(c, s)
    requires match s.feeders[c.workers]
             case AtRunning => s.running && m == CheckGate
             case AtNext(_) => m == Emit(true)
             case AtWait => s.beaconOn && m == CheckWeight
             case AtSleep => m == Sleep(true)
             case _ => false
    ensures Nearer(c, s, Action.Beacon(m))
  {
    match m
    case CheckGate =>
    case Emit(_) =>
    case CheckWeight =>
    case Sleep(_) =>
  }

  lemma FrameStepMovesNearer(c: Config, s: State, m: FrameMove)
    requires Alive(c, s)
    requires match s.feeders[c.workers]
             case AtBuild(_, buf) => buf.arr < |s.heap| && m == Build(InPlace([]))
             case AtGet(_) => m == Get(None)
             case AtPutBack(buf, _) => buf.arr < |s.heap| && m == PutBack
             case _ => false
    ensures Nearer(c, s, Frame(c.workers, m))
  {
    FrameEffect(c, s, c.workers, m);
  }

  lemma BeaconMoves(c: Config, s: State)
    requires Inv(c, s) && Alive(c, s) && !s.feeders[c.workers].AtSend?
    ensures Nearer(c, s, TowardsSend(s, c.workers, s.feeders[c.workers]))
  {
    var t := s.feeders[c.workers];
    var owner :| MemoryBy(s, owner);
    assert Held(s, FeederHolder(c.workers)) == FeederBuffer(t);
    match t
    case AtBuild(_, _) => FrameStepMovesNearer(c, s, Build(InPlace([])));
    case AtGet(_) => FrameStepMovesNearer(c, s, Get(None));
    case AtRunning => if s.running { BeaconStepMovesNearer(c, s, CheckGate); } else { KnobMovesNearer(c, s); }
    case AtNext(_) => BeaconStepMovesNearer(c, s, Emit(true));
    case AtWait => if s.beaconOn { BeaconStepMovesNearer(c, s, CheckWeight); } else { KnobMovesNearer(c, s); }
    case AtSleep => BeaconStepMovesNearer(c, s, Sleep(true));
    case _ => FrameStepMovesNearer(c, s, PutBack);
  }

  lemma {:induction false} BeaconCanCrash(c: Config, s: State) returns (run: seq<Action>)
    requires Inv(c, s) && Alive(c, s)
    ensures ValidRun(c, s, run) && Exec(c, s, run).crash.ClosedSend?
    decreases StepsToSend(s, s.feeders[c.workers])
  {
    var a := TowardsSend(s, c.workers, s.feeders[c.workers]);
    if s.feeders[c.workers].AtSend? {
      run := Cons(c, s, a, []);
    } else {
      BeaconMoves(c, s);
      StepKeepsInv(c, s, a);
      var rest := BeaconCanCrash(c, Apply(c, s, a));
      run := Cons(c, s, a, rest);
    }
  }

  /** The beacon is out, or on its way out without a send. */
  ghost predicate Harmless(c: Config, s: State) {
    && InPhase(c, s) && s.crash.NoCrash? && s.closed
    && !MaySend(s.feeders[c.workers])
  }

  lemma FrameKeepsHarmless(c: Config, s: State, i: nat, m: FrameMove)
    requires Harmless(c, s) && i <= c.workers && FrameEnabled(c, s, i, s.feeders[i], m)
    requires InPhase(c, ApplyFrame(c, s, i, m))
    ensures Harmless(c, ApplyFrame(c, s, i, m))
  {
    assert i == c.workers && m.PutBack?;
  }

  lemma MainKeepsHarmless(c: Config, s: State, m: MainMove)
    requires Harmless(c, s) && MainEnabled(c, s, m) && InPhase(c, ApplyMain(c, s, m))
    ensures Harmless(c, ApplyMain(c, s, m))
  {
    assert s.main.Draining? || s.main.Returned?;
    match m
    case Return =>
    case _ =>
  }

  lemma EnvKeepsHarmless(c: Config, s: State, m: EnvMove)
    requires Harmless(c, s) && InPhase(c, ApplyEnv(s, m))
    ensures Harmless(c, ApplyEnv(s, m))
  {
    match m
    case Cancel =>
    case SetRunning(_) =>
    case SetBeaconWeight(_) =>
    case GcPool(_) =>
  }

  lemma StepKeepsHarmless(c: Config, s: State, a: Action)
    requires Enabled(c, s, a) && Harmless(c, s)
    ensures Harmless(c, Apply(c, s, a))
  {
    StepKeepsPhase(c, s, a);
    match a
    case Env(m) => EnvKeepsHarmless(c, s, m);
    case Builder(i, _) => assert s.feeders[i].Exited?;
    case Beacon(_) =>
    case Frame(i, m) => FrameKeepsHarmless(c, s, i, m);
    case Deliver(m) => SenderEffect(s, m);
    case Main(m) => MainKeepsHarmless(c, s, m);
  }

  lemma {:induction false} HarmlessNeverCrashes(c: Config, s: State, run: seq<Action>)
    requires ValidRun(c, s, run) && Harmless(c, s)
    ensures Exec(c, s, run).crash.NoCrash?
    decreases |run|
  {
    if run != [] {
      StepKeepsHarmless(c, s, run[0]);
      HarmlessNeverCrashes(c, Apply(c, s, run[0]), run[1..]);
    }
  }

  /** After the close, a panic is still possible exactly when the beacon may still send. */
  lemma PanicPossibleIffBeaconMaySend(c: Config, s: State)
    requires Reachable(c, s) && s.closed && s.crash.NoCrash?
    ensures |s.feeders| == c.workers + 1
    ensures (exists run :: ValidRun(c, s, run) && Exec(c, s, run).crash.ClosedSend?)
            <==> MaySend(s.feeders[c.workers])
  {
    ReachableInv(c, s);
    if MaySend(s.feeders[c.workers]) {
      var run := BeaconCanCrash(c, s);
    } else {
      forall run | ValidRun(c, s, run) ensures Exec(c, s, run).crash.NoCrash? {
        HarmlessNeverCrashes(c, s, run);
      }
    }
  }

  // -------------------------------------------- runs with the beacon switched off

  predicate NeverTurnsBeaconOn(run: seq<Action>) {
    forall k | 0 <= k < |run| :: run[k] != Env(SetBeaconWeight(true))
  }

  ghost predicate Silent(c: Config, s: State) {
    && InPhase(c, s) && s.crash.NoCrash? && !s.beaconOn
    && (s.feeders[c.workers].AtWait? || s.feeders[c.workers].AtSleep? || s.feeders[c.workers].Exited?)
  }

  lemma FrameKeepsSilent(c: Config, s: State, i: nat, m: FrameMove)
    requires Silent(c, s) && i <= c.workers && FrameEnabled(c, s, i, s.feeders[i], m)
    requires InPhase(c, ApplyFrame(c, s, i, m))
    ensures Silent(c, ApplyFrame(c, s, i, m))
  {
    assert i < c.workers;
    if m.Send? { assert s.feeders[i].AtSend? && !s.closed; } else { FrameEffect(c, s, i, m); }
  }

  lemma EnvKeepsSilent(c: Config, s: State, m: EnvMove)
    requires Silent(c, s) && InPhase(c, ApplyEnv(s, m)) && m != SetBeaconWeight(true)
    ensures Silent(c, ApplyEnv(s, m))
  {
    match m
    case Cancel =>
    case SetRunning(_) =>
    case SetBeaconWeight(_) =>
    case GcPool(_) =>
  }

  lemma MainKeepsSilent(c: Config, s: State, m: MainMove)
    requires Silent(c, s) && MainEnabled(c, s, m) && InPhase(c, ApplyMain(c, s, m))
    ensures Silent(c, ApplyMain(c, s, m))
  {
    match m
    case Spawn(ok) => if ok {} else {}
    case StartSender =>
    case Join =>
    case CancelBg =>
    case CloseQueue =>
    case Return =>
  }

  lemma StepKeepsSilent(c: Config, s: State, a: Action)
    requires Enabled(c, s, a) && Silent(c, s) && a != Env(SetBeaconWeight(true))
    ensures Silent(c, Apply(c, s, a))
  {
    StepKeepsPhase(c, s, a);
    match a
    case Env(m) => EnvKeepsSilent(c, s, m);
    case Builder(_, _) =>
    case Beacon(_) =>
    case Frame(i, m) => FrameKeepsSilent(c, s, i, m);
    case Deliver(m) => SenderEffect(s, m);
    case Main(m) => MainKeepsSilent(c, s, m);
  }

  lemma {:induction false} SilentBeaconNeverPanics(c: Config, s: State, run: seq<Action>)
    requires ValidRun(c, s, run) && Silent(c, s) && NeverTurnsBeaconOn(run)
    ensures Exec(c, s, run).crash.NoCrash?
    decreases |run|
  {
    if run != [] {
      assert run[0] != Env(SetBeaconWeight(true));
      StepKeepsSilent(c, s, run[0]);
      SilentBeaconNeverPanics(c, Apply(c, s, run[0]), run[1..]);
    }
  }

  lemma {:induction false} ExecAppend(c: Config, s: State, run: seq<Action>, more: seq<Action>)
    requires ValidRun(c, s, run) && ValidRun(c, Exec(c, s, run), more)
    ensures ValidRun(c, s, run + more) && Exec(c, s, run + more) == Exec(c, Exec(c, s, run), more)
    decreases |run|
  {
    if run == [] {
      assert run + more == more;
    } else {
      assert (run + more)[1..] == run[1..] + more;
      ExecAppend(c, Apply(c, s, run[0]), run[1..], more);
    }
  }

  lemma ReachStep(c: Config, s: State, a: Action)
    requires Reachable(c, s) && Enabled(c, s, a)
    ensures Reachable(c, Apply(c, s, a))
  {
    var running, beaconOn, run :|
      ValidRun(c, Init(c, running, beaconOn), run) && Exec(c, Init(c, running, beaconOn), run) == s;
    var last := Cons(c, s, a, []);
    ExecAppend(c, Init(c, running, beaconOn), run, last);
    assert Exec(c, Init(c, running, beaconOn), run + last) == Apply(c, s, a);
  }

  lemma ReachRun(c: Config, s: State, more: seq<Action>)
    requires Reachable(c, s) && ValidRun(c, s, more)
    ensures Reachable(c, Exec(c, s, more))
  {
    var running, beaconOn, run :|
      ValidRun(c, Init(c, running, beaconOn), run) && Exec(c, Init(c, running, beaconOn), run) == s;
    ExecAppend(c, Init(c, running, beaconOn), run, more);
    assert Exec(c, Init(c, running, beaconOn), run + more) == Exec(c, s, more);
  }

  const ONE_WORKER := Config(1, true)

  /** A one-worker benchmark run is cancelled right after its start; the beacon has not moved yet. */
  lemma CancelledEarly() returns (s: State)
    ensures Reachable(ONE_WORKER, s) && s.crash.NoCrash? && s.main.Joining? && s.feeders == [Exited, AtWait]
  {
    var c := ONE_WORKER;
    s := Init(c, true, true);
    assert ValidRun(c, s, []) && Exec(c, s, []) == s;
    assert s.feeders == [NotStarted, AtWait];
    ReachStep(c, s, Env(Cancel));
    s := Apply(c, s, Env(Cancel));
    ReachStep(c, s, Main(Spawn(true)));
    s := Apply(c, s, Main(Spawn(true)));
    assert s.feeders == [AtWait, AtWait];
    ReachStep(c, s, Main(StartSender));
    s := Apply(c, s, Main(StartSender));
    ReachStep(c, s, Builder(0, Wait));
    s := Apply(c, s, Builder(0, Wait));
    assert s.feeders == [Exited, AtWait];
  }

  lemma ClosedBeforeBeacon() returns (s: State)
    ensures Reachable(ONE_WORKER, s) && s.crash.NoCrash? && s.closed && s.feeders == [Exited, AtWait]
  {
    var c := ONE_WORKER;
    s := CancelledEarly();
    ReachStep(c, s, Main(Join));
    s := Apply(c, s, Main(Join));
    ReachStep(c, s, Main(CancelBg));
    s := Apply(c, s, Main(CancelBg));
    ReachStep(c, s, Main(CloseQueue));
    s := Apply(c, s, Main(CloseQueue));
  }

  /** The panic is real: a run from the start of `Run` ends in a send on the closed queue. */
  lemma BeaconPanicIsReachable()
    ensures exists s :: Reachable(ONE_WORKER, s) && s.crash == ClosedSend(1)
  {
    var s := ClosedBeforeBeacon();
    ReachableInv(ONE_WORKER, s);
    var more := BeaconCanCrash(ONE_WORKER, s);
    ReachRun(ONE_WORKER, s, more);
    ReachableInv(ONE_WORKER, Exec(ONE_WORKER, s, more));
  }
}
