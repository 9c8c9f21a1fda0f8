/**
  The beacon's panic in terms of the two knobs a caller of `Run` sets: it can happen exactly when
  `Running` and the beacon weight are both on at the start, if neither is turned on later.
 */
module PipelineKnobs {
  import opened Pipeline
  import opened PipelineShutdown
  import opened PipelineRuns
  import opened PipelineBeacon
  import opened PipelineLedger
  import opened PipelineTermination

  predicate TurnsKnobOn(a: Action) {
    a == Env(SetRunning(true)) || a == Env(SetBeaconWeight(true))
  }

  predicate KnobsStayOff(run: seq<Action>) {
    NeverResumes(run) && NeverTurnsBeaconOn(run)
  }

  /** Some run that turns no knob on ends in a send on the closed queue. */
  ghost predicate CanPanic(c: Config, s: State) {
    exists run :: ValidRun(c, s, run) && KnobsStayOff(run) && Exec(c, s, run).crash.ClosedSend?
  }

  lemma KnobsStayOffCons(a: Action, rest: seq<Action>)
    requires !TurnsKnobOn(a) && KnobsStayOff(rest)
    ensures KnobsStayOff([a] + rest)
  {}

  // ------------------------------------------ both knobs on: drive to the close

  /** Both knobs on, nothing failed, and the beacon before its first step. */
  ghost predicate Driving(c: Config, s: State) {
    && Inv(c, s) && s.crash.NoCrash? && !s.main.Failed?
    && s.running && s.beaconOn && s.feeders[c.workers].AtWait?
  }

  /** What a productive step of `SomethingCanMove` leaves alone. */
  ghost predicate KeepsBeacon(c: Config, s: State, s': State)
    requires |s.feeders| == c.workers + 1
  {
    && s'.running == s.running && s'.beaconOn == s.beaconOn && s'.crash == s.crash && s'.ctxDone == s.ctxDone
    && |s'.feeders| == c.workers + 1 && s'.feeders[c.workers] == s.feeders[c.workers]
    && (s'.main.Failed? ==> s.main.Failed?)
  }

  lemma MainKeepsBeacon(c: Config, s: State, m: MainMove)
    requires |s.feeders| == c.workers + 1 && MainEnabled(c, s, m) && m != Spawn(false)
    ensures KeepsBeacon(c, s, ApplyMain(c, s, m))
  {
    match m
    case Spawn(_) =>
    case StartSender =>
    case Join =>
    case CancelBg =>
    case CloseQueue =>
    case Return =>
  }

  lemma FrameKeepsBeacon(c: Config, s: State, i: nat, m: FrameMove)
    requires InPhase(c, s) && i < c.workers && FrameEnabled(c, s, i, s.feeders[i], m)
    ensures KeepsBeacon(c, s, ApplyFrame(c, s, i, m))
  {
    if m.Send? {
      assert s.feeders[i].AtSend? && !s.closed;
    } else {
      FrameEffect(c, s, i, m);
    }
  }

  lemma ProductiveKeepsBeacon(c: Config, s: State, a: Action)
    requires Enabled(c, s, a) && InPhase(c, s) && Productive(c, s, a) && a != Main(Spawn(false))
    ensures KeepsBeacon(c, s, Apply(c, s, a))
  {
    match a
    case Builder(_, _) =>
    case Frame(i, m) => FrameKeepsBeacon(c, s, i, m);
    case Deliver(m) => SenderEffect(s, m);
    case Main(m) => MainKeepsBeacon(c, s, m);
  }

  /** From a cancelled state some run without a knob closes the queue and leaves the beacon where it is. */
  lemma {:induction false} DriveToClose(c: Config, s: State) returns (run: seq<Action>)
    requires Driving(c, s) && s.ctxDone
    ensures ValidRun(c, s, run) && KnobsStayOff(run)
    ensures Driving(c, Exec(c, s, run)) && Exec(c, s, run).closed
    decreases Fuel(c, s)
  {
    if s.closed {
      run := [];
    } else {
      var a := SomethingCanMove(c, s);
      StepKeepsInv(c, s, a);
      StepBurns(c, s, a);
      ProductiveKeepsBeacon(c, s, a);
      var rest := DriveToClose(c, Apply(c, s, a));
      KnobsStayOffCons(a, rest);
      run := Cons(c, s, a, rest);
    }
  }

  /** With both knobs on the beacon's way to its send needs no knob. */
  lemma BeaconNeedsNoKnob(c: Config, s: State)
    requires Inv(c, s) && Alive(c, s) && s.running && s.beaconOn && !s.feeders[c.workers].AtSend?
    ensures var a := TowardsSend(s, c.workers, s.feeders[c.workers]);
            && Nearer(c, s, a) && !TurnsKnobOn(a)
            && Apply(c, s, a).running && Apply(c, s, a).beaconOn
  {
    BeaconMoves(c, s);
    var a := TowardsSend(s, c.workers, s.feeders[c.workers]);
    match a
    case Beacon(_) =>
    case Frame(i, m) => FrameEffect(c, s, i, m);
  }

  lemma {:induction false} CrashWithoutKnobs(c: Config, s: State) returns (run: seq<Action>)
    requires Inv(c, s) && Alive(c, s) && s.running && s.beaconOn
    ensures ValidRun(c, s, run) && KnobsStayOff(run) && Exec(c, s, run).crash.ClosedSend?
    decreases StepsToSend(s, s.feeders[c.workers])
  {
    var a := TowardsSend(s, c.workers, s.feeders[c.workers]);
    var rest := [];
    if !s.feeders[c.workers].AtSend? {
      BeaconNeedsNoKnob(c, s);
      StepKeepsInv(c, s, a);
      rest := CrashWithoutKnobs(c, Apply(c, s, a));
    }
    KnobsStayOffCons(a, rest);
    run := Cons(c, s, a, rest);
  }

  lemma DrivenCanPanic(c: Config, s: State) returns (run: seq<Action>)
    requires Driving(c, s) && s.ctxDone
    ensures ValidRun(c, s, run) && KnobsStayOff(run) && Exec(c, s, run).crash.ClosedSend?
  {
    var drive := DriveToClose(c, s);
    var crash := CrashWithoutKnobs(c, Exec(c, s, drive));
    ExecAppend(c, s, drive, crash);
    run := drive + crash;
  }

  lemma CancelDrives(c: Config, s: State)
    requires Driving(c, s)
    ensures Enabled(c, s, Env(Cancel))
    ensures Driving(c, Apply(c, s, Env(Cancel))) && Apply(c, s, Env(Cancel)).ctxDone
  {
    StepKeepsInv(c, s, Env(Cancel));
  }

  lemma DrivingCanPanic(c: Config, s: State)
    requires Driving(c, s)
    ensures CanPanic(c, s)
  {
    CancelDrives(c, s);
    var rest := DrivenCanPanic(c, Apply(c, s, Env(Cancel)));
    KnobsStayOffCons(Env(Cancel), rest);
    var run := Cons(c, s, Env(Cancel), rest);
  }

  // ----------------------------------------------- `Running` off from the start

  /** The beacon has not passed its gate. */
  ghost predicate Gated(c: Config, s: State) {
    && InPhase(c, s) && s.crash.NoCrash? && !s.running
    && var t := s.feeders[c.workers]; !t.AtGet? && !t.AtBuild? && !t.AtSend? && !t.AtPutBack?
  }

  lemma FrameKeepsGated(c: Config, s: State, i: nat, m: FrameMove)
    requires Gated(c, s) && i <= c.workers && FrameEnabled(c, s, i, s.feeders[i], m)
    requires InPhase(c, ApplyFrame(c, s, i, m))
    ensures Gated(c, ApplyFrame(c, s, i, m))
  {
    assert i < c.workers;
    FrameKeepsBeacon(c, s, i, m);
  }

  lemma MainKeepsGated(c: Config, s: State, m: MainMove)
    requires Gated(c, s) && MainEnabled(c, s, m) && InPhase(c, ApplyMain(c, s, m))
    ensures Gated(c, ApplyMain(c, s, m))
  {
    match m
    case Spawn(ok) => if ok {} else {}
    case StartSender =>
    case Join =>
    case CancelBg =>
    case CloseQueue =>
    case Return =>
  }

  lemma EnvKeepsGated(c: Config, s: State, m: EnvMove)
    requires Gated(c, s) && InPhase(c, ApplyEnv(s, m)) && m != SetRunning(true)
    ensures Gated(c, ApplyEnv(s, m))
  {
    match m
    case Cancel =>
    case SetRunning(_) =>
    case SetBeaconWeight(_) =>
    case GcPool(_) =>
  }

  lemma StepKeepsGated(c: Config, s: State, a: Action)
    requires Enabled(c, s, a) && Gated(c, s) && a != Env(SetRunning(true))
    ensures Gated(c, Apply(c, s, a))
  {
    StepKeepsPhase(c, s, a);
    match a
    case Env(m) => EnvKeepsGated(c, s, m);
    case Builder(_, _) =>
    case Beacon(_) =>
    case Frame(i, m) => FrameKeepsGated(c, s, i, m);
    case Deliver(m) => SenderEffect(s, m);
    case Main(m) => MainKeepsGated(c, s, m);
  }

  /** A stopped beacon before its gate never panics, unless `Running` comes back. */
  lemma {:induction false} StoppedBeaconNeverPanics(c: Config, s: State, run: seq<Action>)
    requires ValidRun(c, s, run) && Gated(c, s) && NeverResumes(run)
    ensures Exec(c, s, run).crash.NoCrash?
    decreases |run|
  {
    if run != [] {
      assert run[0] != Env(SetRunning(true));
      StepKeepsGated(c, s, run[0]);
      StoppedBeaconNeverPanics(c, Apply(c, s, run[0]), run[1..]);
    }
  }

  lemma KnobOffNeverPanics(c: Config, running: bool, beaconOn: bool, run: seq<Action>)
    requires ValidRun(c, Init(c, running, beaconOn), run) && KnobsStayOff(run) && !(running && beaconOn)
    ensures Exec(c, Init(c, running, beaconOn), run).crash.NoCrash?
  {
    InitInPhase(c, running, beaconOn);
    if running {
      SilentBeaconNeverPanics(c, Init(c, running, beaconOn), run);
    } else {
      StoppedBeaconNeverPanics(c, Init(c, running, beaconOn), run);
    }
  }

  /** A start with both knobs on, as far as the drive to the panic needs it. */
  predicate FreshStart(c: Config, s: State) {
    && s.crash.NoCrash? && !s.main.Failed? && s.running && s.beaconOn
    && |s.feeders| == c.workers + 1 && s.feeders[c.workers].AtWait?
  }

  lemma InitIsFresh(c: Config)
    ensures FreshStart(c, Init(c, true, true))
  {}

  lemma FreshStartCanPanic(c: Config, s: State)
    requires Inv(c, s) && FreshStart(c, s)
    ensures CanPanic(c, s)
  {
    DrivingCanPanic(c, s);
  }

  lemma KnobsOnCanPanic(c: Config)
    ensures CanPanic(c, Init(c, true, true))
  {
    InitHolds(c, true, true);
    InitIsFresh(c);
    FreshStartCanPanic(c, Init(c, true, true));
  }

  lemma KnobOffCannotPanic(c: Config, running: bool, beaconOn: bool)
    requires !(running && beaconOn)
    ensures !CanPanic(c, Init(c, running, beaconOn))
  {
    if CanPanic(c, Init(c, running, beaconOn)) {
      var run :| ValidRun(c, Init(c, running, beaconOn), run) && KnobsStayOff(run)
                 && Exec(c, Init(c, running, beaconOn), run).crash.ClosedSend?;
      KnobOffNeverPanics(c, running, beaconOn, run);
    }
  }

  /** For every configuration: a run that turns no knob on can panic exactly when both were on at the start. */
  lemma PanicPossibleIffKnobsOn(c: Config, running: bool, beaconOn: bool)
    ensures CanPanic(c, Init(c, running, beaconOn)) <==> running && beaconOn
  {
    if running && beaconOn {
      KnobsOnCanPanic(c);
    } else {
      KnobOffCannotPanic(c, running, beaconOn);
    }
  }
}
