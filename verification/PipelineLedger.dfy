/** Accounting over runs: where ticks go, and how many frames can still follow a stop. */
module PipelineLedger {
  import opened Basics
  import opened Pipeline
  import opened PipelineShutdown

  /** Kinds of steps that are counted along a run. */
  datatype Kind =
    | TickTaken         // a builder passes `wait`
    | BuilderEnqueue
    | BeaconEnqueue
    | Skip              // a builder goes back to `wait` without having enqueued
    | Leave             // a builder exits after a tick

  /** A builder that holds a tick. */
  predicate InFlight(t: Feeder) {
    !t.NotStarted? && !t.AtWait? && !t.Exited?
  }

  predicate Enqueues(s: State, a: Action) {
    a.Frame? && a.frame.Send? && !s.closed
  }

  /** The builder a step moves, if any. */
  function Moved(c: Config, a: Action): Option<nat> {
    if (a.Builder? || a.Frame?) && a.i < c.workers then Some(a.i) else None
  }

  predicate Is(c: Config, s: State, a: Action, k: Kind)
    requires Enabled(c, s, a)
  {
    match k
    case BuilderEnqueue => Enqueues(s, a) && a.i < c.workers
    case BeaconEnqueue => Enqueues(s, a) && a.i == c.workers
    case TickTaken => a.Builder? && a.builder.Wait? && Apply(c, s, a).feeders[a.i].AtCtxCheck?
    case Skip =>
      Moved(c, a).Some? && InFlight(s.feeders[a.i]) && Apply(c, s, a).feeders[a.i].AtWait? && !Enqueues(s, a)
    case Leave => Moved(c, a).Some? && InFlight(s.feeders[a.i]) && Apply(c, s, a).feeders[a.i].Exited?
  }

  function One(b: bool): nat {
    if b then 1 else 0
  }

  /** How many steps of a run are of a kind. */
  function Tally(c: Config, s: State, run: seq<Action>, k: Kind): nat
    requires ValidRun(c, s, run)
    decreases |run|
  {
    if run == [] then 0
    else One(Is(c, s, run[0], k)) + Tally(c, Apply(c, s, run[0]), run[1..], k)
  }

  /** How many of the first feeders satisfy a selection. */
  function CountFeeders(feeders: seq<Feeder>, sel: Feeder -> bool): nat {
    if feeders == [] then 0 else One(sel(feeders[0])) + CountFeeders(feeders[1..], sel)
  }

  lemma {:induction false} CountUpdate(feeders: seq<Feeder>, i: nat, t: Feeder, sel: Feeder -> bool)
    requires i < |feeders|
    ensures CountFeeders(feeders[i := t], sel) == CountFeeders(feeders, sel) + One(sel(t)) - One(sel(feeders[i]))
  {
    if i == 0 {
      assert feeders[i := t][1..] == feeders[1..];
    } else {
      assert feeders[i := t][1..] == feeders[1..][i - 1 := t];
      CountUpdate(feeders[1..], i - 1, t, sel);
    }
  }

  lemma {:induction false} CountAtMost(feeders: seq<Feeder>, sel: Feeder -> bool)
    ensures CountFeeders(feeders, sel) <= |feeders|
  {
    if feeders != [] { CountAtMost(feeders[1..], sel); }
  }

  lemma {:induction false} CountNone(feeders: seq<Feeder>, sel: Feeder -> bool)
    requires forall i | 0 <= i < |feeders| :: !sel(feeders[i])
    ensures CountFeeders(feeders, sel) == 0
  {
    if feeders != [] { CountNone(feeders[1..], sel); }
  }

  /** Builders in a selection. */
  function Builders(c: Config, s: State, sel: Feeder -> bool): nat
    requires |s.feeders| == c.workers + 1
  {
    CountFeeders(s.feeders[..c.workers], sel)
  }

  lemma BuildersUpdate(c: Config, s: State, s': State, i: nat, sel: Feeder -> bool)
    requires |s.feeders| == |s'.feeders| == c.workers + 1 && i <= c.workers
    requires s'.feeders == s.feeders[i := s'.feeders[i]]
    ensures Builders(c, s', sel) ==
            Builders(c, s, sel) + if i < c.workers then One(sel(s'.feeders[i])) - One(sel(s.feeders[i])) else 0
  {
    if i < c.workers {
      CountUpdate(s.feeders[..c.workers], i, s'.feeders[i], sel);
      assert s'.feeders[..c.workers] == s.feeders[..c.workers][i := s'.feeders[i]];
    } else {
      assert s'.feeders[..c.workers] == s.feeders[..c.workers];
    }
  }

  /** What one step adds to the ledger. */
  function Out(c: Config, s: State, a: Action): nat
    requires Enabled(c, s, a)
  {
    One(Is(c, s, a, BuilderEnqueue)) + One(Is(c, s, a, Skip)) + One(Is(c, s, a, Leave))
  }

  lemma BuilderBalance(c: Config, s: State, i: nat, m: BuilderMove)
    requires Enabled(c, s, Builder(i, m))
    ensures var a := Builder(i, m);
            var t := BuilderNext(c, s, s.feeders[i], m);
            One(InFlight(t)) - One(InFlight(s.feeders[i])) == One(Is(c, s, a, TickTaken)) - Out(c, s, a)
  {}

  lemma {:induction false} FrameBalance(c: Config, s: State, i: nat, m: FrameMove)
    requires Enabled(c, s, Frame(i, m)) && i < c.workers && InPhase(c, s)
    ensures var a := Frame(i, m);
            var t := ApplyFrame(c, s, i, m).feeders[i];
            One(InFlight(t)) - One(InFlight(s.feeders[i])) == One(Is(c, s, a, TickTaken)) - Out(c, s, a)
  {
    if m.Send? {
      assert s.feeders[i].AtSend? && !s.closed;
    } else {
      FrameEffect(c, s, i, m);
    }
  }

  /** One step's ledger: a tick taken or held before is accounted for or held after. */
  ghost predicate LedgerBalanced(c: Config, s: State, a: Action, s': State)
    requires Enabled(c, s, a) && |s.feeders| == c.workers + 1
  {
    && |s'.feeders| == c.workers + 1
    && One(Is(c, s, a, TickTaken)) + Builders(c, s, InFlight) == Out(c, s, a) + Builders(c, s', InFlight)
  }

  lemma EnvPending(c: Config, s: State, m: EnvMove)
    requires Enabled(c, s, Env(m))
    ensures LedgerBalanced(c, s, Env(m), ApplyEnv(s, m))
  {
    EnvEffect(s, m);
  }

  lemma BuilderPending(c: Config, s: State, i: nat, m: BuilderMove)
    requires Enabled(c, s, Builder(i, m))
    ensures LedgerBalanced(c, s, Builder(i, m), Goto(s, i, BuilderNext(c, s, s.feeders[i], m)))
  {
    BuilderBalance(c, s, i, m);
    BuildersUpdate(c, s, Goto(s, i, BuilderNext(c, s, s.feeders[i], m)), i, InFlight);
  }

  lemma BeaconPending(c: Config, s: State, m: BeaconMove)
    requires Enabled(c, s, Action.Beacon(m))
    ensures LedgerBalanced(c, s, Action.Beacon(m), Goto(s, c.workers, BeaconNext(s, s.feeders[c.workers], m)))
  {
    BuildersUpdate(c, s, Goto(s, c.workers, BeaconNext(s, s.feeders[c.workers], m)), c.workers, InFlight);
  }

  lemma FramePending(c: Config, s: State, i: nat, m: FrameMove)
    requires Enabled(c, s, Frame(i, m)) && InPhase(c, s)
    ensures LedgerBalanced(c, s, Frame(i, m), ApplyFrame(c, s, i, m))
  {
    if !m.Send? { FrameEffect(c, s, i, m); }
    if i < c.workers { FrameBalance(c, s, i, m); }
    BuildersUpdate(c, s, ApplyFrame(c, s, i, m), i, InFlight);
  }

  lemma SenderPending(c: Config, s: State, m: SenderMove)
    requires Enabled(c, s, Deliver(m))
    ensures LedgerBalanced(c, s, Deliver(m), ApplySender(s, m))
  {
    SenderEffect(s, m);
  }

  lemma MainPending(c: Config, s: State, m: MainMove)
    requires Enabled(c, s, Main(m)) && InPhase(c, s)
    ensures LedgerBalanced(c, s, Main(m), ApplyMain(c, s, m))
  {
    MainEffect(c, s, m);
    if m == Spawn(true) { BuildersUpdate(c, s, ApplyMain(c, s, m), s.main.next, InFlight); }
  }

  lemma StepBalance(c: Config, s: State, a: Action)
    requires Enabled(c, s, a) && InPhase(c, s)
    ensures LedgerBalanced(c, s, a, Apply(c, s, a))
  {
    match a
    case Env(m) => EnvPending(c, s, m);
    case Builder(i, m) => BuilderPending(c, s, i, m);
    case Beacon(m) => BeaconPending(c, s, m);
    case Frame(i, m) => FramePending(c, s, i, m);
    case Deliver(m) => SenderPending(c, s, m);
    case Main(m) => MainPending(c, s, m);
  }

  /** Every tick a builder took is an enqueued frame, a skip, an exit, or still in a builder's hands. */
  lemma {:induction false} TicksAreConserved(c: Config, s: State, run: seq<Action>)
    requires ValidRun(c, s, run) && InPhase(c, s)
    ensures InPhase(c, Exec(c, s, run))
    ensures Tally(c, s, run, TickTaken) + Builders(c, s, InFlight)
            == Tally(c, s, run, BuilderEnqueue) + Tally(c, s, run, Skip) + Tally(c, s, run, Leave)
               + Builders(c, Exec(c, s, run), InFlight)
    decreases |run|
  {
    if run != [] {
      StepKeepsPhase(c, s, run[0]);
      StepBalance(c, s, run[0]);
      TicksAreConserved(c, Apply(c, s, run[0]), run[1..]);
    }
  }

  lemma NoTickAtStart(c: Config, running: bool, beaconOn: bool)
    ensures Builders(c, Init(c, running, beaconOn), InFlight) == 0
  {
    CountNone(Init(c, running, beaconOn).feeders[..c.workers], InFlight);
  }

  /** From the start of `Run`: frames enqueued by builders never exceed the ticks they took. */
  lemma EnqueuedAtMostTicks(c: Config, running: bool, beaconOn: bool, run: seq<Action>)
    requires ValidRun(c, Init(c, running, beaconOn), run)
    ensures var s := Init(c, running, beaconOn);
            Tally(c, s, run, BuilderEnqueue) <= Tally(c, s, run, TickTaken)
  {
    var s := Init(c, running, beaconOn);
    InitInPhase(c, running, beaconOn);
    NoTickAtStart(c, running, beaconOn);
    TicksAreConserved(c, s, run);
  }

  // ------------------------------------------------- frames after a stop

  predicate PastGate(t: Feeder) {
    t.AtPick? || t.AtNext? || t.AtGet? || t.AtBuild? || t.AtSend?
  }

  predicate PastCtxCheck(t: Feeder) {
    t.AtRunning? || PastGate(t)
  }

  predicate BeaconPastGate(t: Feeder) {
    t.AtGet? || t.AtBuild? || t.AtSend?
  }

  predicate NeverResumes(run: seq<Action>) {
    forall k | 0 <= k < |run| :: run[k] != Env(SetRunning(true))
  }

  lemma FrameSpends(c: Config, s: State, i: nat, m: FrameMove)
    requires Enabled(c, s, Frame(i, m)) && (m.Send? ==> !s.closed)
    ensures var t := ApplyFrame(c, s, i, m).feeders[i];
            && One(m.Send?) + One(PastGate(t)) <= One(PastGate(s.feeders[i]))
            && One(m.Send?) + One(PastCtxCheck(t)) <= One(PastCtxCheck(s.feeders[i]))
            && One(m.Send?) + One(BeaconPastGate(t)) <= One(BeaconPastGate(s.feeders[i]))
  {
    if !m.Send? { FrameEffect(c, s, i, m); }
  }

  ghost predicate StartsNothing(c: Config, s: State, s': State, sel: Feeder -> bool)
    requires |s.feeders| == c.workers + 1
  {
    && |s'.feeders| == c.workers + 1 && s'.feeders[c.workers] == s.feeders[c.workers]
    && Builders(c, s', sel) <= Builders(c, s, sel)
  }

  lemma EnvStartsNothing(c: Config, s: State, m: EnvMove, sel: Feeder -> bool)
    requires |s.feeders| == c.workers + 1
    ensures StartsNothing(c, s, ApplyEnv(s, m), sel)
    ensures s.ctxDone ==> ApplyEnv(s, m).ctxDone
    ensures m != SetRunning(true) && !s.running ==> !ApplyEnv(s, m).running
  {
    EnvEffect(s, m);
  }

  lemma SenderStartsNothing(c: Config, s: State, m: SenderMove, sel: Feeder -> bool)
    requires |s.feeders| == c.workers + 1 && SenderEnabled(s, m)
    ensures StartsNothing(c, s, ApplySender(s, m), sel)
    ensures ApplySender(s, m).ctxDone == s.ctxDone && ApplySender(s, m).running == s.running
  {
    SenderEffect(s, m);
  }

  lemma MainStartsNothing(c: Config, s: State, m: MainMove, sel: Feeder -> bool)
    requires |s.feeders| == c.workers + 1 && MainEnabled(c, s, m) && !sel(AtWait)
    ensures StartsNothing(c, s, ApplyMain(c, s, m), sel)
    ensures ApplyMain(c, s, m).ctxDone == s.ctxDone && ApplyMain(c, s, m).running == s.running
  {
    MainEffect(c, s, m);
    if m == Spawn(true) { BuildersUpdate(c, s, ApplyMain(c, s, m), s.main.next, sel); }
  }

  lemma FrameKeepsKnobs(c: Config, s: State, i: nat, m: FrameMove)
    requires i < |s.feeders| && FrameEnabled(c, s, i, s.feeders[i], m)
    ensures var s' := ApplyFrame(c, s, i, m);
            && |s'.feeders| == |s.feeders| && s'.feeders == s.feeders[i := s'.feeders[i]]
            && s'.running == s.running && s'.ctxDone == s.ctxDone
  {
    if !m.Send? { FrameEffect(c, s, i, m); }
  }

  lemma BuilderFrameSpends(c: Config, s: State, i: nat, m: FrameMove)
    requires Enabled(c, s, Frame(i, m)) && InPhase(c, s) && i < c.workers
    ensures var s' := ApplyFrame(c, s, i, m);
            && |s'.feeders| == c.workers + 1 && s'.feeders[c.workers] == s.feeders[c.workers]
            && One(m.Send?) + Builders(c, s', PastGate) <= Builders(c, s, PastGate)
            && One(m.Send?) + Builders(c, s', PastCtxCheck) <= Builders(c, s, PastCtxCheck)
  {
    if m.Send? { assert s.feeders[i].AtSend? && !s.closed; }
    FrameKeepsKnobs(c, s, i, m);
    FrameSpends(c, s, i, m);
    BuildersUpdate(c, s, ApplyFrame(c, s, i, m), i, PastGate);
    BuildersUpdate(c, s, ApplyFrame(c, s, i, m), i, PastCtxCheck);
  }

  lemma BeaconFrameSpends(c: Config, s: State, m: FrameMove)
    requires Enabled(c, s, Frame(c.workers, m))
    ensures var s' := ApplyFrame(c, s, c.workers, m);
            && |s'.feeders| == c.workers + 1
            && Builders(c, s', PastGate) == Builders(c, s, PastGate)
            && Builders(c, s', PastCtxCheck) == Builders(c, s, PastCtxCheck)
            && One(m.Send? && !s.closed) + One(BeaconPastGate(s'.feeders[c.workers]))
               <= One(BeaconPastGate(s.feeders[c.workers]))
  {
    FrameKeepsKnobs(c, s, c.workers, m);
    if !m.Send? || !s.closed { FrameSpends(c, s, c.workers, m); }
    BuildersUpdate(c, s, ApplyFrame(c, s, c.workers, m), c.workers, PastGate);
    BuildersUpdate(c, s, ApplyFrame(c, s, c.workers, m), c.workers, PastCtxCheck);
  }

  lemma FrameStepSpends(c: Config, s: State, i: nat, m: FrameMove)
    requires Enabled(c, s, Frame(i, m)) && InPhase(c, s)
    ensures var a := Frame(i, m);
            var s' := ApplyFrame(c, s, i, m);
            && |s'.feeders| == c.workers + 1
            && One(Is(c, s, a, BuilderEnqueue)) + Builders(c, s', PastGate) <= Builders(c, s, PastGate)
            && One(Is(c, s, a, BuilderEnqueue)) + Builders(c, s', PastCtxCheck) <= Builders(c, s, PastCtxCheck)
            && One(Is(c, s, a, BeaconEnqueue)) + One(BeaconPastGate(s'.feeders[c.workers]))
               <= One(BeaconPastGate(s.feeders[c.workers]))
            && s'.running == s.running && s'.ctxDone == s.ctxDone
  {
    FrameKeepsKnobs(c, s, i, m);
    if i < c.workers { BuilderFrameSpends(c, s, i, m); } else { BeaconFrameSpends(c, s, m); }
  }

  lemma StoppedFeederStep(c: Config, s: State, a: Action)
    requires Enabled(c, s, a) && !s.running && (a.Builder? || a.Beacon?)
    ensures var s' := Apply(c, s, a);
            && |s'.feeders| == c.workers + 1 && !s'.running
            && Builders(c, s', PastGate) <= Builders(c, s, PastGate)
            && One(BeaconPastGate(s'.feeders[c.workers])) <= One(BeaconPastGate(s.feeders[c.workers]))
  {
    BuildersUpdate(c, s, Apply(c, s, a), if a.Builder? then a.i else c.workers, PastGate);
  }

  lemma CancelledFeederStep(c: Config, s: State, a: Action)
    requires Enabled(c, s, a) && s.ctxDone && (a.Builder? || a.Beacon?)
    ensures var s' := Apply(c, s, a);
            && |s'.feeders| == c.workers + 1 && s'.ctxDone
            && Builders(c, s', PastCtxCheck) <= Builders(c, s, PastCtxCheck)
  {
    BuildersUpdate(c, s, Apply(c, s, a), if a.Builder? then a.i else c.workers, PastCtxCheck);
  }

  /** With `Running` off, a step only spends the frames already past the gate. */
  lemma StoppedStep(c: Config, s: State, a: Action)
    requires Enabled(c, s, a) && InPhase(c, s) && !s.running && a != Env(SetRunning(true))
    ensures var s' := Apply(c, s, a);
            && |s'.feeders| == c.workers + 1 && !s'.running
            && One(Is(c, s, a, BuilderEnqueue)) + Builders(c, s', PastGate) <= Builders(c, s, PastGate)
            && One(Is(c, s, a, BeaconEnqueue)) + One(BeaconPastGate(s'.feeders[c.workers]))
               <= One(BeaconPastGate(s.feeders[c.workers]))
  {
    match a
    case Builder(_, _) => StoppedFeederStep(c, s, a);
    case Beacon(_) => StoppedFeederStep(c, s, a);
    case Frame(i, m) => FrameStepSpends(c, s, i, m);
    case Env(m) => EnvStartsNothing(c, s, m, PastGate);
    case Deliver(m) => SenderStartsNothing(c, s, m, PastGate);
    case Main(m) => MainStartsNothing(c, s, m, PastGate);
  }

  /** While `Running` stays 0 at most one frame per builder and one beacon frame can still be enqueued. */
  lemma {:induction false} FramesAfterStop(c: Config, s: State, run: seq<Action>)
    requires ValidRun(c, s, run) && InPhase(c, s) && !s.running && NeverResumes(run)
    ensures Tally(c, s, run, BuilderEnqueue) <= Builders(c, s, PastGate) <= c.workers
    ensures Tally(c, s, run, BeaconEnqueue) <= One(BeaconPastGate(s.feeders[c.workers])) <= 1
    decreases |run|
  {
    CountAtMost(s.feeders[..c.workers], PastGate);
    if run != [] {
      assert run[0] != Env(SetRunning(true));
      StepKeepsPhase(c, s, run[0]);
      StoppedStep(c, s, run[0]);
      FramesAfterStop(c, Apply(c, s, run[0]), run[1..]);
    }
  }

  lemma CancelledStep(c: Config, s: State, a: Action)
    requires Enabled(c, s, a) && InPhase(c, s) && s.ctxDone
    ensures var s' := Apply(c, s, a);
            && |s'.feeders| == c.workers + 1 && s'.ctxDone
            && One(Is(c, s, a, BuilderEnqueue)) + Builders(c, s', PastCtxCheck) <= Builders(c, s, PastCtxCheck)
  {
    match a
    case Builder(_, _) => CancelledFeederStep(c, s, a);
    case Beacon(_) => CancelledFeederStep(c, s, a);
    case Frame(i, m) => FrameStepSpends(c, s, i, m);
    case Env(m) => EnvStartsNothing(c, s, m, PastCtxCheck);
    case Deliver(m) => SenderStartsNothing(c, s, m, PastCtxCheck);
    case Main(m) => MainStartsNothing(c, s, m, PastCtxCheck);
  }

  /** Once the context is cancelled the builders together enqueue at most one more frame each. */
  lemma {:induction false} FramesAfterCancel(c: Config, s: State, run: seq<Action>)
    requires ValidRun(c, s, run) && InPhase(c, s) && s.ctxDone
    ensures Tally(c, s, run, BuilderEnqueue) <= Builders(c, s, PastCtxCheck) <= c.workers
    decreases |run|
  {
    CountAtMost(s.feeders[..c.workers], PastCtxCheck);
    if run != [] {
      StepKeepsPhase(c, s, run[0]);
      CancelledStep(c, s, run[0]);
      FramesAfterCancel(c, Apply(c, s, run[0]), run[1..]);
    }
  }

  // ------------------------------------------------------ tallies and the queue

  lemma FrameEnqueues(c: Config, s: State, i: nat, m: FrameMove)
    requires Enabled(c, s, Frame(i, m))
    ensures |ApplyFrame(c, s, i, m).enqueued| == |s.enqueued| + One(m.Send? && !s.closed)
  {
    if !m.Send? { FrameEffect(c, s, i, m); }
  }

  lemma SenderEnqueuesNothing(s: State, m: SenderMove)
    requires SenderEnabled(s, m)
    ensures ApplySender(s, m).enqueued == s.enqueued
  {
    match m
    case Receive =>
    case Sink(_) =>
    case BumpPattern =>
    case BumpTotal =>
    case Recycle =>
  }

  lemma StepEnqueues(c: Config, s: State, a: Action)
    requires Enabled(c, s, a)
    ensures |Apply(c, s, a).enqueued| ==
            |s.enqueued| + One(Is(c, s, a, BuilderEnqueue)) + One(Is(c, s, a, BeaconEnqueue))
  {
    match a
    case Env(m) => EnvEffect(s, m);
    case Builder(_, _) =>
    case Beacon(_) =>
    case Frame(i, m) => FrameEnqueues(c, s, i, m);
    case Deliver(m) => SenderEnqueuesNothing(s, m);
    case Main(m) => MainEffect(c, s, m);
  }

  /** The tallies count the frames that are put on the channel. */
  lemma {:induction false} EnqueuesAreTallied(c: Config, s: State, run: seq<Action>)
    requires ValidRun(c, s, run)
    ensures |Exec(c, s, run).enqueued| ==
            |s.enqueued| + Tally(c, s, run, BuilderEnqueue) + Tally(c, s, run, BeaconEnqueue)
    decreases |run|
  {
    if run != [] {
      StepEnqueues(c, s, run[0]);
      EnqueuesAreTallied(c, Apply(c, s, run[0]), run[1..]);
    }
  }

  /** After Running is switched off at most one frame per builder and one of the beacon still get queued. */
  lemma StopHolds(c: Config, s: State, rest: seq<Action>)
    requires InPhase(c, s) && Enabled(c, s, Env(SetRunning(false)))
    requires ValidRun(c, Apply(c, s, Env(SetRunning(false))), rest) && NeverResumes(rest)
    ensures |Exec(c, Apply(c, s, Env(SetRunning(false))), rest).enqueued| <= |s.enqueued| + c.workers + 1
  {
    var s1 := Apply(c, s, Env(SetRunning(false)));
    StepKeepsPhase(c, s, Env(SetRunning(false)));
    FramesAfterStop(c, s1, rest);
    EnqueuesAreTallied(c, s1, rest);
  }

  /** After the cancellation the builders together queue at most one more frame each. */
  lemma CancelHolds(c: Config, s: State, rest: seq<Action>)
    requires InPhase(c, s) && Enabled(c, s, Env(Cancel)) && ValidRun(c, Apply(c, s, Env(Cancel)), rest)
    ensures Tally(c, Apply(c, s, Env(Cancel)), rest, BuilderEnqueue) <= c.workers
  {
    StepKeepsPhase(c, s, Env(Cancel));
    FramesAfterCancel(c, Apply(c, s, Env(Cancel)), rest);
  }

  lemma NonePastGateAtStart(c: Config, running: bool, beaconOn: bool)
    ensures Builders(c, Init(c, running, beaconOn), PastGate) == 0
    ensures !BeaconPastGate(Init(c, running, beaconOn).feeders[c.workers])
  {
    CountNone(Init(c, running, beaconOn).feeders[..c.workers], PastGate);
  }

  /** A `Run` that starts with Running off queues nothing until Running is switched on. */
  lemma NothingWithoutRunning(c: Config, beaconOn: bool, run: seq<Action>)
    requires ValidRun(c, Init(c, false, beaconOn), run) && NeverResumes(run)
    ensures Exec(c, Init(c, false, beaconOn), run).enqueued == []
  {
    InitInPhase(c, false, beaconOn);
    NonePastGateAtStart(c, false, beaconOn);
    FramesAfterStop(c, Init(c, false, beaconOn), run);
    EnqueuesAreTallied(c, Init(c, false, beaconOn), run);
  }

  // ------------------------------------------------- the beacon after its weight

  /** The beacon has found its weight positive. */
  predicate BeaconPastWeight(t: Feeder) {
    t.AtNext? || t.AtRunning? || BeaconPastGate(t)
  }

  lemma BeaconFrameWeighs(c: Config, s: State, i: nat, m: FrameMove)
    requires Enabled(c, s, Frame(i, m))
    ensures var s' := ApplyFrame(c, s, i, m);
            && |s'.feeders| == c.workers + 1 && s'.beaconOn == s.beaconOn
            && One(Is(c, s, Frame(i, m), BeaconEnqueue)) + One(BeaconPastWeight(s'.feeders[c.workers]))
               <= One(BeaconPastWeight(s.feeders[c.workers]))
  {
    if !m.Send? { FrameEffect(c, s, i, m); }
  }

  /** With the weight off, a step only spends the frame the beacon is at. */
  lemma WeightlessStep(c: Config, s: State, a: Action)
    requires Enabled(c, s, a) && !s.beaconOn && a != Env(SetBeaconWeight(true))
    ensures var s' := Apply(c, s, a);
            && |s'.feeders| == c.workers + 1 && !s'.beaconOn
            && One(Is(c, s, a, BeaconEnqueue)) + One(BeaconPastWeight(s'.feeders[c.workers]))
               <= One(BeaconPastWeight(s.feeders[c.workers]))
  {
    match a
    case Builder(_, _) =>
    case Beacon(_) =>
    case Frame(i, m) => BeaconFrameWeighs(c, s, i, m);
    case Env(m) => WeightlessEnv(c, s, m);
    case Deliver(m) => SenderEffect(s, m);
    case Main(m) => WeightlessMain(c, s, m);
  }

  lemma WeightlessEnv(c: Config, s: State, m: EnvMove)
    requires !s.beaconOn && m != SetBeaconWeight(true)
    ensures ApplyEnv(s, m).feeders == s.feeders && !ApplyEnv(s, m).beaconOn
  {
    match m
    case Cancel =>
    case SetRunning(_) =>
    case SetBeaconWeight(_) =>
    case GcPool(_) =>
  }

  lemma WeightlessMain(c: Config, s: State, m: MainMove)
    requires |s.feeders| == c.workers + 1 && MainEnabled(c, s, m) && !s.beaconOn
    ensures var s' := ApplyMain(c, s, m);
            |s'.feeders| == c.workers + 1 && s'.feeders[c.workers] == s.feeders[c.workers] && !s'.beaconOn
  {
    match m
    case Spawn(ok) => if ok {} else {}
    case StartSender =>
    case Join =>
    case CancelBg =>
    case CloseQueue =>
    case Return =>
  }

  predicate WeightStaysOff(run: seq<Action>) {
    forall k | 0 <= k < |run| :: run[k] != Env(SetBeaconWeight(true))
  }

  lemma {:induction false} BeaconFramesWithoutWeight(c: Config, s: State, run: seq<Action>)
    requires ValidRun(c, s, run) && !s.beaconOn && WeightStaysOff(run) && |s.feeders| == c.workers + 1
    ensures Tally(c, s, run, BeaconEnqueue) <= One(BeaconPastWeight(s.feeders[c.workers]))
    decreases |run|
  {
    if run != [] {
      assert run[0] != Env(SetBeaconWeight(true));
      WeightlessStep(c, s, run[0]);
      BeaconFramesWithoutWeight(c, Apply(c, s, run[0]), run[1..]);
    }
  }

  /** After the beacon weight is set to zero the beacon queues at most the one frame it is at. */
  lemma SilenceHolds(c: Config, s: State, rest: seq<Action>)
    requires Enabled(c, s, Env(SetBeaconWeight(false)))
    requires ValidRun(c, Apply(c, s, Env(SetBeaconWeight(false))), rest) && WeightStaysOff(rest)
    ensures Tally(c, Apply(c, s, Env(SetBeaconWeight(false))), rest, BeaconEnqueue)
            <= One(BeaconPastWeight(s.feeders[c.workers])) <= 1
  {
    BeaconFramesWithoutWeight(c, Apply(c, s, Env(SetBeaconWeight(false))), rest);
  }
}
