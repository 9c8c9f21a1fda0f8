/**
  What the loops do when nothing holds them up, and why they do not: a builder that may go on delivers
  its frame, every skipped tick has a reason, and nobody leaves before the run is being stopped.
 */
module PipelineProgress {
  import opened Basics
  import opened Pipeline
  import opened PipelineMemory
  import opened PipelineShutdown
  import opened PipelineRuns
  import opened PipelineBeacon
  import opened PipelineLedger

  // ------------------------------------------------ why a tick gives no frame

  /** The steps of builders that give a tick up. */
  predicate SkipReason(c: Config, s: State, a: Action)
    requires |s.feeders| == c.workers + 1
  {
    match a
    case Builder(_, CheckRunning) => !s.running
    case Builder(_, Pick(None)) => true
    case Builder(_, Next(false)) => !s.ctxDone
    case Frame(i, PutBack) => i < c.workers && s.feeders[i].AtPutBack? && !s.feeders[i].leave
    case _ => false
  }

  /** The steps with which a builder leaves after a tick. */
  predicate LeaveReason(c: Config, s: State, a: Action)
    requires |s.feeders| == c.workers + 1
  {
    match a
    case Builder(_, CheckCtx) => s.ctxDone
    case Builder(_, Next(false)) => s.ctxDone
    case Frame(i, PutBack) => i < c.workers && s.feeders[i].AtPutBack? && s.feeders[i].leave
    case _ => false
  }

  /** Step `a` of a builder is a skip, and a leave, exactly for the listed reasons. */
  ghost predicate Explained(c: Config, s: State, a: Action)
    requires Enabled(c, s, a)
  {
    && (Is(c, s, a, Skip) <==> SkipReason(c, s, a))
    && (Is(c, s, a, Leave) <==> LeaveReason(c, s, a))
  }

  lemma CheckReasons(c: Config, s: State, i: nat, m: BuilderMove)
    requires Enabled(c, s, Builder(i, m)) && (m.Wait? || m.CheckCtx? || m.CheckRunning?)
    ensures Explained(c, s, Builder(i, m))
  {
    match m
    case Wait =>
    case CheckCtx =>
    case CheckRunning =>
  }

  lemma PickReasons(c: Config, s: State, i: nat, slot: Option<nat>)
    requires Enabled(c, s, Builder(i, Pick(slot)))
    ensures Explained(c, s, Builder(i, Pick(slot)))
  {
    match slot
    case None =>
    case Some(_) =>
  }

  lemma NextReasons(c: Config, s: State, i: nat, ok: bool)
    requires Enabled(c, s, Builder(i, Next(ok)))
    ensures Explained(c, s, Builder(i, Next(ok)))
  {}

  lemma BuilderReasons(c: Config, s: State, i: nat, m: BuilderMove)
    requires Enabled(c, s, Builder(i, m))
    ensures Explained(c, s, Builder(i, m))
  {
    match m
    case Wait => CheckReasons(c, s, i, m);
    case CheckCtx => CheckReasons(c, s, i, m);
    case CheckRunning => CheckReasons(c, s, i, m);
    case Pick(slot) => PickReasons(c, s, i, slot);
    case Next(ok) => NextReasons(c, s, i, ok);
  }

  lemma FrameReasons(c: Config, s: State, i: nat, m: FrameMove)
    requires Enabled(c, s, Frame(i, m)) && InPhase(c, s)
    ensures Explained(c, s, Frame(i, m))
  {
    match m
    case Get(pooled) => GetEffect(s, i, pooled);
    case Build(result) => BuildEffect(s, i, result);
    case PutBack =>
    case Send => if i < c.workers { assert !s.closed; }
    case Abort =>
  }

  /**
    A tick is given up only by a check of Running that finds it off, a pick without a slot, a failed
    generator, or the put-back after a pack error; a builder leaves only when it sees the cancelled
    context or puts back the frame it could not send.
   */
  lemma SkipsAndLeavesHaveReasons(c: Config, s: State, a: Action)
    requires Enabled(c, s, a) && InPhase(c, s)
    ensures Explained(c, s, a)
  {
    match a
    case Builder(i, m) => BuilderReasons(c, s, i, m);
    case Frame(i, m) => FrameReasons(c, s, i, m);
    case _ =>
  }

  lemma BuildPutsBack(s: State, i: nat, result: BuildResult)
    requires i < |s.feeders| && s.feeders[i].AtBuild? && CanBuild(s, s.feeders[i].buf, result)
    ensures var t := ApplyBuild(s, i, result).feeders[i];
            (t.AtPutBack? <==> result.PackError?) && (t.AtPutBack? ==> !t.leave)
  {
    match result
    case PackError(_) =>
    case InPlace(_) =>
    case Moved(_, _, _) =>
  }

  /** A feeder starts to put a buffer back after a pack error, or, with the context cancelled, to leave. */
  lemma PutBackHasReason(c: Config, s: State, i: nat, m: FrameMove)
    requires Enabled(c, s, Frame(i, m)) && !m.PutBack? && i < |ApplyFrame(c, s, i, m).feeders|
    requires ApplyFrame(c, s, i, m).feeders[i].AtPutBack?
    ensures !ApplyFrame(c, s, i, m).feeders[i].leave <==> m.Build? && m.result.PackError?
    ensures ApplyFrame(c, s, i, m).feeders[i].leave <==> m.Abort?
    ensures m.Abort? ==> s.ctxDone || (i == c.workers && s.bgDone)
  {
    match m
    case Get(pooled) => GetEffect(s, i, pooled);
    case Build(result) => BuildPutsBack(s, i, result);
    case Send =>
    case Abort =>
  }

  /**
    The beacon sleeps only for a weight of zero, starts over only after a sleep or with Running off, and
    leaves only from its two waits.
   */
  lemma BeaconTurnsHaveReasons(c: Config, s: State, m: BeaconMove)
    requires Enabled(c, s, Action.Beacon(m))
    ensures var t := Apply(c, s, Action.Beacon(m)).feeders[c.workers];
            && (t.AtSleep? <==> m.CheckWeight? && !s.beaconOn)
            && (t.AtWait? <==> m == Sleep(true) || (m.CheckGate? && !s.running))
            && (t.Exited? <==> m == Sleep(false) || m == Emit(false))
            && (t.Exited? ==> s.ctxDone || s.bgDone)
  {
    match m
    case CheckWeight =>
    case Sleep(woken) => if woken {} else {}
    case Emit(ok) => if ok {} else {}
    case CheckGate =>
  }

  // --------------------------------------------------- nobody leaves too early

  /** Feeder `i` has left, or is about to. */
  predicate Gone(t: Feeder) {
    t.Exited? || (t.AtPutBack? && t.leave)
  }

  /** Feeder `i` in place `t` is not gone without a reason. */
  predicate InTime(c: Config, s: State, i: nat, t: Feeder) {
    Gone(t) ==> s.ctxDone || (if i == c.workers then s.bgDone else t.Exited? && s.bucketClosed)
  }

  /** The flags `Run` sets, exactly. */
  predicate FlagsExact(c: Config, s: State) {
    && (s.bgDone <==> s.main.Closing? || s.main.Draining? || s.main.Returned? || s.main.Failed?)
    && (s.bucketClosed <==> !c.unbound && (s.main.Returned? || s.main.Failed?))
    && (s.closed <==> s.main.Draining? || s.main.Returned?)
  }

  predicate NobodyGoneEarly(c: Config, s: State)
    requires |s.feeders| == c.workers + 1
  {
    && (forall i | 0 <= i <= c.workers :: InTime(c, s, i, s.feeders[i]))
    && (PastJoin(s.main) && c.workers > 0 ==> s.ctxDone)
  }

  ghost predicate Orderly(c: Config, s: State) {
    InPhase(c, s) && FlagsExact(c, s) && NobodyGoneEarly(c, s)
  }

  /** What a step of a feeder leaves alone. */
  predicate SameFlags(s: State, s': State) {
    && s'.ctxDone == s.ctxDone && s'.bgDone == s.bgDone && s'.bucketClosed == s.bucketClosed
    && s'.closed == s.closed && s'.main == s.main
  }

  lemma FeederKeepsOrderly(c: Config, s: State, s': State, i: nat)
    requires Orderly(c, s) && InPhase(c, s') && SameFlags(s, s') && i <= c.workers
    requires s'.feeders == s.feeders[i := s'.feeders[i]]
    requires InTime(c, s, i, s'.feeders[i])
    ensures Orderly(c, s')
  {}

  lemma BuilderLeavesInTime(c: Config, s: State, i: nat, m: BuilderMove)
    requires Orderly(c, s) && Enabled(c, s, Builder(i, m))
    ensures InTime(c, s, i, BuilderNext(c, s, s.feeders[i], m))
  {
    match m
    case Wait =>
    case CheckCtx =>
    case CheckRunning =>
    case Pick(slot) => if slot.None? {} else {}
    case Next(ok) => if ok {} else {}
  }

  lemma BeaconLeavesInTime(c: Config, s: State, m: BeaconMove)
    requires Orderly(c, s) && Enabled(c, s, Action.Beacon(m))
    ensures InTime(c, s, c.workers, BeaconNext(s, s.feeders[c.workers], m))
  {
    match m
    case CheckWeight =>
    case Sleep(woken) => if woken {} else {}
    case Emit(ok) => if ok {} else {}
    case CheckGate =>
  }

  lemma FrameLeavesInTime(c: Config, s: State, i: nat, m: FrameMove)
    requires Orderly(c, s) && Enabled(c, s, Frame(i, m))
    ensures var s' := ApplyFrame(c, s, i, m);
            && |s'.feeders| == |s.feeders| && s'.feeders == s.feeders[i := s'.feeders[i]] && SameFlags(s, s')
            && InTime(c, s, i, s'.feeders[i])
  {
    assert InTime(c, s, i, s.feeders[i]);
    if !m.Send? {
      FrameEffect(c, s, i, m);
      if !m.PutBack? && ApplyFrame(c, s, i, m).feeders[i].AtPutBack? { PutBackHasReason(c, s, i, m); }
    }
  }

  lemma MainKeepsOrderly(c: Config, s: State, m: MainMove)
    requires Orderly(c, s) && MainEnabled(c, s, m) && InPhase(c, ApplyMain(c, s, m))
    ensures Orderly(c, ApplyMain(c, s, m))
  {
    match m
    case Spawn(ok) => if ok { assert forall i | 0 <= i <= c.workers && i != s.main.next ::
                                ApplyMain(c, s, m).feeders[i] == s.feeders[i]; } else {}
    case StartSender =>
    case Join => if c.workers > 0 { assert Gone(s.feeders[0]) && InTime(c, s, 0, s.feeders[0]); }
    case CancelBg =>
    case CloseQueue =>
    case Return =>
  }

  lemma EnvKeepsOrderly(c: Config, s: State, m: EnvMove)
    requires Orderly(c, s) && InPhase(c, ApplyEnv(s, m))
    ensures Orderly(c, ApplyEnv(s, m))
  {
    match m
    case Cancel =>
    case SetRunning(_) =>
    case SetBeaconWeight(_) =>
    case GcPool(_) =>
  }

  lemma SenderKeepsOrderly(c: Config, s: State, m: SenderMove)
    requires Orderly(c, s) && SenderEnabled(s, m) && InPhase(c, ApplySender(s, m))
    ensures Orderly(c, ApplySender(s, m))
  {
    SenderEffect(s, m);
  }

  lemma StepKeepsOrderly(c: Config, s: State, a: Action)
    requires Enabled(c, s, a) && Orderly(c, s)
    ensures Orderly(c, Apply(c, s, a))
  {
    StepKeepsPhase(c, s, a);
    match a
    case Env(m) => EnvKeepsOrderly(c, s, m);
    case Builder(i, m) =>
      BuilderLeavesInTime(c, s, i, m);
      FeederKeepsOrderly(c, s, Apply(c, s, a), i);
    case Beacon(m) =>
      BeaconLeavesInTime(c, s, m);
      FeederKeepsOrderly(c, s, Apply(c, s, a), c.workers);
    case Frame(i, m) =>
      FrameLeavesInTime(c, s, i, m);
      FeederKeepsOrderly(c, s, Apply(c, s, a), i);
    case Deliver(m) => SenderKeepsOrderly(c, s, m);
    case Main(m) => MainKeepsOrderly(c, s, m);
  }

  lemma {:induction false} RunKeepsOrderly(c: Config, s: State, run: seq<Action>)
    requires ValidRun(c, s, run) && Orderly(c, s)
    ensures Orderly(c, Exec(c, s, run))
    decreases |run|
  {
    if run != [] {
      StepKeepsOrderly(c, s, run[0]);
      RunKeepsOrderly(c, Apply(c, s, run[0]), run[1..]);
    }
  }

  lemma InitOrderly(c: Config, running: bool, beaconOn: bool)
    ensures Orderly(c, Init(c, running, beaconOn))
  {
    InitInPhase(c, running, beaconOn);
  }

  lemma ReachableOrderly(c: Config, s: State)
    requires Reachable(c, s)
    ensures Orderly(c, s)
  {
    var running, beaconOn, run :|
      ValidRun(c, Init(c, running, beaconOn), run) && Exec(c, Init(c, running, beaconOn), run) == s;
    InitOrderly(c, running, beaconOn);
    RunKeepsOrderly(c, Init(c, running, beaconOn), run);
  }

  /**
    In every reachable state: a builder has left (or is about to) only after the cancellation or, in
    bounded mode, after the bucket was closed by the end of `Run`; the beacon only after either
    cancellation; the queue is closed, and `Run` returns, only after the caller's cancellation.
   */
  lemma NobodyLeavesEarly(c: Config, s: State)
    requires Reachable(c, s)
    ensures |s.feeders| == c.workers + 1
    ensures forall i | 0 <= i < c.workers :: Gone(s.feeders[i]) ==>
              s.ctxDone || (!c.unbound && (s.main.Returned? || s.main.Failed?))
    ensures Gone(s.feeders[c.workers]) ==>
              s.ctxDone || s.main.Closing? || s.main.Draining? || s.main.Returned? || s.main.Failed?
    ensures c.workers > 0 && (s.closed || s.main.Returned?) ==> s.ctxDone
  {
    ReachableOrderly(c, s);
  }

  /** Every skip of a run has its reason, and every leave comes after the cancellation. */
  ghost predicate ReasonsAlong(c: Config, s: State, run: seq<Action>)
    requires ValidRun(c, s, run)
    decreases |run|
  {
    run != [] ==>
      && (|s.feeders| == c.workers + 1 && Is(c, s, run[0], Skip) ==> SkipReason(c, s, run[0]))
      && (Is(c, s, run[0], Leave) ==> s.ctxDone)
      && ReasonsAlong(c, Apply(c, s, run[0]), run[1..])
  }

  lemma OrderlyStepHasReason(c: Config, s: State, a: Action)
    requires Orderly(c, s) && Enabled(c, s, a)
    ensures Is(c, s, a, Skip) ==> SkipReason(c, s, a)
    ensures Is(c, s, a, Leave) ==> s.ctxDone
  {
    SkipsAndLeavesHaveReasons(c, s, a);
    if Is(c, s, a, Leave) && a.Frame? {
      assert InTime(c, s, a.i, s.feeders[a.i]);
    }
  }

  lemma {:induction false} OrderlyRunHasReasons(c: Config, s: State, run: seq<Action>)
    requires ValidRun(c, s, run) && Orderly(c, s)
    ensures ReasonsAlong(c, s, run)
    decreases |run|
  {
    if run != [] {
      OrderlyStepHasReason(c, s, run[0]);
      StepKeepsOrderly(c, s, run[0]);
      OrderlyRunHasReasons(c, Apply(c, s, run[0]), run[1..]);
    }
  }

  /** Along every run from the start of `Run`: no tick is given up, and no builder leaves, without a reason. */
  lemma EveryRunHasReasons(c: Config, running: bool, beaconOn: bool, run: seq<Action>)
    requires ValidRun(c, Init(c, running, beaconOn), run)
    ensures ReasonsAlong(c, Init(c, running, beaconOn), run)
  {
    InitOrderly(c, running, beaconOn);
    OrderlyRunHasReasons(c, Init(c, running, beaconOn), run);
  }

  // ------------------------------------------------------ a frame that gets through

  /** The slots of a mixer, in the order `NewWithPatterns` lists them. */
  const SLOT_NAMES: seq<Name> := [Background, WellKnown, Dga, FastFlux, DynDns, Exfil, Exotic, Evasion]

  /** A run that feeder `i` takes alone: it ends at `wait` again, with one more frame in the queue. */
  ghost predicate Delivers(c: Config, s: State, run: seq<Action>, i: nat, entry: Entry) {
    && ValidRun(c, s, run) && i < |s.feeders|
    && var e := Exec(c, s, run);
       && e.enqueued == s.enqueued + [entry]
       && |e.queue| == |s.queue| + 1 && e.queue[..|s.queue|] == s.queue && e.queue[|s.queue|].name == entry.name
       && e.feeders == s.feeders[i := AtWait]
       && e.sender == s.sender && e.attempts == s.attempts && e.sent == s.sent && e.total == s.total
  }

  /** `s'` differs from `s` by feeder `i` and memory. */
  ghost predicate Moving(s: State, s': State, i: nat) {
    && i < |s.feeders| == |s'.feeders| && s'.feeders == s.feeders[i := s'.feeders[i]]
    && s'.enqueued == s.enqueued && s'.queue == s.queue && s'.closed == s.closed && s'.crash == s.crash
    && s'.sender == s.sender && s'.attempts == s.attempts && s'.sent == s.sent && s'.total == s.total
  }

  lemma DeliversLater(c: Config, s: State, a: Action, rest: seq<Action>, i: nat, entry: Entry)
    requires Enabled(c, s, a) && Moving(s, Apply(c, s, a), i) && Delivers(c, Apply(c, s, a), rest, i, entry)
    ensures Delivers(c, s, [a] + rest, i, entry)
  {
    var run := Cons(c, s, a, rest);
    assert run == [a] + rest;
    assert s.feeders[i := Apply(c, s, a).feeders[i]][i := AtWait] == s.feeders[i := AtWait];
  }

  /** The capacity of the buffer a feeder takes. */
  function Room(s: State, pooled: Option<Slice>): nat {
    match pooled
    case None => 512
    case Some(b) => if b.arr < |s.heap| then |s.heap[b.arr]| else 0
  }

  /** What `append` does with a frame: in place when it fits, otherwise a new array. */
  function Written(bytes: seq<byte>, room: nat): BuildResult {
    if |bytes| <= room then InPlace(bytes) else Moved(bytes, [], Zeros(room))
  }

  lemma SendDelivers(c: Config, s: State, i: nat, name: Name, bytes: seq<byte>)
    requires |s.feeders| == c.workers + 1 && i <= c.workers && s.crash.NoCrash? && !s.closed
    requires |s.queue| < 8 * c.workers
    requires s.feeders[i].AtSend? && s.feeders[i].name == name && s.feeders[i].produced == bytes
    ensures Delivers(c, s, [Frame(i, Send)], i, Entry(name, bytes))
  {
    var e := Apply(c, s, Frame(i, Send));
    assert ValidRun(c, e, []) && Exec(c, e, []) == e;
    var run := Cons(c, s, Frame(i, Send), []);
    assert run == [Frame(i, Send)];
  }

  lemma BuildDelivers(c: Config, s: State, i: nat, name: Name, bytes: seq<byte>, room: nat)
    requires |s.feeders| == c.workers + 1 && i <= c.workers && s.crash.NoCrash? && !s.closed
    requires |s.queue| < 8 * c.workers
    requires s.feeders[i].AtBuild? && s.feeders[i].name == name
    requires s.feeders[i].buf.arr < |s.heap| && |s.heap[s.feeders[i].buf.arr]| == room
    ensures Delivers(c, s, [Frame(i, Build(Written(bytes, room))), Frame(i, Send)], i, Entry(name, bytes))
  {
    var a := Frame(i, Build(Written(bytes, room)));
    BuildEffect(s, i, Written(bytes, room));
    SendDelivers(c, Apply(c, s, a), i, name, bytes);
    DeliversLater(c, s, a, [Frame(i, Send)], i, Entry(name, bytes));
  }

  function FrameRun(i: nat, pooled: Option<Slice>, bytes: seq<byte>, room: nat): seq<Action> {
    [Frame(i, Get(pooled))] + [Frame(i, Build(Written(bytes, room))), Frame(i, Send)]
  }

  /** From `get` on: whatever buffer the feeder takes, its frame is queued under its name. */
  lemma GetDelivers(c: Config, s: State, i: nat, name: Name, pooled: Option<Slice>, bytes: seq<byte>)
    requires |s.feeders| == c.workers + 1 && i <= c.workers && s.crash.NoCrash? && !s.closed
    requires |s.queue| < 8 * c.workers
    requires s.feeders[i] == AtGet(name)
    requires pooled.Some? ==> pooled.value in s.pool && pooled.value.arr < |s.heap|
    ensures Delivers(c, s, FrameRun(i, pooled, bytes, Room(s, pooled)), i, Entry(name, bytes))
  {
    var a := Frame(i, Get(pooled));
    var room := Room(s, pooled);
    GetEffect(s, i, pooled);
    BuildDelivers(c, Apply(c, s, a), i, name, bytes, room);
    DeliversLater(c, s, a, [Frame(i, Build(Written(bytes, room))), Frame(i, Send)], i, Entry(name, bytes));
  }

  function BuilderRun(i: nat, k: nat, frame: seq<Action>): seq<Action> {
    [Builder(i, Wait)] + ([Builder(i, CheckCtx)] + ([Builder(i, CheckRunning)]
    + ([Builder(i, Pick(Some(k)))] + ([Builder(i, Next(true))] + frame))))
  }

  function BeaconRun(frame: seq<Action>): seq<Action> {
    [Action.Beacon(CheckWeight)] + ([Action.Beacon(Emit(true))] + ([Action.Beacon(CheckGate)] + frame))
  }

  lemma BuilderMovesOn(c: Config, s: State, i: nat, m: BuilderMove, rest: seq<Action>, entry: Entry)
    requires Enabled(c, s, Builder(i, m))
    requires Delivers(c, Goto(s, i, BuilderNext(c, s, s.feeders[i], m)), rest, i, entry)
    ensures Delivers(c, s, [Builder(i, m)] + rest, i, entry)
  {
    DeliversLater(c, s, Builder(i, m), rest, i, entry);
  }

  lemma BeaconMovesOn(c: Config, s: State, m: BeaconMove, rest: seq<Action>, entry: Entry)
    requires Enabled(c, s, Action.Beacon(m))
    requires Delivers(c, Goto(s, c.workers, BeaconNext(s, s.feeders[c.workers], m)), rest, c.workers, entry)
    ensures Delivers(c, s, [Action.Beacon(m)] + rest, c.workers, entry)
  {
    DeliversLater(c, s, Action.Beacon(m), rest, c.workers, entry);
  }

  /** Nothing stands between feeder `i` and the queue. */
  predicate Unhindered(c: Config, s: State, i: nat, pooled: Option<Slice>) {
    && |s.feeders| == c.workers + 1 && i <= c.workers
    && s.crash.NoCrash? && s.running && !s.ctxDone && !s.closed
    && |s.queue| < 8 * c.workers
    && (pooled.Some? ==> pooled.value in s.pool && pooled.value.arr < |s.heap|)
  }

  lemma PickDelivers(c: Config, s: State, i: nat, k: nat, pooled: Option<Slice>, bytes: seq<byte>)
    requires Unhindered(c, s, i, pooled) && i < c.workers && k < 8 && s.feeders[i] == AtPick
    ensures Delivers(c, s, [Builder(i, Pick(Some(k)))] + ([Builder(i, Next(true))]
                           + FrameRun(i, pooled, bytes, Room(s, pooled))), i, Entry(SLOT_NAMES[k], bytes))
  {
    var frame := FrameRun(i, pooled, bytes, Room(s, pooled));
    var s1 := Goto(s, i, AtNext(SLOT_NAMES[k]));
    var s2 := Goto(s1, i, AtGet(SLOT_NAMES[k]));
    GetDelivers(c, s2, i, SLOT_NAMES[k], pooled, bytes);
    BuilderMovesOn(c, s1, i, Next(true), frame, Entry(SLOT_NAMES[k], bytes));
    BuilderMovesOn(c, s, i, Pick(Some(k)), [Builder(i, Next(true))] + frame, Entry(SLOT_NAMES[k], bytes));
  }

  lemma WaitDelivers(c: Config, s: State, i: nat, k: nat, pooled: Option<Slice>, bytes: seq<byte>)
    requires Unhindered(c, s, i, pooled) && i < c.workers && k < 8 && s.feeders[i] == AtWait && !s.bucketClosed
    ensures Delivers(c, s, BuilderRun(i, k, FrameRun(i, pooled, bytes, Room(s, pooled))), i, Entry(SLOT_NAMES[k], bytes))
  {
    var entry := Entry(SLOT_NAMES[k], bytes);
    var pick := [Builder(i, Pick(Some(k)))] + ([Builder(i, Next(true))] + FrameRun(i, pooled, bytes, Room(s, pooled)));
    var s1 := Goto(s, i, AtCtxCheck);
    var s2 := Goto(s1, i, AtRunning);
    var s3 := Goto(s2, i, AtPick);
    PickDelivers(c, s3, i, k, pooled, bytes);
    BuilderMovesOn(c, s2, i, CheckRunning, pick, entry);
    BuilderMovesOn(c, s1, i, CheckCtx, [Builder(i, CheckRunning)] + pick, entry);
    BuilderMovesOn(c, s, i, Wait, [Builder(i, CheckCtx)] + ([Builder(i, CheckRunning)] + pick), entry);
  }

  /**
    In every reachable state: with Running on, no cancellation and room in the queue, a builder at
    `wait` can take a tick, a slot, a buffer (pooled or new) and write any bytes, and its run queues
    exactly one frame, with that slot's name and those bytes.
   */
  lemma BuilderDelivers(c: Config, s: State, i: nat, k: nat, pooled: Option<Slice>, bytes: seq<byte>)
    requires Reachable(c, s) && s.crash.NoCrash? && i < c.workers && i < |s.feeders| && s.feeders[i].AtWait?
    requires s.running && !s.ctxDone && !s.bucketClosed && |s.queue| < 8 * c.workers
    requires k < 8 && (pooled.Some? ==> pooled.value in s.pool)
    ensures Delivers(c, s, BuilderRun(i, k, FrameRun(i, pooled, bytes, Room(s, pooled))), i, Entry(SLOT_NAMES[k], bytes))
  {
    ReachableInv(c, s);
    BuffersHaveOneOwner(c, s);
    WaitDelivers(c, s, i, k, pooled, bytes);
  }

  /** The same for the beacon, once its weight is positive. */
  lemma BeaconDelivers(c: Config, s: State, pooled: Option<Slice>, bytes: seq<byte>)
    requires Reachable(c, s) && s.crash.NoCrash? && |s.feeders| == c.workers + 1 && s.feeders[c.workers].AtWait?
    requires s.running && s.beaconOn && !s.ctxDone && !s.closed && |s.queue| < 8 * c.workers
    requires pooled.Some? ==> pooled.value in s.pool
    ensures Delivers(c, s, BeaconRun(FrameRun(c.workers, pooled, bytes, Room(s, pooled))), c.workers, Entry(Name.Beacon, bytes))
  {
    BuffersHaveOneOwner(c, s);
    GateDelivers(c, s, pooled, bytes);
  }

  lemma GateDelivers(c: Config, s: State, pooled: Option<Slice>, bytes: seq<byte>)
    requires Unhindered(c, s, c.workers, pooled) && s.beaconOn && s.feeders[c.workers] == AtWait
    ensures Delivers(c, s, BeaconRun(FrameRun(c.workers, pooled, bytes, Room(s, pooled))), c.workers, Entry(Name.Beacon, bytes))
  {
    var frame := FrameRun(c.workers, pooled, bytes, Room(s, pooled));
    var entry := Entry(Name.Beacon, bytes);
    var s1 := Goto(s, c.workers, AtNext(Name.Beacon));
    var s2 := Goto(s1, c.workers, AtRunning);
    var s3 := Goto(s2, c.workers, AtGet(Name.Beacon));
    GetDelivers(c, s3, c.workers, Name.Beacon, pooled, bytes);
    BeaconMovesOn(c, s2, CheckGate, frame, entry);
    BeaconMovesOn(c, s1, Emit(true), [Action.Beacon(CheckGate)] + frame, entry);
    BeaconMovesOn(c, s, CheckWeight, [Action.Beacon(Emit(true))] + ([Action.Beacon(CheckGate)] + frame), entry);
  }

  // ------------------------------------------------- what the sender does with it

  lemma Prepend(c: Config, s: State, a: Action, rest: seq<Action>)
    requires Enabled(c, s, a) && ValidRun(c, Apply(c, s, a), rest)
    ensures ValidRun(c, s, [a] + rest) && Exec(c, s, [a] + rest) == Exec(c, Apply(c, s, a), rest)
  {
    var run := Cons(c, s, a, rest);
    assert run == [a] + rest;
  }

  /** `put`: an array of more than 64 KiB is dropped, any other goes back empty. */
  function PutBackPool(s: State, arr: nat): multiset<Slice>
    requires arr < |s.heap|
  {
    if |s.heap[arr]| > 65536 then s.pool else s.pool + multiset{Slice(arr, 0)}
  }

  lemma RecycleEnds(c: Config, s: State)
    requires |s.feeders| == c.workers + 1 && s.crash.NoCrash? && s.sender.AtRecycle? && s.sender.frame.arr < |s.heap|
    ensures ValidRun(c, s, [Deliver(Recycle)])
    ensures Exec(c, s, [Deliver(Recycle)]) == s.(sender := AtReceive, pool := PutBackPool(s, s.sender.frame.arr))
  {
    var e := Apply(c, s, Deliver(Recycle));
    assert ValidRun(c, e, []) && Exec(c, e, []) == e;
    Prepend(c, s, Deliver(Recycle), []);
    assert [Deliver(Recycle)] + [] == [Deliver(Recycle)];
  }

  const COUNTING: seq<Action> := [Deliver(BumpPattern)] + ([Deliver(BumpTotal)] + [Deliver(Recycle)])

  lemma CountingEnds(c: Config, s: State, item: Item)
    requires |s.feeders| == c.workers + 1 && s.crash.NoCrash? && s.sender == AtBumpPattern(item) && item.frame.arr < |s.heap|
    ensures ValidRun(c, s, COUNTING)
    ensures Exec(c, s, COUNTING) == s.(sender := AtReceive, pool := PutBackPool(s, item.frame.arr),
                                       sent := s.sent.Bump(item.name), total := s.total + 1)
  {
    var s1 := s.(sender := AtBumpTotal(item), sent := s.sent.Bump(item.name));
    var s2 := s1.(sender := AtRecycle(item.frame), total := s.total + 1);
    RecycleEnds(c, s2);
    Prepend(c, s1, Deliver(BumpTotal), [Deliver(Recycle)]);
    Prepend(c, s, Deliver(BumpPattern), [Deliver(BumpTotal)] + [Deliver(Recycle)]);
  }

  /** All the sender does with the first frame of the queue. */
  function SenderRun(ok: bool): seq<Action> {
    [Deliver(Receive)] + ([Deliver(Sink(ok))] + if ok then COUNTING else [Deliver(Recycle)])
  }

  /** The sink has answered `ok` for the first frame of the queue. */
  ghost predicate Answered(s: State, e: State, ok: bool)
    requires s.queue != [] && s.queue[0].frame.arr < |s.heap|
  {
    var item := s.queue[0];
    && e.sender == AtReceive && e.queue == s.queue[1..]
    && e.attempts == s.attempts + [Attempt(Entry(item.name, Peek(s.heap, item.frame)), ok)]
    && e.total == s.total + (if ok then 1 else 0)
    && e.sent == (if ok then s.sent.Bump(item.name) else s.sent)
    && e.pool == PutBackPool(s, item.frame.arr)
    && e.heap == s.heap && e.feeders == s.feeders && e.enqueued == s.enqueued
  }

  lemma SenderAnswers(c: Config, s: State, ok: bool)
    requires |s.feeders| == c.workers + 1 && s.crash.NoCrash?
    requires s.sender.AtReceive? && s.queue != [] && s.queue[0].frame.arr < |s.heap|
    ensures ValidRun(c, s, SenderRun(ok)) && Answered(s, Exec(c, s, SenderRun(ok)), ok)
  {
    var item := s.queue[0];
    var s1 := s.(queue := s.queue[1..], sender := AtSink(item));
    var s2 := ApplySink(s1, ok);
    if ok { CountingEnds(c, s2, item); } else { RecycleEnds(c, s2); }
    var rest := if ok then COUNTING else [Deliver(Recycle)];
    Prepend(c, s1, Deliver(Sink(ok)), rest);
    Prepend(c, s, Deliver(Receive), [Deliver(Sink(ok))] + rest);
  }

  /**
    In every reachable state the sender can take the first queued frame to its end: the sink gets it
    once, an accepted frame raises its own counter and the total by one, a refused one raises none, and
    either way its array goes back to the pool unless it is larger than 64 KiB.
   */
  lemma SenderFinishes(c: Config, s: State, ok: bool)
    requires Reachable(c, s) && s.crash.NoCrash? && s.sender.AtReceive? && s.queue != []
    ensures s.queue[0].frame.arr < |s.heap|
    ensures ValidRun(c, s, SenderRun(ok)) && Answered(s, Exec(c, s, SenderRun(ok)), ok)
  {
    ReachableInv(c, s);
    var owner :| MemoryBy(s, owner);
    assert Held(s, QueueHolder(|s.enqueued| - |s.queue|)) == Some(s.queue[0].frame);
    SenderAnswers(c, s, ok);
  }

  /** The panic ends the process: nothing follows it. */
  lemma CrashIsFinal(c: Config, s: State, a: Action)
    requires s.crash.ClosedSend?
    ensures !Enabled(c, s, a)
  {}
}
