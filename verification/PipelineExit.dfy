/** When a goroutine can leave by its own steps: exactly when it has been told to, and where a blocked send keeps it. */
module PipelineExit {
  import opened Basics
  import opened Pipeline
  import opened PipelineMemory
  import opened PipelineShutdown
  import opened PipelineRuns
  import opened PipelineProgress

  /** A step of feeder `i` itself. */
  predicate Own(c: Config, i: nat, a: Action) {
    match a
    case Builder(j, _) => j == i
    case Beacon(_) => i == c.workers
    case Frame(j, _) => j == i
    case _ => false
  }

  predicate OwnRun(c: Config, i: nat, run: seq<Action>) {
    forall k | 0 <= k < |run| :: Own(c, i, run[k])
  }

  /** Feeder `i` alone can come to its end, without a panic. */
  ghost predicate CanLeave(c: Config, s: State, i: nat) {
    exists run :: OwnRun(c, i, run) && LeavesBy(c, s, i, run)
  }

  ghost predicate LeavesBy(c: Config, s: State, i: nat, run: seq<Action>) {
    && ValidRun(c, s, run)
    && var e := Exec(c, s, run); i < |e.feeders| && e.feeders[i].Exited? && e.crash.NoCrash?
  }

  lemma LeavesLater(c: Config, s: State, i: nat, a: Action)
    requires Enabled(c, s, a) && Own(c, i, a) && CanLeave(c, Apply(c, s, a), i)
    ensures CanLeave(c, s, i)
  {
    var rest :| OwnRun(c, i, rest) && LeavesBy(c, Apply(c, s, a), i, rest);
    Prepend(c, s, a, rest);
    assert OwnRun(c, i, [a] + rest) && LeavesBy(c, s, i, [a] + rest);
  }

  lemma LeftAlready(c: Config, s: State, i: nat)
    requires i < |s.feeders| && s.feeders[i].Exited? && s.crash.NoCrash?
    ensures CanLeave(c, s, i)
  {
    assert Exec(c, s, []) == s;
    assert OwnRun(c, i, []) && LeavesBy(c, s, i, []);
  }

  // ------------------------------------------------------------- the way out

  /** Steps to the exit of a feeder that has been told to leave: `cancelled` by its context, or by the bucket. */
  function StepsOut(t: Feeder, cancelled: bool, beacon: bool): nat {
    match t
    case Exited => 0
    case AtPutBack(_, leave) => if leave then 1 else 3
    case AtSleep => 1
    case AtNext(_) => if beacon then 1 else 3
    case AtSend(_, _, _) => 3
    case AtWait => 2
    case AtCtxCheck => if cancelled then 1 else 5
    case AtPick => 3
    case AtRunning => if beacon then 6 else 4
    case AtBuild(_, _) => 4
    case AtGet(_) => 5
    case NotStarted => 0
  }

  function WayOut(c: Config, s: State, i: nat, t: Feeder): Action {
    match t
    case AtWait => if i == c.workers then Action.Beacon(CheckWeight) else Builder(i, Wait)
    case AtCtxCheck => Builder(i, CheckCtx)
    case AtSleep => Action.Beacon(Sleep(false))
    case AtRunning => if i == c.workers then Action.Beacon(CheckGate) else Builder(i, CheckRunning)
    case AtPick => Builder(i, Pick(None))
    case AtNext(_) => if i == c.workers then Action.Beacon(Emit(false)) else Builder(i, Next(false))
    case AtGet(_) => Frame(i, Get(None))
    case AtBuild(_, buf) => Frame(i, Build(PackError(if buf.arr < |s.heap| then s.heap[buf.arr] else [])))
    case AtSend(_, _, _) => if Cancelled(c, s, i) then Frame(i, Abort) else Frame(i, Send)
    case _ => Frame(i, PutBack)
  }

  /** Feeder `i` has been told to leave, and no full queue holds it. */
  predicate Told(c: Config, s: State, i: nat)
    requires i < |s.feeders|
  {
    || Cancelled(c, s, i)
    || (i < c.workers && s.bucketClosed && !(s.feeders[i].AtSend? && |s.queue| >= 8 * c.workers))
  }

  /** Action `a` brings feeder `i` nearer to its exit. */
  ghost predicate NearerOut(c: Config, s: State, i: nat, a: Action)
    requires i < |s.feeders| == c.workers + 1
  {
    && Enabled(c, s, a) && Own(c, i, a)
    && var s' := Apply(c, s, a);
       && |s'.feeders| == c.workers + 1 && s'.crash.NoCrash? && !s'.feeders[i].NotStarted?
       && Cancelled(c, s', i) == Cancelled(c, s, i) && Told(c, s', i)
       && StepsOut(s'.feeders[i], Cancelled(c, s', i), i == c.workers)
          < StepsOut(s.feeders[i], Cancelled(c, s, i), i == c.workers)
  }

  /** What the way out needs of a state. */
  ghost predicate Leaving(c: Config, s: State, i: nat) {
    && InPhase(c, s) && FlagsExact(c, s) && s.crash.NoCrash? && i <= c.workers
    && Told(c, s, i) && !s.feeders[i].NotStarted? && !s.feeders[i].Exited?
    && (FeederBuffer(s.feeders[i]).Some? ==> FeederBuffer(s.feeders[i]).value.arr < |s.heap|)
  }

  lemma BuilderGoesOut(c: Config, s: State, i: nat, m: BuilderMove)
    requires Leaving(c, s, i) && i < c.workers && WayOut(c, s, i, s.feeders[i]) == Builder(i, m)
    ensures NearerOut(c, s, i, Builder(i, m))
  {
    match m
    case Wait =>
    case CheckCtx =>
    case CheckRunning =>
    case Pick(_) =>
    case Next(_) =>
  }

  lemma BeaconGoesOut(c: Config, s: State, m: BeaconMove)
    requires Leaving(c, s, c.workers) && WayOut(c, s, c.workers, s.feeders[c.workers]) == Action.Beacon(m)
    ensures NearerOut(c, s, c.workers, Action.Beacon(m))
  {
    match m
    case CheckWeight =>
    case Sleep(_) =>
    case Emit(_) =>
    case CheckGate =>
  }

  lemma GetGoesOut(c: Config, s: State, i: nat)
    requires Leaving(c, s, i) && s.feeders[i].AtGet?
    ensures NearerOut(c, s, i, Frame(i, Get(None)))
  {
    GetEffect(s, i, None);
  }

  lemma PackErrorGoesOut(c: Config, s: State, i: nat, scribble: seq<byte>)
    requires Leaving(c, s, i) && s.feeders[i].AtBuild? && CanBuild(s, s.feeders[i].buf, PackError(scribble))
    ensures NearerOut(c, s, i, Frame(i, Build(PackError(scribble))))
  {}

  lemma PutBackGoesOut(c: Config, s: State, i: nat)
    requires Leaving(c, s, i) && s.feeders[i].AtPutBack?
    ensures NearerOut(c, s, i, Frame(i, PutBack))
  {}

  lemma SendGoesOut(c: Config, s: State, i: nat)
    requires Leaving(c, s, i) && s.feeders[i].AtSend? && !Cancelled(c, s, i)
    ensures NearerOut(c, s, i, Frame(i, Send))
  {}

  lemma AbortGoesOut(c: Config, s: State, i: nat)
    requires Leaving(c, s, i) && s.feeders[i].AtSend? && Cancelled(c, s, i)
    ensures NearerOut(c, s, i, Frame(i, Abort))
  {}

  lemma FrameGoesOut(c: Config, s: State, i: nat, m: FrameMove)
    requires Leaving(c, s, i) && WayOut(c, s, i, s.feeders[i]) == Frame(i, m)
    ensures NearerOut(c, s, i, Frame(i, m))
  {
    match m
    case Get(_) => GetGoesOut(c, s, i);
    case Build(result) => PackErrorGoesOut(c, s, i, result.scribble);
    case PutBack => PutBackGoesOut(c, s, i);
    case Send => SendGoesOut(c, s, i);
    case Abort => AbortGoesOut(c, s, i);
  }

  lemma GoesOut(c: Config, s: State, i: nat)
    requires Leaving(c, s, i)
    ensures NearerOut(c, s, i, WayOut(c, s, i, s.feeders[i]))
  {
    match WayOut(c, s, i, s.feeders[i])
    case Builder(_, m) => BuilderGoesOut(c, s, i, m);
    case Beacon(m) => BeaconGoesOut(c, s, m);
    case Frame(_, m) => FrameGoesOut(c, s, i, m);
  }

  lemma ToldIsLeaving(c: Config, s: State, i: nat)
    requires Inv(c, s) && Orderly(c, s) && s.crash.NoCrash? && i <= c.workers && Told(c, s, i)
    requires !s.feeders[i].NotStarted? && !s.feeders[i].Exited?
    ensures Leaving(c, s, i)
  {
    var owner :| MemoryBy(s, owner);
    assert Held(s, FeederHolder(i)) == FeederBuffer(s.feeders[i]);
  }

  lemma {:induction false} ToldCanLeave(c: Config, s: State, i: nat)
    requires Inv(c, s) && Orderly(c, s) && s.crash.NoCrash? && i <= c.workers && Told(c, s, i)
    requires !s.feeders[i].NotStarted?
    ensures CanLeave(c, s, i)
    decreases StepsOut(s.feeders[i], Cancelled(c, s, i), i == c.workers)
  {
    if s.feeders[i].Exited? {
      LeftAlready(c, s, i);
    } else {
      var a := WayOut(c, s, i, s.feeders[i]);
      ToldIsLeaving(c, s, i);
      GoesOut(c, s, i);
      StepKeepsInv(c, s, a);
      StepKeepsOrderly(c, s, a);
      ToldCanLeave(c, Apply(c, s, a), i);
      LeavesLater(c, s, i, a);
    }
  }

  // --------------------------------------------------------- nothing else helps

  lemma OwnStepKeepsFlags(c: Config, s: State, i: nat, a: Action)
    requires Enabled(c, s, a) && Own(c, i, a)
    ensures SameFlags(s, Apply(c, s, a))
  {
    match a
    case Builder(_, _) =>
    case Beacon(_) =>
    case Frame(j, m) => if !m.Send? { FrameEffect(c, s, j, m); }
  }

  lemma {:induction false} OwnRunKeepsFlags(c: Config, s: State, i: nat, run: seq<Action>)
    requires ValidRun(c, s, run) && OwnRun(c, i, run)
    ensures SameFlags(s, Exec(c, s, run))
    decreases |run|
  {
    if run != [] {
      assert Own(c, i, run[0]);
      OwnStepKeepsFlags(c, s, i, run[0]);
      OwnRunKeepsFlags(c, Apply(c, s, run[0]), i, run[1..]);
    }
  }

  /** A send on a full open queue without a cancellation leaves nothing to do. */
  lemma BlockedSendStays(c: Config, s: State, i: nat, a: Action)
    requires |s.feeders| == c.workers + 1 && i < c.workers && s.feeders[i].AtSend?
    requires !s.ctxDone && !s.closed && |s.queue| >= 8 * c.workers && Own(c, i, a)
    ensures !Enabled(c, s, a)
  {
    match a
    case Builder(_, m) => match m { case Wait => case CheckCtx => case CheckRunning => case Pick(_) => case Next(_) => }
    case Frame(_, m) => match m { case Get(_) => case Build(_) => case PutBack => case Send => case Abort => }
    case _ =>
  }

  lemma ExitedInTime(c: Config, s: State, i: nat)
    requires Orderly(c, s) && i <= c.workers && s.feeders[i].Exited?
    ensures s.ctxDone || (if i == c.workers then s.bgDone else s.bucketClosed)
  {
    assert InTime(c, s, i, s.feeders[i]);
  }

  lemma UntoldCannotLeave(c: Config, s: State, i: nat)
    requires Orderly(c, s) && i <= c.workers && !Told(c, s, i) && !s.feeders[i].Exited?
    ensures !CanLeave(c, s, i)
  {
    if CanLeave(c, s, i) {
      var run :| OwnRun(c, i, run) && LeavesBy(c, s, i, run);
      assert run != [];
      assert Own(c, i, run[0]) && Enabled(c, s, run[0]);
      if i < c.workers && s.bucketClosed {
        BlockedSendStays(c, s, i, run[0]);
      } else {
        RunKeepsOrderly(c, s, run);
        OwnRunKeepsFlags(c, s, i, run);
        ExitedInTime(c, Exec(c, s, run), i);
      }
    }
  }

  /**
    In every reachable state a started builder can leave by its own steps exactly when it has left, the
    context is cancelled, or, in bounded mode after a failed start, the closed bucket lets it: a builder
    at its send to a full queue is stuck then, for there is no sender.
   */
  lemma BuilderCanLeaveIff(c: Config, s: State, i: nat)
    requires Reachable(c, s) && s.crash.NoCrash? && i < c.workers && i < |s.feeders| && !s.feeders[i].NotStarted?
    ensures CanLeave(c, s, i) <==>
            || s.feeders[i].Exited? || s.ctxDone
            || (!c.unbound && s.main.Failed? && !(s.feeders[i].AtSend? && |s.queue| >= 8 * c.workers))
  {
    ReachableInv(c, s);
    ReachableOrderly(c, s);
    if s.feeders[i].Exited? {
      LeftAlready(c, s, i);
    } else if Told(c, s, i) {
      ToldCanLeave(c, s, i);
    } else {
      UntoldCannotLeave(c, s, i);
    }
  }

  /** The beacon can leave by its own steps, without a panic, exactly when it has left or either context is cancelled. */
  lemma BeaconCanLeaveIff(c: Config, s: State)
    requires Reachable(c, s) && s.crash.NoCrash?
    ensures |s.feeders| == c.workers + 1
    ensures CanLeave(c, s, c.workers) <==>
            || s.feeders[c.workers].Exited? || s.ctxDone
            || s.main.Closing? || s.main.Draining? || s.main.Returned? || s.main.Failed?
  {
    ReachableInv(c, s);
    ReachableOrderly(c, s);
    if s.feeders[c.workers].Exited? {
      LeftAlready(c, s, c.workers);
    } else if Told(c, s, c.workers) {
      ToldCanLeave(c, s, c.workers);
    } else {
      UntoldCannotLeave(c, s, c.workers);
    }
  }
}
