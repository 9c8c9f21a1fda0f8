/** A backing array that `append` replaced is dropped for good: nobody holds it again, nor does the pool. */
module PipelineOrphans {
  import opened Basics
  import opened Pipeline
  import opened PipelineMemory
  import opened PipelineRuns

  ghost predicate Orphan(s: State, a: nat) {
    && a < |s.heap|
    && (forall h :: Held(s, h).Some? ==> Held(s, h).value.arr != a)
    && (forall b :: b in s.pool ==> b.arr != a)
  }

  /** The array a frame outgrew has no owner afterwards. */
  lemma MovedArrayIsOrphan(s: State, i: nat, bytes: seq<byte>, spare: seq<byte>, scribble: seq<byte>)
    requires Memory(s) && i < |s.feeders| && s.feeders[i].AtBuild?
    requires CanBuild(s, s.feeders[i].buf, Moved(bytes, spare, scribble))
    ensures Orphan(ApplyBuild(s, i, Moved(bytes, spare, scribble)), s.feeders[i].buf.arr)
  {
    var s' := ApplyBuild(s, i, Moved(bytes, spare, scribble));
    var owner :| MemoryBy(s, owner);
    var me := FeederHolder(i);
    assert Held(s, me) == Some(s.feeders[i].buf);
    OtherHoldersStay(s, s', i);
  }

  lemma FeederKeepsOrphan(s: State, s': State, i: nat, a: nat)
    requires Orphan(s, a) && i < |s.feeders| == |s'.feeders| && |s.heap| <= |s'.heap|
    requires s'.feeders == s.feeders[i := s'.feeders[i]]
    requires s'.sender == s.sender && s'.queue == s.queue && s'.enqueued == s.enqueued
    requires FeederBuffer(s'.feeders[i]).Some? ==> FeederBuffer(s'.feeders[i]).value.arr != a
    requires forall b :: b in s'.pool ==> b.arr != a
    ensures Orphan(s', a)
  {
    OtherHoldersStay(s, s', i);
  }

  lemma GetPooledKeepsOrphan(s: State, i: nat, b: Slice, a: nat)
    requires Orphan(s, a) && i < |s.feeders| && s.feeders[i].AtGet? && b in s.pool
    ensures Orphan(ApplyGet(s, i, Some(b)), a)
  {
    FeederKeepsOrphan(s, ApplyGet(s, i, Some(b)), i, a);
  }

  lemma GetFreshKeepsOrphan(s: State, i: nat, a: nat)
    requires Orphan(s, a) && i < |s.feeders| && s.feeders[i].AtGet?
    ensures Orphan(ApplyGet(s, i, None), a)
  {
    FeederKeepsOrphan(s, ApplyGet(s, i, None), i, a);
  }

  lemma GetKeepsOrphan(s: State, i: nat, pooled: Option<Slice>, a: nat)
    requires Orphan(s, a) && i < |s.feeders| && s.feeders[i].AtGet? && (pooled.Some? ==> pooled.value in s.pool)
    ensures Orphan(ApplyGet(s, i, pooled), a)
  {
    match pooled
    case Some(b) => GetPooledKeepsOrphan(s, i, b, a);
    case None => GetFreshKeepsOrphan(s, i, a);
  }

  lemma PackErrorKeepsOrphan(s: State, i: nat, scribble: seq<byte>, a: nat)
    requires Orphan(s, a) && i < |s.feeders| && s.feeders[i].AtBuild?
    requires CanBuild(s, s.feeders[i].buf, PackError(scribble))
    ensures Orphan(ApplyBuild(s, i, PackError(scribble)), a)
  {
    assert Held(s, FeederHolder(i)) == Some(s.feeders[i].buf);
    FeederKeepsOrphan(s, ApplyBuild(s, i, PackError(scribble)), i, a);
  }

  lemma InPlaceKeepsOrphan(s: State, i: nat, bytes: seq<byte>, a: nat)
    requires Orphan(s, a) && i < |s.feeders| && s.feeders[i].AtBuild? && CanBuild(s, s.feeders[i].buf, InPlace(bytes))
    ensures Orphan(ApplyBuild(s, i, InPlace(bytes)), a)
  {
    assert Held(s, FeederHolder(i)) == Some(s.feeders[i].buf);
    FeederKeepsOrphan(s, ApplyBuild(s, i, InPlace(bytes)), i, a);
  }

  lemma MovedKeepsOrphan(s: State, i: nat, bytes: seq<byte>, spare: seq<byte>, scribble: seq<byte>, a: nat)
    requires Orphan(s, a) && i < |s.feeders| && s.feeders[i].AtBuild?
    requires CanBuild(s, s.feeders[i].buf, Moved(bytes, spare, scribble))
    ensures Orphan(ApplyBuild(s, i, Moved(bytes, spare, scribble)), a)
  {
    FeederKeepsOrphan(s, ApplyBuild(s, i, Moved(bytes, spare, scribble)), i, a);
  }

  lemma BuildKeepsOrphan(s: State, i: nat, result: BuildResult, a: nat)
    requires Orphan(s, a) && i < |s.feeders| && s.feeders[i].AtBuild? && CanBuild(s, s.feeders[i].buf, result)
    ensures Orphan(ApplyBuild(s, i, result), a)
  {
    match result
    case PackError(scribble) => PackErrorKeepsOrphan(s, i, scribble, a);
    case InPlace(bytes) => InPlaceKeepsOrphan(s, i, bytes, a);
    case Moved(bytes, spare, scribble) => MovedKeepsOrphan(s, i, bytes, spare, scribble, a);
  }

  lemma PutBackKeepsOrphan(s: State, i: nat, a: nat)
    requires Orphan(s, a) && i < |s.feeders| && s.feeders[i].AtPutBack? && s.feeders[i].buf.arr < |s.heap|
    ensures Orphan(ApplyPutBack(s, i), a)
  {
    assert Held(s, FeederHolder(i)) == Some(s.feeders[i].buf);
    FeederKeepsOrphan(s, ApplyPutBack(s, i), i, a);
  }

  lemma GotoKeepsOrphan(s: State, i: nat, t: Feeder, a: nat)
    requires Orphan(s, a) && i < |s.feeders|
    requires FeederBuffer(t) == None || FeederBuffer(t) == FeederBuffer(s.feeders[i])
    ensures Orphan(Goto(s, i, t), a)
  {
    assert Held(s, FeederHolder(i)) == FeederBuffer(s.feeders[i]);
    FeederKeepsOrphan(s, Goto(s, i, t), i, a);
  }

  lemma QueuedKeepsOrphan(s: State, i: nat, a: nat)
    requires Orphan(s, a) && i < |s.feeders| && s.feeders[i].AtSend? && |s.queue| <= |s.enqueued| && !s.closed
    ensures Orphan(ApplySend(s, i), a)
  {
    var s' := ApplySend(s, i);
    var me, place := FeederHolder(i), QueueHolder(|s.enqueued|);
    assert forall h :: h != me && h != place ==> Held(s', h) == Held(s, h);
    assert Held(s', place) == Held(s, me) && Held(s', me) == None;
  }

  lemma SendKeepsOrphan(s: State, i: nat, a: nat)
    requires Orphan(s, a) && i < |s.feeders| && s.feeders[i].AtSend? && |s.queue| <= |s.enqueued|
    ensures Orphan(ApplySend(s, i), a)
  {
    if s.closed {
      SameHoldersKeepOrphan(s, ApplySend(s, i), a);
    } else {
      QueuedKeepsOrphan(s, i, a);
    }
  }

  lemma FrameKeepsOrphan(c: Config, s: State, i: nat, m: FrameMove, a: nat)
    requires Orphan(s, a) && i < |s.feeders| && FrameEnabled(c, s, i, s.feeders[i], m) && |s.queue| <= |s.enqueued|
    ensures Orphan(ApplyFrame(c, s, i, m), a)
  {
    match m
    case Get(pooled) => GetKeepsOrphan(s, i, pooled, a);
    case Build(result) => BuildKeepsOrphan(s, i, result, a);
    case PutBack => PutBackKeepsOrphan(s, i, a);
    case Send => SendKeepsOrphan(s, i, a);
    case Abort => GotoKeepsOrphan(s, i, AtPutBack(s.feeders[i].frame, true), a);
  }

  lemma ReceiveKeepsOrphan(s: State, a: nat)
    requires Orphan(s, a) && s.sender.AtReceive? && s.queue != [] && |s.queue| <= |s.enqueued|
    ensures Orphan(ApplyReceive(s), a)
  {
    var s' := ApplyReceive(s);
    var place := QueueHolder(|s.enqueued| - |s.queue|);
    assert forall h :: h != SenderHolder && h != place ==> Held(s', h) == Held(s, h);
    assert Held(s', SenderHolder) == Held(s, place) && Held(s', place) == None;
  }

  lemma RecycleKeepsOrphan(s: State, a: nat)
    requires Orphan(s, a) && s.sender.AtRecycle? && s.sender.frame.arr < |s.heap|
    ensures Orphan(ApplyRecycle(s), a)
  {
    var s' := ApplyRecycle(s);
    assert Held(s, SenderHolder) == Some(s.sender.frame);
    assert forall h :: h != SenderHolder ==> Held(s', h) == Held(s, h);
  }

  lemma SameHoldersKeepOrphan(s: State, s': State, a: nat)
    requires Orphan(s, a)
    requires s'.heap == s.heap && s'.feeders == s.feeders && s'.queue == s.queue && s'.enqueued == s.enqueued
    requires SenderBuffer(s'.sender) == None || SenderBuffer(s'.sender) == SenderBuffer(s.sender)
    requires forall b :: b in s'.pool ==> b in s.pool
    ensures Orphan(s', a)
  {
    assert forall h :: Held(s', h) == None || Held(s', h) == Held(s, h);
  }

  lemma SenderKeepsOrphan(s: State, m: SenderMove, a: nat)
    requires Orphan(s, a) && SenderEnabled(s, m) && |s.queue| <= |s.enqueued|
    ensures Orphan(ApplySender(s, m), a)
  {
    match m
    case Receive =>
      if s.queue != [] { ReceiveKeepsOrphan(s, a); } else { SameHoldersKeepOrphan(s, ApplyReceive(s), a); }
    case Sink(ok) => SameHoldersKeepOrphan(s, ApplySink(s, ok), a);
    case BumpPattern => SameHoldersKeepOrphan(s, ApplyBumpPattern(s), a);
    case BumpTotal => SameHoldersKeepOrphan(s, ApplySender(s, m), a);
    case Recycle => RecycleKeepsOrphan(s, a);
  }

  lemma MainKeepsOrphan(c: Config, s: State, m: MainMove, a: nat)
    requires Orphan(s, a) && |s.feeders| == c.workers + 1 && MainEnabled(c, s, m)
    ensures Orphan(ApplyMain(c, s, m), a)
  {
    MainEffect(c, s, m);
    var s' := ApplyMain(c, s, m);
    assert forall h :: Held(s', h) == None || Held(s', h) == Held(s, h);
  }

  lemma EnvKeepsOrphan(s: State, m: EnvMove, a: nat)
    requires Orphan(s, a)
    ensures Orphan(ApplyEnv(s, m), a)
  {
    EnvEffect(s, m);
    SameHoldersKeepOrphan(s, ApplyEnv(s, m), a);
  }

  lemma StepKeepsOrphan(c: Config, s: State, step: Action, a: nat)
    requires Enabled(c, s, step) && Orphan(s, a) && |s.queue| <= |s.enqueued|
    ensures Orphan(Apply(c, s, step), a)
  {
    match step
    case Env(m) => EnvKeepsOrphan(s, m, a);
    case Builder(i, m) => GotoKeepsOrphan(s, i, BuilderNext(c, s, s.feeders[i], m), a);
    case Beacon(m) => GotoKeepsOrphan(s, c.workers, BeaconNext(s, s.feeders[c.workers], m), a);
    case Frame(i, m) => FrameKeepsOrphan(c, s, i, m, a);
    case Deliver(m) => SenderKeepsOrphan(s, m, a);
    case Main(m) => MainKeepsOrphan(c, s, m, a);
  }

  lemma {:induction false} OrphansStayOrphans(c: Config, s: State, run: seq<Action>, a: nat)
    requires ValidRun(c, s, run) && Inv(c, s) && Orphan(s, a)
    ensures Orphan(Exec(c, s, run), a)
    decreases |run|
  {
    if run != [] {
      var owner :| MemoryBy(s, owner);
      StepKeepsOrphan(c, s, run[0], a);
      StepKeepsInv(c, s, run[0]);
      OrphansStayOrphans(c, Apply(c, s, run[0]), run[1..], a);
    }
  }

  /** From the step that replaces an array on, no run ever hands that array to anybody. */
  lemma ReplacedArrayIsNeverShared(c: Config, s: State, i: nat, bytes: seq<byte>, spare: seq<byte>,
                                   scribble: seq<byte>, run: seq<Action>)
    requires Reachable(c, s)
    requires var a := Frame(i, Build(Moved(bytes, spare, scribble)));
             Enabled(c, s, a) && ValidRun(c, Apply(c, s, a), run)
    ensures i < |s.feeders| && s.feeders[i].AtBuild?
    ensures Orphan(Exec(c, ApplyBuild(s, i, Moved(bytes, spare, scribble)), run), s.feeders[i].buf.arr)
  {
    var a := Frame(i, Build(Moved(bytes, spare, scribble)));
    ReachableInv(c, s);
    MovedArrayIsOrphan(s, i, bytes, spare, scribble);
    StepKeepsInv(c, s, a);
    OrphansStayOrphans(c, Apply(c, s, a), run, s.feeders[i].buf.arr);
  }
}
