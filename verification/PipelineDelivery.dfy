/**
  Delivery: frames reach the sink in channel order with the bytes that were built, and the counters
  count exactly the frames the sink accepted.
 */
module PipelineDelivery {
  import opened Basics
  import opened Pipeline
  import opened PipelineMemory
  import opened PipelineShutdown

  function Finished(attempts: seq<Attempt>): seq<Entry> {
    seq(|attempts|, j requires 0 <= j < |attempts| => attempts[j].entry)
  }

  /** The entry an item stands for, read through the memory it points to. */
  function Read(heap: seq<seq<byte>>, item: Item): Entry {
    Entry(item.name, Peek(heap, item.frame))
  }

  function Waiting(heap: seq<seq<byte>>, queue: seq<Item>): seq<Entry> {
    seq(|queue|, j requires 0 <= j < |queue| => Read(heap, queue[j]))
  }

  function InSink(heap: seq<seq<byte>>, x: Sender): seq<Entry> {
    if x.AtSink? then [Read(heap, x.item)] else []
  }

  /** FIFO conservation: everything enqueued is finished, in the sender's hands, or still queued. */
  predicate Ordered(s: State) {
    s.enqueued == Finished(s.attempts) + InSink(s.heap, s.sender) + Waiting(s.heap, s.queue)
  }

  /** A write by feeder `i` to memory it owns is not visible through any item. */
  lemma WritesDoNotShow(s: State, s': State, i: nat)
    requires Memory(s) && i < |s.feeders| && OnlyFeeder(s, s', i)
    ensures Waiting(s'.heap, s'.queue) == Waiting(s.heap, s.queue)
    ensures InSink(s'.heap, s'.sender) == InSink(s.heap, s.sender)
  {
    var owner :| MemoryBy(s, owner);
    var mine := Held(s, FeederHolder(i));
    forall j | 0 <= j < |s.queue| ensures Read(s'.heap, s.queue[j]) == Read(s.heap, s.queue[j]) {
      var place := QueueHolder(j + |s.enqueued| - |s.queue|);
      assert Held(s, place) == Some(s.queue[j].frame);
    }
    if s.sender.AtSink? {
      assert Held(s, SenderHolder) == Some(s.sender.item.frame);
    }
  }

  lemma SendKeepsOrder(s: State, i: nat)
    requires Memory(s) && Ordered(s) && i < |s.feeders| && s.feeders[i].AtSend?
    ensures Ordered(ApplySend(s, i))
  {
    var owner :| MemoryBy(s, owner);
    var t := s.feeders[i];
    assert FeederOk(s.heap, t);
    assert Waiting(s.heap, s.queue + [Item(t.name, t.frame)]) == Waiting(s.heap, s.queue) + [Entry(t.name, t.produced)];
  }

  lemma FrameKeepsOrder(c: Config, s: State, i: nat, m: FrameMove)
    requires Memory(s) && Ordered(s) && i < |s.feeders| && FrameEnabled(c, s, i, s.feeders[i], m)
    ensures Ordered(ApplyFrame(c, s, i, m))
  {
    if m.Send? {
      SendKeepsOrder(s, i);
    } else {
      FrameEffect(c, s, i, m);
      WritesDoNotShow(s, ApplyFrame(c, s, i, m), i);
    }
  }

  lemma SameFramesKeepOrder(s: State, s': State)
    requires Ordered(s) && InSink(s'.heap, s'.sender) == InSink(s.heap, s.sender)
    requires SameFrames(s, s')
    ensures Ordered(s')
  {}

  predicate SameButCounters(s: State, s': State) {
    && s'.heap == s.heap && s'.queue == s.queue && s'.enqueued == s.enqueued && s'.attempts == s.attempts
    && !s.sender.AtSink? && !s'.sender.AtSink?
  }

  lemma ReceiveKeepsOrder(s: State)
    requires Ordered(s) && s.sender.AtReceive?
    ensures Ordered(ApplyReceive(s))
  {
    if s.queue != [] {
      assert Waiting(s.heap, s.queue) == [Read(s.heap, s.queue[0])] + Waiting(s.heap, s.queue[1..]);
    }
  }

  lemma SinkKeepsOrder(s: State, ok: bool)
    requires Ordered(s) && s.sender.AtSink?
    ensures Ordered(ApplySink(s, ok))
  {
    var s' := ApplySink(s, ok);
    assert Finished(s'.attempts) == Finished(s.attempts) + [Read(s.heap, s.sender.item)];
  }

  lemma SenderKeepsOrder(s: State, m: SenderMove)
    requires Ordered(s) && SenderEnabled(s, m)
    ensures Ordered(ApplySender(s, m))
  {
    match m
    case Receive => ReceiveKeepsOrder(s);
    case Sink(ok) => SinkKeepsOrder(s, ok);
    case BumpPattern => assert SameButCounters(s, ApplySender(s, m));
    case BumpTotal => assert SameButCounters(s, ApplySender(s, m));
    case Recycle => assert SameButCounters(s, ApplySender(s, m));
  }

  lemma StepKeepsOrder(c: Config, s: State, a: Action)
    requires Enabled(c, s, a) && InPhase(c, s) && Memory(s) && Ordered(s)
    ensures Ordered(Apply(c, s, a))
  {
    match a
    case Env(m) =>
      EnvEffect(s, m);
      SameFramesKeepOrder(s, ApplyEnv(s, m));
    case Builder(i, m) => SameFramesKeepOrder(s, Goto(s, i, BuilderNext(c, s, s.feeders[i], m)));
    case Beacon(m) => SameFramesKeepOrder(s, Goto(s, c.workers, BeaconNext(s, s.feeders[c.workers], m)));
    case Frame(i, m) => FrameKeepsOrder(c, s, i, m);
    case Deliver(m) => SenderKeepsOrder(s, m);
    case Main(m) =>
      MainEffect(c, s, m);
      SameFramesKeepOrder(s, ApplyMain(c, s, m));
  }

  // ------------------------------------------------------------------ names

  predicate NameFits(c: Config, i: nat, t: Feeder) {
    FeederName(t).Some? ==>
      var n := FeederName(t).value;
      if i < c.workers then !n.Beacon? && !n.Other? else n.Beacon?
  }

  /** Builders carry mixer slot names, the beacon its own, so `bumpCounter` knows every queued name. */
  predicate NamesKnown(c: Config, s: State) {
    && (forall i | 0 <= i < |s.feeders| :: NameFits(c, i, s.feeders[i]))
    && (forall j | 0 <= j < |s.enqueued| :: !s.enqueued[j].name.Other?)
  }

  lemma GotoKeepsNames(c: Config, s: State, s': State, i: nat)
    requires NamesKnown(c, s) && i < |s.feeders| == |s'.feeders| && s'.enqueued == s.enqueued
    requires s'.feeders == s.feeders[i := s'.feeders[i]] && NameFits(c, i, s'.feeders[i])
    ensures NamesKnown(c, s')
  {}

  lemma SendKeepsNames(c: Config, s: State, i: nat)
    requires NamesKnown(c, s) && i < |s.feeders| && s.feeders[i].AtSend?
    ensures NamesKnown(c, ApplySend(s, i))
  {
    assert NameFits(c, i, s.feeders[i]);
  }

  lemma FrameKeepsNames(c: Config, s: State, i: nat, m: FrameMove)
    requires NamesKnown(c, s) && i < |s.feeders| && FrameEnabled(c, s, i, s.feeders[i], m)
    ensures NamesKnown(c, ApplyFrame(c, s, i, m))
  {
    if m.Send? {
      SendKeepsNames(c, s, i);
    } else {
      FrameEffect(c, s, i, m);
      assert NameFits(c, i, s.feeders[i]);
      GotoKeepsNames(c, s, ApplyFrame(c, s, i, m), i);
    }
  }

  lemma MainKeepsNames(c: Config, s: State, m: MainMove)
    requires NamesKnown(c, s) && |s.feeders| == c.workers + 1 && MainEnabled(c, s, m)
    ensures NamesKnown(c, ApplyMain(c, s, m))
  {
    MainEffect(c, s, m);
  }

  lemma SenderKeepsNames(c: Config, s: State, m: SenderMove)
    requires NamesKnown(c, s) && SenderEnabled(s, m)
    ensures NamesKnown(c, ApplySender(s, m))
  {}

  lemma StepKeepsNames(c: Config, s: State, a: Action)
    requires Enabled(c, s, a) && NamesKnown(c, s)
    ensures NamesKnown(c, Apply(c, s, a))
  {
    match a
    case Env(m) => EnvEffect(s, m);
    case Builder(i, m) =>
      assert NameFits(c, i, s.feeders[i]);
      GotoKeepsNames(c, s, Goto(s, i, BuilderNext(c, s, s.feeders[i], m)), i);
    case Beacon(m) =>
      GotoKeepsNames(c, s, Goto(s, c.workers, BeaconNext(s, s.feeders[c.workers], m)), c.workers);
    case Frame(i, m) => FrameKeepsNames(c, s, i, m);
    case Deliver(m) => SenderKeepsNames(c, s, m);
    case Main(m) => MainKeepsNames(c, s, m);
  }

  // --------------------------------------------------------------- counters

  /** Frames named `n` the sink accepted. */
  function Accepted(attempts: seq<Attempt>, n: Name): nat {
    if attempts == [] then 0
    else
      var last := attempts[|attempts| - 1];
      Accepted(attempts[..|attempts| - 1], n) + if last.ok && last.entry.name == n then 1 else 0
  }

  /** Frames the sink accepted. */
  function AcceptedAll(attempts: seq<Attempt>): nat {
    if attempts == [] then 0
    else AcceptedAll(attempts[..|attempts| - 1]) + if attempts[|attempts| - 1].ok then 1 else 0
  }

  function Bumping(x: Sender): Option<Name> {
    match x
    case AtBumpPattern(item) => Some(item.name)
    case AtBumpTotal(item) => Some(item.name)
    case _ => None
  }

  /** What the counters hold between the sink's answer and the two increments. */
  ghost predicate Counted(s: State) {
    && (forall n: Name :: !n.Other? ==>
          s.sent.Of(n) + (if s.sender.AtBumpPattern? && s.sender.item.name == n then 1 else 0)
          == Accepted(s.attempts, n))
    && s.total + (if Bumping(s.sender).Some? then 1 else 0) == AcceptedAll(s.attempts)
    && s.sent.Sum() == s.total + (if s.sender.AtBumpTotal? then 1 else 0)
    && (Bumping(s.sender).Some? ==> !Bumping(s.sender).value.Other?)
  }

  lemma InitOrdered(c: Config, running: bool, beaconOn: bool)
    ensures Ordered(Init(c, running, beaconOn)) && NamesKnown(c, Init(c, running, beaconOn))
  {
    var s := Init(c, running, beaconOn);
    assert Finished(s.attempts) == [] && Waiting(s.heap, s.queue) == [];
  }

  lemma ZeroOf(n: Name)
    ensures ZERO_COUNTERS.Of(n) == 0
  {
    match n
    case Background => case WellKnown => case Dga => case Beacon => case FastFlux =>
    case DynDns => case Exfil => case Exotic => case Evasion => case Other(_) =>
  }

  lemma NoneAccepted(n: Name)
    ensures Accepted([], n) == 0 && AcceptedAll([]) == 0
  {}

  lemma InitPerName(c: Config, running: bool, beaconOn: bool, n: Name)
    ensures var s := Init(c, running, beaconOn);
            s.sent.Of(n) == 0 && Accepted(s.attempts, n) == 0
  {
    ZeroOf(n);
    NoneAccepted(n);
  }

  lemma InitCounted(c: Config, running: bool, beaconOn: bool)
    ensures Counted(Init(c, running, beaconOn))
  {
    var s := Init(c, running, beaconOn);
    NoneAccepted(Name.Beacon);
    forall n: Name ensures s.sent.Of(n) == Accepted(s.attempts, n) {
      InitPerName(c, running, beaconOn, n);
    }
  }

  lemma SinkKeepsCount(s: State, ok: bool)
    requires Counted(s) && Ordered(s) && s.sender.AtSink?
    requires forall j | 0 <= j < |s.enqueued| :: !s.enqueued[j].name.Other?
    ensures Counted(ApplySink(s, ok))
  {
    var s' := ApplySink(s, ok);
    assert s'.attempts[..|s.attempts|] == s.attempts;
    assert s.enqueued[|s.attempts|] == Read(s.heap, s.sender.item);
  }

  /** The switch bumps the named counter and no other. */
  lemma BumpAddsOne(k: Counters, n: Name, other: Name)
    ensures k.Bump(n).Of(other) == k.Of(other) + (if n == other && !n.Other? then 1 else 0)
    ensures k.Bump(n).Sum() == k.Sum() + (if n.Other? then 0 else 1)
  {
    match n
    case Background => case WellKnown => case Dga => case Beacon => case FastFlux =>
    case DynDns => case Exfil => case Exotic => case Evasion => case Other(_) =>
  }

  lemma BumpKeepsCount(s: State)
    requires Counted(s) && s.sender.AtBumpPattern?
    ensures Counted(ApplyBumpPattern(s))
  {
    var n := s.sender.item.name;
    BumpAddsOne(s.sent, n, n);
    forall other: Name ensures s.sent.Bump(n).Of(other) == s.sent.Of(other) + (if n == other && !n.Other? then 1 else 0) {
      BumpAddsOne(s.sent, n, other);
    }
  }

  lemma BumpTotalKeepsCount(s: State)
    requires Counted(s) && s.sender.AtBumpTotal?
    ensures Counted(ApplySender(s, BumpTotal))
  {
    assert ApplySender(s, BumpTotal).sent == s.sent;
  }

  /** The sender moves outside the two increments. */
  lemma IdleKeepsCount(s: State, s': State)
    requires Counted(s) && Bumping(s.sender).None? && Bumping(s'.sender).None?
    requires s'.attempts == s.attempts && s'.sent == s.sent && s'.total == s.total
    ensures Counted(s')
  {}

  lemma SenderKeepsCount(c: Config, s: State, m: SenderMove)
    requires Counted(s) && NamesKnown(c, s) && Ordered(s) && SenderEnabled(s, m)
    ensures Counted(ApplySender(s, m))
  {
    match m
    case Sink(ok) => SinkKeepsCount(s, ok);
    case BumpPattern => BumpKeepsCount(s);
    case BumpTotal => BumpTotalKeepsCount(s);
    case Recycle => IdleKeepsCount(s, ApplyRecycle(s));
    case Receive => IdleKeepsCount(s, ApplyReceive(s));
  }

  lemma SameCount(s: State, s': State)
    requires Counted(s) && s'.attempts == s.attempts && s'.sent == s.sent && s'.total == s.total
    requires s'.sender == s.sender || (s.sender.SNotStarted? && s'.sender.AtReceive?)
    ensures Counted(s')
  {}

  lemma FrameKeepsCount(c: Config, s: State, i: nat, m: FrameMove)
    requires Counted(s) && i < |s.feeders| && FrameEnabled(c, s, i, s.feeders[i], m)
    ensures Counted(ApplyFrame(c, s, i, m))
  {
    if !m.Send? { FrameEffect(c, s, i, m); }
    SameCount(s, ApplyFrame(c, s, i, m));
  }

  lemma StepKeepsCount(c: Config, s: State, a: Action)
    requires Enabled(c, s, a) && InPhase(c, s) && NamesKnown(c, s) && Ordered(s) && Counted(s)
    ensures Counted(Apply(c, s, a))
  {
    match a
    case Env(m) =>
      EnvEffect(s, m);
      SameCount(s, ApplyEnv(s, m));
    case Builder(i, m) => SameCount(s, Goto(s, i, BuilderNext(c, s, s.feeders[i], m)));
    case Beacon(m) => SameCount(s, Goto(s, c.workers, BeaconNext(s, s.feeders[c.workers], m)));
    case Frame(i, m) => FrameKeepsCount(c, s, i, m);
    case Deliver(m) => SenderKeepsCount(c, s, m);
    case Main(m) =>
      MainEffect(c, s, m);
      SameCount(s, ApplyMain(c, s, m));
  }
}
