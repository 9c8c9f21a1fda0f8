/**
  Buffer ownership: in every reachable state a backing array has at most one owner, so nobody
  overwrites a frame that is waiting in the queue or being sent.
 */
module PipelineMemory {
  import opened Basics
  import opened Pipeline

  /** Everything outside the pool that can hold a buffer; a queue place is its number since the start. */
  datatype Holder = FeederHolder(i: nat) | SenderHolder | QueueHolder(k: nat)

  function SenderBuffer(x: Sender): Option<Slice> {
    match x
    case AtSink(item) => Some(item.frame)
    case AtBumpPattern(item) => Some(item.frame)
    case AtBumpTotal(item) => Some(item.frame)
    case AtRecycle(frame) => Some(frame)
    case _ => None
  }

  function Held(s: State, h: Holder): Option<Slice> {
    match h
    case FeederHolder(i) => if i < |s.feeders| then FeederBuffer(s.feeders[i]) else None
    case SenderHolder => SenderBuffer(s.sender)
    case QueueHolder(k) =>
      var j := k + |s.queue| - |s.enqueued|;
      if 0 <= j < |s.queue| then Some(s.queue[j].frame) else None
  }

  predicate Live(heap: seq<seq<byte>>, f: Slice) {
    f.arr < |heap| && f.len <= |heap[f.arr]|
  }

  /** At most one owner per backing array: no two holders, and no holder together with the pool. */
  ghost predicate Exclusive(s: State) {
    && (forall h1, h2 :: h1 != h2 && Held(s, h1).Some? && Held(s, h2).Some? ==>
          Held(s, h1).value.arr != Held(s, h2).value.arr)
    && (forall h, b :: b in s.pool && Held(s, h).Some? ==> b.arr != Held(s, h).value.arr)
    && (forall b1, b2 :: b1 in s.pool && b2 in s.pool && b1 != b2 ==> b1.arr != b2.arr)
    && (forall b :: b in s.pool ==> s.pool[b] == 1)
  }

  ghost predicate PoolOk(s: State) {
    forall b :: b in s.pool ==> b.len == 0 && b.arr < |s.heap| && |s.heap[b.arr]| <= MAX_POOLED_CAP
  }

  predicate FeederOk(heap: seq<seq<byte>>, t: Feeder) {
    && (t.AtBuild? ==> t.buf.len == 0)
    && (t.AtSend? ==> Live(heap, t.frame) && Bytes(heap, t.frame) == t.produced)
  }

  ghost predicate FeedersOk(s: State) {
    forall i :: 0 <= i < |s.feeders| ==> FeederOk(s.heap, s.feeders[i])
  }

  /** `owner` is a witness for exclusive ownership: array `a` belongs to `owner[a]` or to the pool. */
  ghost predicate OwnedBy(s: State, owner: seq<Option<Holder>>) {
    && |owner| == |s.heap|
    && (forall h :: Held(s, h).Some? ==>
          Live(s.heap, Held(s, h).value) && owner[Held(s, h).value.arr] == Some(h))
    && (forall b :: b in s.pool ==> b.arr < |owner| && owner[b.arr] == None && s.pool[b] == 1)
  }

  ghost predicate MemoryBy(s: State, owner: seq<Option<Holder>>) {
    && |s.queue| <= |s.enqueued|
    && OwnedBy(s, owner)
    && PoolOk(s)
    && FeedersOk(s)
  }

  ghost predicate Memory(s: State) {
    exists owner :: MemoryBy(s, owner)
  }

  lemma MemoryIsExclusive(s: State)
    requires Memory(s)
    ensures Exclusive(s) && PoolOk(s)
  {
    var owner :| MemoryBy(s, owner);
    forall b1, b2 | b1 in s.pool && b2 in s.pool && b1.arr == b2.arr ensures b1 == b2 {}
  }

  lemma InitMemory(c: Config, running: bool, beaconOn: bool)
    ensures Memory(Init(c, running, beaconOn))
  {
    var s := Init(c, running, beaconOn);
    assert forall h :: Held(s, h) == None;
    assert MemoryBy(s, []);
  }

  lemma SameMemory(s: State, s': State, owner: seq<Option<Holder>>)
    requires MemoryBy(s, owner)
    requires s'.heap == s.heap && s'.pool == s.pool && s'.feeders == s.feeders
    requires s'.queue == s.queue && s'.enqueued == s.enqueued
    requires SenderBuffer(s'.sender) == None || SenderBuffer(s'.sender) == SenderBuffer(s.sender)
    ensures MemoryBy(s', owner)
  {
    assert forall h :: Held(s', h) == None || Held(s', h) == Held(s, h);
  }

  /** A feeder moves and gains no buffer. */
  lemma GotoKeepsMemory(s: State, i: nat, t: Feeder, owner: seq<Option<Holder>>)
    requires MemoryBy(s, owner) && i < |s.feeders| && FeederOk(s.heap, t)
    requires FeederBuffer(t) == None || FeederBuffer(t) == FeederBuffer(s.feeders[i])
    ensures MemoryBy(Goto(s, i, t), owner)
  {
    var s' := Goto(s, i, t);
    assert forall h :: Held(s', h) == None || Held(s', h) == Held(s, h);
  }

  lemma GcKeepsMemory(s: State, v: Slice, owner: seq<Option<Holder>>)
    requires MemoryBy(s, owner)
    ensures MemoryBy(s.(pool := s.pool - multiset{v}), owner)
  {
    var s' := s.(pool := s.pool - multiset{v});
    forall h ensures Held(s', h) == Held(s, h) {}
  }

  lemma OtherHoldersStay(s: State, s': State, i: nat)
    requires i < |s.feeders| == |s'.feeders| && s'.sender == s.sender
    requires s'.feeders == s.feeders[i := s'.feeders[i]]
    requires s'.queue == s.queue && s'.enqueued == s.enqueued
    ensures forall h :: h != FeederHolder(i) ==> Held(s', h) == Held(s, h)
    ensures Held(s', FeederHolder(i)) == FeederBuffer(s'.feeders[i])
  {}

  /** One holder changes hands with the pool or with fresh memory; every other holder stays as it is. */
  lemma OneHolderChanges(s: State, s': State, me: Holder, owner: seq<Option<Holder>>, owner': seq<Option<Holder>>)
    requires OwnedBy(s, owner) && |owner| <= |owner'| == |s'.heap|
    requires forall h | h != me :: Held(s', h) == Held(s, h)
    requires Held(s', me).Some? ==> Live(s'.heap, Held(s', me).value) && owner'[Held(s', me).value.arr] == Some(me)
    requires forall a | 0 <= a < |owner| && owner[a].Some? && owner[a] != Some(me) ::
               owner'[a] == owner[a] && s'.heap[a] == s.heap[a]
    requires forall b | b in s'.pool :: b.arr < |owner'| && owner'[b.arr] == None && s'.pool[b] == 1
    ensures OwnedBy(s', owner')
  {
    forall h | Held(s', h).Some?
      ensures Live(s'.heap, Held(s', h).value) && owner'[Held(s', h).value.arr] == Some(h)
    {
      if h != me {
        assert Held(s', h) == Held(s, h);
      }
    }
  }

  /** Writing to the array a feeder owns leaves the frames the other feeders are about to send alone. */
  lemma OtherFeedersOk(s: State, heap': seq<seq<byte>>, i: nat, j: nat, owner: seq<Option<Holder>>)
    requires MemoryBy(s, owner) && i < |s.feeders| && j < |s.feeders| && i != j
    requires |s.heap| <= |heap'|
    requires forall a | 0 <= a < |s.heap| && owner[a] != Some(FeederHolder(i)) :: heap'[a] == s.heap[a]
    ensures FeederOk(heap', s.feeders[j])
  {
    assert FeederOk(s.heap, s.feeders[j]);
    assert Held(s, FeederHolder(j)) == FeederBuffer(s.feeders[j]);
  }

  lemma GetPooledKeepsMemory(s: State, i: nat, b: Slice, owner: seq<Option<Holder>>)
    requires MemoryBy(s, owner) && i < |s.feeders| && s.feeders[i].AtGet? && b in s.pool
    ensures Memory(ApplyGet(s, i, Some(b)))
  {
    var s' := ApplyGet(s, i, Some(b));
    var me := FeederHolder(i);
    assert Held(s, me) == None;
    OtherHoldersStay(s, s', i);
    OneHolderChanges(s, s', me, owner, owner[b.arr := Some(me)]);
    assert MemoryBy(s', owner[b.arr := Some(me)]);
  }

  lemma GetFreshKeepsMemory(s: State, i: nat, owner: seq<Option<Holder>>)
    requires MemoryBy(s, owner) && i < |s.feeders| && s.feeders[i].AtGet?
    ensures Memory(ApplyGet(s, i, None))
  {
    var s' := ApplyGet(s, i, None);
    var me := FeederHolder(i);
    assert Held(s, me) == None;
    OtherHoldersStay(s, s', i);
    OneHolderChanges(s, s', me, owner, owner + [Some(me)]);
    forall j | 0 <= j < |s.feeders| ensures FeederOk(s'.heap, s'.feeders[j]) {
      if j != i { OtherFeedersOk(s, s'.heap, i, j, owner); }
    }
    assert MemoryBy(s', owner + [Some(me)]);
  }

  lemma WriteKeepsMemory(s: State, s': State, i: nat, owner: seq<Option<Holder>>, owner': seq<Option<Holder>>)
    requires MemoryBy(s, owner) && i < |s.feeders| && s.feeders[i].AtBuild?
    requires s'.sender == s.sender && s'.queue == s.queue && s'.enqueued == s.enqueued && s'.pool == s.pool
    requires i < |s'.feeders| && s'.feeders == s.feeders[i := s'.feeders[i]] && FeederOk(s'.heap, s'.feeders[i])
    requires |s.heap| <= |s'.heap| == |owner'|
    requires forall a | 0 <= a < |s.heap| && owner[a] != Some(FeederHolder(i)) ::
               s'.heap[a] == s.heap[a] && owner'[a] == owner[a]
    requires FeederBuffer(s'.feeders[i]).Some?
    requires Live(s'.heap, FeederBuffer(s'.feeders[i]).value)
    requires owner'[FeederBuffer(s'.feeders[i]).value.arr] == Some(FeederHolder(i))
    ensures MemoryBy(s', owner')
  {
    OtherHoldersStay(s, s', i);
    OneHolderChanges(s, s', FeederHolder(i), owner, owner');
    forall j | 0 <= j < |s.feeders| ensures FeederOk(s'.heap, s'.feeders[j]) {
      if j != i { OtherFeedersOk(s, s'.heap, i, j, owner); }
    }
  }

  lemma PackErrorKeepsMemory(s: State, i: nat, scribble: seq<byte>, owner: seq<Option<Holder>>)
    requires MemoryBy(s, owner) && i < |s.feeders| && s.feeders[i].AtBuild?
    requires CanBuild(s, s.feeders[i].buf, PackError(scribble))
    ensures Memory(ApplyBuild(s, i, PackError(scribble)))
  {
    assert Held(s, FeederHolder(i)) == Some(s.feeders[i].buf);
    WriteKeepsMemory(s, ApplyBuild(s, i, PackError(scribble)), i, owner, owner);
  }

  lemma InPlaceKeepsMemory(s: State, i: nat, bytes: seq<byte>, owner: seq<Option<Holder>>)
    requires MemoryBy(s, owner) && i < |s.feeders| && s.feeders[i].AtBuild?
    requires CanBuild(s, s.feeders[i].buf, InPlace(bytes))
    ensures Memory(ApplyBuild(s, i, InPlace(bytes)))
  {
    var s' := ApplyBuild(s, i, InPlace(bytes));
    var buf := s.feeders[i].buf;
    assert Held(s, FeederHolder(i)) == Some(buf);
    assert s'.feeders[i] == AtSend(s.feeders[i].name, Slice(buf.arr, |bytes|), bytes);
    assert Bytes(s'.heap, Slice(buf.arr, |bytes|)) == bytes;
    WriteKeepsMemory(s, s', i, owner, owner);
  }

  lemma MovedKeepsMemory(s: State, i: nat, bytes: seq<byte>, spare: seq<byte>, scribble: seq<byte>,
                         owner: seq<Option<Holder>>)
    requires MemoryBy(s, owner) && i < |s.feeders| && s.feeders[i].AtBuild?
    requires CanBuild(s, s.feeders[i].buf, Moved(bytes, spare, scribble))
    ensures Memory(ApplyBuild(s, i, Moved(bytes, spare, scribble)))
  {
    var s' := ApplyBuild(s, i, Moved(bytes, spare, scribble));
    assert Held(s, FeederHolder(i)) == Some(s.feeders[i].buf);
    assert s'.heap[|s.heap|] == bytes + spare;
    assert Bytes(s'.heap, Slice(|s.heap|, |bytes|)) == bytes;
    var owner' := owner[s.feeders[i].buf.arr := None] + [Some(FeederHolder(i))];
    WriteKeepsMemory(s, s', i, owner, owner');
  }

  lemma PutBackKeepsMemory(s: State, i: nat, owner: seq<Option<Holder>>)
    requires MemoryBy(s, owner) && i < |s.feeders| && s.feeders[i].AtPutBack? && s.feeders[i].buf.arr < |s.heap|
    ensures Memory(ApplyPutBack(s, i))
  {
    var s' := ApplyPutBack(s, i);
    var me := FeederHolder(i);
    var buf := s.feeders[i].buf;
    assert Held(s, me) == Some(buf);
    forall h | h != me ensures Held(s', h) == Held(s, h) {}
    assert MemoryBy(s', owner[buf.arr := None]);
  }

  /** A buffer moves from one holder to another. */
  lemma HolderPasses(s: State, s': State, from: Holder, to: Holder, owner: seq<Option<Holder>>)
    requires OwnedBy(s, owner) && s'.heap == s.heap && s'.pool == s.pool
    requires Held(s, from).Some? && Held(s', to) == Held(s, from) && Held(s', from) == None
    requires forall h | h != from && h != to :: Held(s', h) == Held(s, h)
    ensures OwnedBy(s', owner[Held(s, from).value.arr := Some(to)])
  {
    var owner' := owner[Held(s, from).value.arr := Some(to)];
    forall h | Held(s', h).Some?
      ensures Live(s'.heap, Held(s', h).value) && owner'[Held(s', h).value.arr] == Some(h)
    {
      if h != to {
        assert Held(s', h) == Held(s, h);
      }
    }
  }

  lemma SendKeepsMemory(s: State, i: nat, owner: seq<Option<Holder>>)
    requires MemoryBy(s, owner) && i < |s.feeders| && s.feeders[i].AtSend? && !s.closed
    ensures Memory(ApplySend(s, i))
  {
    var s' := ApplySend(s, i);
    var me, place := FeederHolder(i), QueueHolder(|s.enqueued|);
    assert forall h :: h != me && h != place ==> Held(s', h) == Held(s, h);
    assert Held(s', place) == Held(s, me) && Held(s', me) == None;
    HolderPasses(s, s', me, place, owner);
    assert MemoryBy(s', owner[s.feeders[i].frame.arr := Some(place)]);
  }

  lemma ReceiveKeepsMemory(s: State, owner: seq<Option<Holder>>)
    requires MemoryBy(s, owner) && s.sender.AtReceive?
    ensures Memory(ApplyReceive(s))
  {
    var s' := ApplyReceive(s);
    if s.queue == [] {
      forall h ensures Held(s', h) == Held(s, h) {}
      assert MemoryBy(s', owner);
    } else {
      var place := QueueHolder(|s.enqueued| - |s.queue|);
      forall h | h != SenderHolder && h != place ensures Held(s', h) == Held(s, h) {}
      assert Held(s', SenderHolder) == Held(s, place) && Held(s', place) == None;
      assert MemoryBy(s', owner[s.queue[0].frame.arr := Some(SenderHolder)]);
    }
  }

  lemma RecycleKeepsMemory(s: State, owner: seq<Option<Holder>>)
    requires MemoryBy(s, owner) && s.sender.AtRecycle? && s.sender.frame.arr < |s.heap|
    ensures Memory(ApplyRecycle(s))
  {
    var s' := ApplyRecycle(s);
    assert Held(s, SenderHolder) == Some(s.sender.frame);
    forall h | h != SenderHolder ensures Held(s', h) == Held(s, h) {}
    assert MemoryBy(s', owner[s.sender.frame.arr := None]);
  }


  lemma FrameKeepsMemory(c: Config, s: State, i: nat, m: FrameMove, owner: seq<Option<Holder>>)
    requires MemoryBy(s, owner) && i < |s.feeders| && FrameEnabled(c, s, i, s.feeders[i], m)
    ensures Memory(ApplyFrame(c, s, i, m))
  {
    match m
    case Get(Some(b)) => GetPooledKeepsMemory(s, i, b, owner);
    case Get(None) => GetFreshKeepsMemory(s, i, owner);
    case Build(PackError(scribble)) => PackErrorKeepsMemory(s, i, scribble, owner);
    case Build(InPlace(bytes)) => InPlaceKeepsMemory(s, i, bytes, owner);
    case Build(Moved(bytes, spare, scribble)) => MovedKeepsMemory(s, i, bytes, spare, scribble, owner);
    case PutBack => PutBackKeepsMemory(s, i, owner);
    case Send => if s.closed { SameMemory(s, ApplySend(s, i), owner); } else { SendKeepsMemory(s, i, owner); }
    case Abort =>
      GotoKeepsMemory(s, i, AtPutBack(s.feeders[i].frame, true), owner);
  }

  lemma SenderKeepsMemory(s: State, m: SenderMove, owner: seq<Option<Holder>>)
    requires MemoryBy(s, owner) && SenderEnabled(s, m)
    ensures Memory(ApplySender(s, m))
  {
    if m.Receive? && s.queue != [] { ReceiveKeepsMemory(s, owner); }
    else if m.Recycle? { RecycleKeepsMemory(s, owner); }
    else { SameMemory(s, ApplySender(s, m), owner); }
  }

  lemma EnvKeepsMemory(s: State, m: EnvMove, owner: seq<Option<Holder>>)
    requires MemoryBy(s, owner) && EnvEnabled(s, m)
    ensures MemoryBy(ApplyEnv(s, m), owner)
  {
    if m.GcPool? { GcKeepsMemory(s, m.victim, owner); }
    else { SameMemory(s, ApplyEnv(s, m), owner); }
  }

  lemma SpawnKeepsMemory(c: Config, s: State, owner: seq<Option<Holder>>)
    requires MemoryBy(s, owner) && |s.feeders| == c.workers + 1 && MainEnabled(c, s, Spawn(true))
    ensures MemoryBy(ApplyMain(c, s, Spawn(true)), owner)
  {
    var s0 := s.(main := Spawning(s.main.next + 1));
    SameMemory(s, s0, owner);
    GotoKeepsMemory(s0, s.main.next, AtWait, owner);
  }

  lemma MainKeepsMemory(c: Config, s: State, m: MainMove, owner: seq<Option<Holder>>)
    requires MemoryBy(s, owner) && |s.feeders| == c.workers + 1 && MainEnabled(c, s, m)
    ensures MemoryBy(ApplyMain(c, s, m), owner)
  {
    if m == Spawn(true) {
      SpawnKeepsMemory(c, s, owner);
    } else {
      MainEffect(c, s, m);
      SameMemory(s, ApplyMain(c, s, m), owner);
    }
  }

  lemma StepKeepsMemory(c: Config, s: State, a: Action)
    requires Enabled(c, s, a) && Memory(s)
    ensures Memory(Apply(c, s, a))
  {
    var owner :| MemoryBy(s, owner);
    match a
    case Env(m) => EnvKeepsMemory(s, m, owner);
    case Builder(i, m) => GotoKeepsMemory(s, i, BuilderNext(c, s, s.feeders[i], m), owner);
    case Beacon(m) => GotoKeepsMemory(s, c.workers, BeaconNext(s, s.feeders[c.workers], m), owner);
    case Frame(i, m) => FrameKeepsMemory(c, s, i, m, owner);
    case Deliver(m) => SenderKeepsMemory(s, m, owner);
    case Main(m) => MainKeepsMemory(c, s, m, owner);
  }
}
