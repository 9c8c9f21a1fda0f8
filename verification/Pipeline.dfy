/**
  The producer pipeline as a transition system.

  Every goroutine has a program counter that stops before each operation another goroutine can
  observe: a channel operation, an access to the shared buffer pool, an atomic load or store, and a
  check of a context.  An `Action` names the goroutine that moves and carries every choice the code
  leaves open (scheduler, generator and packer results, `select` branch, sink result).

  Byte buffers are modelled with their aliasing.  `heap` holds the backing arrays, an array's
  capacity is its length, and a Go slice that starts at offset 0 is a `Slice(arr, len)`.
 */
module Pipeline {
  import opened Basics

  datatype Config = Config(workers: nat, unbound: bool)

  /** A generator's name; `Other` stands for any name `bumpCounter` does not know. */
  datatype Name =
    | Background | WellKnown | Dga | Beacon | FastFlux | DynDns | Exfil | Exotic | Evasion
    | Other(text: string)

  /** The fields of `state.Counters` the sender writes. */
  datatype Counters = Counters(background: nat, wellKnown: nat, dga: nat, beacon: nat, fastFlux: nat,
                               dynDns: nat, exfil: nat, exotic: nat, evasion: nat)
  {
    function Of(n: Name): nat {
      match n
      case Background => background
      case WellKnown => wellKnown
      case Dga => dga
      case Beacon => beacon
      case FastFlux => fastFlux
      case DynDns => dynDns
      case Exfil => exfil
      case Exotic => exotic
      case Evasion => evasion
      case Other(_) => 0
    }

    function Sum(): nat {
      background + wellKnown + dga + beacon + fastFlux + dynDns + exfil + exotic + evasion
    }

    /** The switch of `bumpCounter`. */
    function Bump(n: Name): Counters {
      match n
      case Background => this.(background := background + 1)
      case WellKnown => this.(wellKnown := wellKnown + 1)
      case Dga => this.(dga := dga + 1)
      case Beacon => this.(beacon := beacon + 1)
      case FastFlux => this.(fastFlux := fastFlux + 1)
      case DynDns => this.(dynDns := dynDns + 1)
      case Exfil => this.(exfil := exfil + 1)
      case Exotic => this.(exotic := exotic + 1)
      case Evasion => this.(evasion := evasion + 1)
      case Other(_) => this
    }
  }

  const ZERO_COUNTERS := Counters(0, 0, 0, 0, 0, 0, 0, 0, 0)

  /** The mixer's slots, in slot order. */
  const SLOTS: nat := 8

  function SlotName(k: nat): Name
    requires k < SLOTS
  {
    match k
    case 0 => Background
    case 1 => WellKnown
    case 2 => Dga
    case 3 => FastFlux
    case 4 => DynDns
    case 5 => Exfil
    case 6 => Exotic
    case _ => Evasion
  }

  datatype Slice = Slice(arr: nat, len: nat)

  /** What travels through the channel. */
  datatype Item = Item(name: Name, frame: Slice)

  /** History records: a frame as it was produced, and one call of the sink. */
  datatype Entry = Entry(name: Name, bytes: seq<byte>)
  datatype Attempt = Attempt(entry: Entry, ok: bool)

  /** A builder, or the beacon pump.  The two share the steps from `AtGet` on. */
  datatype Feeder =
    | NotStarted
    | AtWait                                                   // builder: wait; beacon: weight check
    | AtCtxCheck                                               // builder only
    | AtSleep                                                  // beacon only
    | AtRunning
    | AtPick                                                   // builder only
    | AtNext(name: Name)
    | AtGet(name: Name)
    | AtBuild(name: Name, buf: Slice)
    | AtPutBack(buf: Slice, leave: bool)
    | AtSend(name: Name, frame: Slice, produced: seq<byte>)
    | Exited

  datatype Sender =
    | SNotStarted
    | AtReceive
    | AtSink(item: Item)
    | AtBumpPattern(item: Item)
    | AtBumpTotal(item: Item)
    | AtRecycle(frame: Slice)
    | SDone

  datatype MainPc =
    | Spawning(next: nat)
    | Joining
    | Cancelling
    | Closing
    | Draining
    | Returned
    | Failed

  datatype Crash = NoCrash | ClosedSend(feeder: nat)

  datatype State = State(
    heap: seq<seq<byte>>,
    pool: multiset<Slice>,
    feeders: seq<Feeder>,            // builders 0..workers, then the beacon
    sender: Sender,
    main: MainPc,
    queue: seq<Item>,
    closed: bool,
    ctxDone: bool,
    bgDone: bool,
    bucketClosed: bool,
    running: bool,
    beaconOn: bool,              // the beacon mix weight is positive
    crash: Crash,
    sent: Counters,
    total: nat,
    enqueued: seq<Entry>,        // history: every frame put on the channel
    attempts: seq<Attempt>       // history: every call of SendBytes
  )

  datatype BuildResult =
    | PackError(scribble: seq<byte>)
    | InPlace(bytes: seq<byte>)
    | Moved(bytes: seq<byte>, spare: seq<byte>, scribble: seq<byte>)

  /** The environment: the caller's context, the live knobs, and the collector emptying the pool. */
  datatype EnvMove = Cancel | SetRunning(on: bool) | SetBeaconWeight(positive: bool) | GcPool(victim: Slice)
  datatype BuilderMove = Wait | CheckCtx | CheckRunning | Pick(slot: Option<nat>) | Next(ok: bool)
  datatype BeaconMove = CheckWeight | Sleep(woken: bool) | Emit(ok: bool) | CheckGate
  /** What builders and the beacon do with a frame. */
  datatype FrameMove = Get(pooled: Option<Slice>) | Build(result: BuildResult) | PutBack | Send | Abort
  datatype SenderMove = Receive | Sink(ok: bool) | BumpPattern | BumpTotal | Recycle
  datatype MainMove = Spawn(ok: bool) | StartSender | Join | CancelBg | CloseQueue | Return

  datatype Action =
    | Env(env: EnvMove)
    | Builder(i: nat, builder: BuilderMove)
    | Beacon(beacon: BeaconMove)
    | Frame(i: nat, frame: FrameMove)
    | Deliver(deliver: SenderMove)
    | Main(main: MainMove)

  const INITIAL_CAP: nat := 512
  const MAX_POOLED_CAP: nat := 65536

  function QueueCap(c: Config): nat {
    8 * c.workers
  }

  function Zeros(n: nat): seq<byte> {
    seq(n, _ => 0)
  }

  function Bytes(heap: seq<seq<byte>>, f: Slice): seq<byte>
    requires f.arr < |heap| && f.len <= |heap[f.arr]|
  {
    heap[f.arr][..f.len]
  }

  /** The bytes behind a slice; empty for a slice that names no memory. */
  function Peek(heap: seq<seq<byte>>, f: Slice): seq<byte> {
    if f.arr < |heap| && f.len <= |heap[f.arr]| then Bytes(heap, f) else []
  }

  function Init(c: Config, running: bool, beaconOn: bool): State {
    State([], multiset{}, seq(c.workers, _ => NotStarted) + [AtWait], SNotStarted, Spawning(0), [],
          false, false, false, false, running, beaconOn, NoCrash,
          ZERO_COUNTERS, 0, [], [])
  }

  /** The context a feeder selects on: builders hold `ctx`, the beacon holds `bgCtx`. */
  predicate Cancelled(c: Config, s: State, i: nat) {
    s.ctxDone || (i == c.workers && s.bgDone)
  }

  /** What `buildAppend` may do: write within the capacity, or leave the old array scribbled on. */
  predicate CanBuild(s: State, buf: Slice, result: BuildResult) {
    && buf.arr < |s.heap|
    && match result
       case PackError(scribble) => |scribble| == |s.heap[buf.arr]|
       case InPlace(bytes) => |bytes| <= |s.heap[buf.arr]|
       case Moved(_, _, scribble) => |scribble| == |s.heap[buf.arr]|
  }

  predicate EnvEnabled(s: State, m: EnvMove) {
    m.GcPool? ==> m.victim in s.pool
  }

  predicate BuilderEnabled(t: Feeder, m: BuilderMove) {
    match m
    case Wait => t.AtWait?
    case CheckCtx => t.AtCtxCheck?
    case CheckRunning => t.AtRunning?
    case Pick(slot) => t.AtPick? && (slot.Some? ==> slot.value < SLOTS)
    case Next(_) => t.AtNext?
  }

  predicate BeaconEnabled(s: State, t: Feeder, m: BeaconMove) {
    match m
    case CheckWeight => t.AtWait?
    case Sleep(woken) => t.AtSleep? && (woken || s.ctxDone || s.bgDone)
    case Emit(ok) => t.AtNext? && (ok || s.ctxDone || s.bgDone)
    case CheckGate => t.AtRunning?
  }

  predicate FrameEnabled(c: Config, s: State, i: nat, t: Feeder, m: FrameMove) {
    match m
    case Get(pooled) => t.AtGet? && (pooled.Some? ==> pooled.value in s.pool)
    case Build(result) => t.AtBuild? && CanBuild(s, t.buf, result)
    case PutBack => t.AtPutBack? && t.buf.arr < |s.heap|
    case Send => t.AtSend? && (s.closed || |s.queue| < QueueCap(c))
    case Abort => t.AtSend? && Cancelled(c, s, i)
  }

  predicate SenderEnabled(s: State, m: SenderMove) {
    match m
    case Receive => s.sender.AtReceive? && (s.queue != [] || s.closed)
    case Sink(_) => s.sender.AtSink?
    case BumpPattern => s.sender.AtBumpPattern?
    case BumpTotal => s.sender.AtBumpTotal?
    case Recycle => s.sender.AtRecycle? && s.sender.frame.arr < |s.heap|
  }

  predicate BuildersExited(c: Config, feeders: seq<Feeder>)
    requires c.workers <= |feeders|
  {
    forall i | 0 <= i < c.workers :: feeders[i].Exited?
  }

  predicate MainEnabled(c: Config, s: State, m: MainMove)
    requires |s.feeders| == c.workers + 1
  {
    match m
    case Spawn(_) => s.main.Spawning? && s.main.next < c.workers
    case StartSender => s.main == Spawning(c.workers)
    case Join => s.main.Joining? && BuildersExited(c, s.feeders)
    case CancelBg => s.main.Cancelling?
    case CloseQueue => s.main.Closing?
    case Return => s.main.Draining? && s.sender.SDone?
  }

  predicate Enabled(c: Config, s: State, a: Action) {
    && s.crash == NoCrash
    && |s.feeders| == c.workers + 1
    && match a
       case Env(m) => EnvEnabled(s, m)
       case Builder(i, m) => i < c.workers && BuilderEnabled(s.feeders[i], m)
       case Beacon(m) => BeaconEnabled(s, s.feeders[c.workers], m)
       case Frame(i, m) => i <= c.workers && FrameEnabled(c, s, i, s.feeders[i], m)
       case Deliver(m) => SenderEnabled(s, m)
       case Main(m) => MainEnabled(c, s, m)
  }

  function Goto(s: State, i: nat, t: Feeder): State
    requires i < |s.feeders|
  {
    s.(feeders := s.feeders[i := t])
  }

  /** `frameBufferPool.put`: oversized arrays are dropped, others go back with length 0. */
  function Put(s: State, buf: Slice): multiset<Slice>
    requires buf.arr < |s.heap|
  {
    if |s.heap[buf.arr]| > MAX_POOLED_CAP then s.pool else s.pool + multiset{Slice(buf.arr, 0)}
  }

  function ApplyGet(s: State, i: nat, pooled: Option<Slice>): State
    requires i < |s.feeders| && s.feeders[i].AtGet?
  {
    match pooled
    case Some(b) =>
      Goto(s.(pool := s.pool - multiset{b}), i, AtBuild(s.feeders[i].name, Slice(b.arr, 0)))
    case None =>
      Goto(s.(heap := s.heap + [Zeros(INITIAL_CAP)]), i, AtBuild(s.feeders[i].name, Slice(|s.heap|, 0)))
  }

  /** `buildAppend` on an empty destination: it writes in place, or moves to a new array. */
  function ApplyBuild(s: State, i: nat, result: BuildResult): State
    requires i < |s.feeders| && s.feeders[i].AtBuild? && CanBuild(s, s.feeders[i].buf, result)
  {
    var name, buf := s.feeders[i].name, s.feeders[i].buf;
    match result
    case PackError(scribble) =>
      Goto(s.(heap := s.heap[buf.arr := scribble]), i, AtPutBack(buf, false))
    case InPlace(bytes) =>
      Goto(s.(heap := s.heap[buf.arr := bytes + s.heap[buf.arr][|bytes|..]]), i,
           AtSend(name, Slice(buf.arr, |bytes|), bytes))
    case Moved(bytes, spare, scribble) =>
      Goto(s.(heap := s.heap[buf.arr := scribble] + [bytes + spare]), i,
           AtSend(name, Slice(|s.heap|, |bytes|), bytes))
  }

  function ApplyPutBack(s: State, i: nat): State
    requires i < |s.feeders| && s.feeders[i].AtPutBack? && s.feeders[i].buf.arr < |s.heap|
  {
    Goto(s.(pool := Put(s, s.feeders[i].buf)), i, if s.feeders[i].leave then Exited else AtWait)
  }

  function ApplySend(s: State, i: nat): State
    requires i < |s.feeders| && s.feeders[i].AtSend?
  {
    var t := s.feeders[i];
    if s.closed then
      s.(crash := ClosedSend(i))
    else
      Goto(s.(queue := s.queue + [Item(t.name, t.frame)],
              enqueued := s.enqueued + [Entry(t.name, t.produced)]), i, AtWait)
  }

  function ApplyReceive(s: State): State {
    if s.queue != [] then s.(queue := s.queue[1..], sender := AtSink(s.queue[0]))
    else s.(sender := SDone)
  }

  function ApplyRecycle(s: State): State
    requires s.sender.AtRecycle? && s.sender.frame.arr < |s.heap|
  {
    s.(sender := AtReceive, pool := Put(s, s.sender.frame))
  }

  function ApplySink(s: State, ok: bool): State
    requires s.sender.AtSink?
  {
    var item := s.sender.item;
    s.(sender := if ok then AtBumpPattern(item) else AtRecycle(item.frame),
       attempts := s.attempts + [Attempt(Entry(item.name, Peek(s.heap, item.frame)), ok)])
  }

  function ApplyBumpPattern(s: State): State
    requires s.sender.AtBumpPattern?
  {
    s.(sender := AtBumpTotal(s.sender.item), sent := s.sent.Bump(s.sender.item.name))
  }

  function ApplyEnv(s: State, m: EnvMove): State {
    match m
    case Cancel => s.(ctxDone := true)
    case SetRunning(on) => s.(running := on)
    case SetBeaconWeight(positive) => s.(beaconOn := positive)
    case GcPool(v) => s.(pool := s.pool - multiset{v})
  }

  /** Where a builder's own step leads it; none of them touches shared state. */
  function BuilderNext(c: Config, s: State, t: Feeder, m: BuilderMove): Feeder
    requires BuilderEnabled(t, m)
  {
    match m
    case Wait => if (if c.unbound then s.ctxDone else s.bucketClosed) then Exited else AtCtxCheck
    case CheckCtx => if s.ctxDone then Exited else AtRunning
    case CheckRunning => if s.running then AtPick else AtWait
    case Pick(slot) => if slot.Some? then AtNext(SlotName(slot.value)) else AtWait
    case Next(ok) => if ok then AtGet(t.name) else if s.ctxDone then Exited else AtWait
  }

  function BeaconNext(s: State, t: Feeder, m: BeaconMove): Feeder {
    match m
    case CheckWeight => if s.beaconOn then AtNext(Name.Beacon) else AtSleep
    case Sleep(woken) => if woken then AtWait else Exited
    case Emit(ok) => if ok then AtRunning else Exited
    case CheckGate => if s.running then AtGet(Name.Beacon) else AtWait
  }

  function ApplyFrame(c: Config, s: State, i: nat, m: FrameMove): State
    requires i < |s.feeders| && FrameEnabled(c, s, i, s.feeders[i], m)
  {
    match m
    case Get(pooled) => ApplyGet(s, i, pooled)
    case Build(result) => ApplyBuild(s, i, result)
    case PutBack => ApplyPutBack(s, i)
    case Send => ApplySend(s, i)
    case Abort => Goto(s, i, AtPutBack(s.feeders[i].frame, true))
  }

  function ApplySender(s: State, m: SenderMove): State
    requires SenderEnabled(s, m)
  {
    match m
    case Receive => ApplyReceive(s)
    case Sink(ok) => ApplySink(s, ok)
    case BumpPattern => ApplyBumpPattern(s)
    case BumpTotal => s.(sender := AtRecycle(s.sender.item.frame), total := s.total + 1)
    case Recycle => ApplyRecycle(s)
  }

  function ApplyMain(c: Config, s: State, m: MainMove): State
    requires |s.feeders| == c.workers + 1 && MainEnabled(c, s, m)
  {
    match m
    case Spawn(ok) =>
      if ok then Goto(s.(main := Spawning(s.main.next + 1)), s.main.next, AtWait)
      else s.(main := Failed, bgDone := true, bucketClosed := !c.unbound)
    case StartSender => s.(main := Joining, sender := AtReceive)
    case Join => s.(main := Cancelling)
    case CancelBg => s.(main := Closing, bgDone := true)
    case CloseQueue => s.(main := Draining, closed := true)
    case Return => s.(main := Returned, bucketClosed := !c.unbound)
  }

  function Apply(c: Config, s: State, a: Action): State
    requires Enabled(c, s, a)
  {
    match a
    case Env(m) => ApplyEnv(s, m)
    case Builder(i, m) => Goto(s, i, BuilderNext(c, s, s.feeders[i], m))
    case Beacon(m) => Goto(s, c.workers, BeaconNext(s, s.feeders[c.workers], m))
    case Frame(i, m) => ApplyFrame(c, s, i, m)
    case Deliver(m) => ApplySender(s, m)
    case Main(m) => ApplyMain(c, s, m)
  }

  function FeederBuffer(t: Feeder): Option<Slice> {
    match t
    case AtBuild(_, buf) => Some(buf)
    case AtPutBack(buf, _) => Some(buf)
    case AtSend(_, frame, _) => Some(frame)
    case _ => None
  }

  function FeederName(t: Feeder): Option<Name> {
    match t
    case AtNext(name) => Some(name)
    case AtGet(name) => Some(name)
    case AtBuild(name, _) => Some(name)
    case AtSend(name, _, _) => Some(name)
    case _ => None
  }

  /** Only the heap, the pool and feeder `i` differ, and old arrays the feeder does not hold are as they were. */
  ghost predicate OnlyFeeder(s: State, s': State, i: nat)
    requires i < |s.feeders|
  {
    && |s'.feeders| == |s.feeders|
    && s' == s.(heap := s'.heap, pool := s'.pool, feeders := s.feeders[i := s'.feeders[i]])
    && |s.heap| <= |s'.heap|
    && (forall a | 0 <= a < |s.heap| && (FeederBuffer(s.feeders[i]).Some? ==> a != FeederBuffer(s.feeders[i]).value.arr) ::
          s'.heap[a] == s.heap[a])
    && (FeederName(s'.feeders[i]).Some? ==> FeederName(s'.feeders[i]) == FeederName(s.feeders[i]))
  }

  lemma GetEffect(s: State, i: nat, pooled: Option<Slice>)
    requires i < |s.feeders| && s.feeders[i].AtGet?
    ensures var s' := ApplyGet(s, i, pooled);
            OnlyFeeder(s, s', i) && s'.feeders[i].AtBuild?
  {}

  lemma BuildEffect(s: State, i: nat, result: BuildResult)
    requires i < |s.feeders| && s.feeders[i].AtBuild? && CanBuild(s, s.feeders[i].buf, result)
    ensures var s' := ApplyBuild(s, i, result);
            && OnlyFeeder(s, s', i) && (s'.feeders[i].AtPutBack? || s'.feeders[i].AtSend?)
            && s'.pool == s.pool && |s'.heap| == |s.heap| + (if result.Moved? then 1 else 0)
  {
    match result
    case PackError(_) =>
    case InPlace(_) =>
    case Moved(_, _, _) =>
  }

  /** A frame step other than a send touches the heap, the pool and the moving feeder only. */
  lemma FrameEffect(c: Config, s: State, i: nat, m: FrameMove)
    requires i < |s.feeders| && FrameEnabled(c, s, i, s.feeders[i], m) && !m.Send?
    ensures var s' := ApplyFrame(c, s, i, m);
            && OnlyFeeder(s, s', i)
            && (s'.feeders[i].AtBuild? || s'.feeders[i].AtPutBack? || s'.feeders[i].AtSend?
                || s'.feeders[i].AtWait? || s'.feeders[i].Exited?)
  {
    match m
    case Get(pooled) => GetEffect(s, i, pooled);
    case Build(result) => BuildEffect(s, i, result);
    case PutBack =>
    case Abort =>
  }

  /** No frame moves and no counter changes. */
  predicate SameFrames(s: State, s': State) {
    && s'.heap == s.heap && s'.queue == s.queue
    && s'.enqueued == s.enqueued && s'.attempts == s.attempts
    && s'.sent == s.sent && s'.total == s.total
  }

  lemma MainEffect(c: Config, s: State, m: MainMove)
    requires |s.feeders| == c.workers + 1 && MainEnabled(c, s, m)
    ensures var s' := ApplyMain(c, s, m);
            && SameFrames(s, s') && s'.pool == s.pool && |s'.feeders| == |s.feeders|
            && s'.feeders == (if m == Spawn(true) then s.feeders[s.main.next := AtWait] else s.feeders)
            && s'.sender == (if m.StartSender? then AtReceive else s.sender)
            && s'.ctxDone == s.ctxDone && s'.running == s.running
  {
    match m
    case Spawn(ok) => if ok {} else {}
    case StartSender =>
    case Join =>
    case CancelBg =>
    case CloseQueue =>
    case Return =>
  }

  lemma EnvEffect(s: State, m: EnvMove)
    ensures var s' := ApplyEnv(s, m);
            && SameFrames(s, s') && s'.feeders == s.feeders && s'.sender == s.sender
            && (s.ctxDone ==> s'.ctxDone)
  {}

  /** The sender touches nothing but its own state, the pool, the queue, the counters and the history. */
  predicate OnlySender(s: State, s': State) {
    && s'.feeders == s.feeders && s'.main == s.main && s'.closed == s.closed && s'.crash == s.crash
    && s'.ctxDone == s.ctxDone && s'.bgDone == s.bgDone && s'.bucketClosed == s.bucketClosed
    && s'.running == s.running && s'.beaconOn == s.beaconOn
    && |s'.queue| <= |s.queue|
  }

  lemma ReceiveEffect(s: State)
    ensures OnlySender(s, ApplyReceive(s))
  {
    if s.queue == [] {} else {}
  }

  lemma SinkEffect(s: State, ok: bool)
    requires s.sender.AtSink?
    ensures OnlySender(s, ApplySink(s, ok))
  {}

  lemma BumpPatternEffect(s: State)
    requires s.sender.AtBumpPattern?
    ensures OnlySender(s, ApplyBumpPattern(s))
  {}

  lemma BumpTotalEffect(s: State)
    requires s.sender.AtBumpTotal?
    ensures OnlySender(s, ApplySender(s, BumpTotal))
  {}

  lemma RecycleEffect(s: State)
    requires s.sender.AtRecycle? && s.sender.frame.arr < |s.heap|
    ensures OnlySender(s, ApplyRecycle(s))
  {}

  lemma SenderEffect(s: State, m: SenderMove)
    requires SenderEnabled(s, m)
    ensures OnlySender(s, ApplySender(s, m))
  {
    match m
    case Receive => ReceiveEffect(s);
    case Sink(ok) => SinkEffect(s, ok);
    case BumpPattern => BumpPatternEffect(s);
    case BumpTotal => BumpTotalEffect(s);
    case Recycle => RecycleEffect(s);
  }

  predicate ValidRun(c: Config, s: State, run: seq<Action>)
    decreases |run|
  {
    run != [] ==> Enabled(c, s, run[0]) && ValidRun(c, Apply(c, s, run[0]), run[1..])
  }

  function Exec(c: Config, s: State, run: seq<Action>): State
    requires ValidRun(c, s, run)
    decreases |run|
  {
    if run == [] then s else Exec(c, Apply(c, s, run[0]), run[1..])
  }
}
