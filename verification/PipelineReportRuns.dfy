/**
  Runs from the start that show what a report can say: drift that is not honest, and observed values
  that no scrape ever showed together.
 */
module PipelineReportRuns {
  import opened Basics
  import opened Pipeline
  import opened PipelineDelivery
  import opened PipelineBeacon
  import opened PipelineReconcile
  import opened PipelineReport
  import opened Verify

  lemma {:induction false} PlayAppend(c: Config, w: World, moves: seq<Move>, m: Move, server: nat)
    requires ValidMoves(c, w, moves) && OnlyOurs(c, w, moves, server)
    requires MoveEnabled(c, Play(c, w, moves), m) && !m.Restart?
    requires m.Serve? ==> Play(c, w, moves).server < server + AcceptedAll(Play(c, w, moves).pipe.attempts)
    ensures ValidMoves(c, w, moves + [m]) && OnlyOurs(c, w, moves + [m], server)
    ensures Play(c, w, moves + [m]) == ApplyMove(c, Play(c, w, moves), m)
    decreases |moves|
  {
    if moves == [] {
      assert [m][1..] == [];
      assert [] + [m] == [m];
    } else {
      assert (moves + [m])[1..] == moves[1..] + [m];
      PlayAppend(c, ApplyMove(c, w, moves[0]), moves[1..], m, server);
    }
  }

  lemma FedStep(c: Config, w: World, server: nat, m: Move)
    requires FedWorld(c, w, server) && MoveEnabled(c, w, m) && !m.Restart?
    requires m.Serve? ==> w.server < server + AcceptedAll(w.pipe.attempts)
    ensures FedWorld(c, ApplyMove(c, w, m), server)
  {
    var running, beaconOn, moves :|
      && ValidMoves(c, Start(c, running, beaconOn, server), moves)
      && OnlyOurs(c, Start(c, running, beaconOn, server), moves, server)
      && Play(c, Start(c, running, beaconOn, server), moves) == w;
    PlayAppend(c, Start(c, running, beaconOn, server), moves, m, server);
  }

  lemma FedStart(c: Config, running: bool, beaconOn: bool, server: nat)
    ensures FedWorld(c, Start(c, running, beaconOn, server), server)
  {
    assert Play(c, Start(c, running, beaconOn, server), []) == Start(c, running, beaconOn, server);
  }

  // -------------------------------------------------------- one frame is sent

  /** No scrape yet; the beacon is at `t`, the sender at `x`, and nothing has been counted. */
  ghost predicate Sending(w: World, t: Feeder, x: Sender, queue: seq<Item>) {
    && FedWorld(ONE_WORKER, w, 0)
    && w.server == 0 && w.scrapes == [] && w.stores == CELLS && w.cells == NOTHING && w.marks == []
    && var s := w.pipe;
       && s.crash.NoCrash? && !s.closed && s.running && s.beaconOn
       && s.feeders == [AtWait, t] && s.sender == x && s.queue == queue
       && s.attempts == [] && s.total == 0
  }

  lemma Launched() returns (w: World)
    ensures Sending(w, AtWait, AtReceive, [])
  {
    var c := ONE_WORKER;
    w := Start(c, true, true, 0);
    FedStart(c, true, true, 0);
    assert w.pipe.feeders == [NotStarted, AtWait];
    FedStep(c, w, 0, Pipe(Main(Spawn(true))));
    w := ApplyMove(c, w, Pipe(Main(Spawn(true))));
    assert w.pipe.feeders == [AtWait, AtWait];
    FedStep(c, w, 0, Pipe(Main(StartSender)));
    w := ApplyMove(c, w, Pipe(Main(StartSender)));
  }

  lemma BeaconStep(w: World, t: Feeder, m: BeaconMove, t': Feeder) returns (w': World)
    requires Sending(w, t, AtReceive, [])
    requires BeaconEnabled(w.pipe, t, m) && t' == BeaconNext(w.pipe, t, m)
    ensures Sending(w', t', AtReceive, [])
  {
    FedStep(ONE_WORKER, w, 0, Pipe(Action.Beacon(m)));
    w' := ApplyMove(ONE_WORKER, w, Pipe(Action.Beacon(m)));
  }

  lemma PastGate() returns (w: World)
    ensures Sending(w, AtGet(Name.Beacon), AtReceive, [])
  {
    w := Launched();
    w := BeaconStep(w, AtWait, CheckWeight, AtNext(Name.Beacon));
    w := BeaconStep(w, AtNext(Name.Beacon), Emit(true), AtRunning);
    w := BeaconStep(w, AtRunning, CheckGate, AtGet(Name.Beacon));
  }

  lemma Built() returns (w: World, f: Slice)
    ensures Sending(w, AtSend(Name.Beacon, f, []), AtReceive, [])
  {
    w := PastGate();
    f := Slice(|w.pipe.heap|, 0);
    FedStep(ONE_WORKER, w, 0, Pipe(Frame(1, Get(None))));
    w := ApplyMove(ONE_WORKER, w, Pipe(Frame(1, Get(None))));
    FedStep(ONE_WORKER, w, 0, Pipe(Frame(1, Build(InPlace([])))));
    w := ApplyMove(ONE_WORKER, w, Pipe(Frame(1, Build(InPlace([])))));
  }

  lemma InTheSink() returns (w: World, f: Slice)
    ensures Sending(w, AtWait, AtSink(Item(Name.Beacon, f)), [])
  {
    w, f := Built();
    FedStep(ONE_WORKER, w, 0, Pipe(Frame(1, Send)));
    w := ApplyMove(ONE_WORKER, w, Pipe(Frame(1, Send)));
    FedStep(ONE_WORKER, w, 0, Pipe(Deliver(Receive)));
    w := ApplyMove(ONE_WORKER, w, Pipe(Deliver(Receive)));
  }

  /** One frame is accepted and counted, and nothing has been scraped. */
  ghost predicate OneFrameSent(w: World) {
    && FedWorld(ONE_WORKER, w, 0)
    && w.server == 0 && w.scrapes == [] && w.stores == CELLS && w.cells == NOTHING && w.marks == []
    && w.pipe.total == 1 && AcceptedAll(w.pipe.attempts) == 1
  }

  lemma FrameSent() returns (w: World)
    ensures OneFrameSent(w)
  {
    var f;
    w, f := InTheSink();
    FedStep(ONE_WORKER, w, 0, Pipe(Deliver(Sink(true))));
    w := ApplyMove(ONE_WORKER, w, Pipe(Deliver(Sink(true))));
    FedStep(ONE_WORKER, w, 0, Pipe(Deliver(BumpPattern)));
    w := ApplyMove(ONE_WORKER, w, Pipe(Deliver(BumpPattern)));
    FedStep(ONE_WORKER, w, 0, Pipe(Deliver(BumpTotal)));
    w := ApplyMove(ONE_WORKER, w, Pipe(Deliver(BumpTotal)));
    assert w.pipe.attempts[..0] == [];
  }

  // ------------------------------------------------------------- the witnesses

  /** A report whose loads have nothing between them. */
  const AT_ONCE := Schedule([], [], [], [[], [], [], [], [], [], [], [], []])

  lemma {:induction false} EmptyGaps(c: Config, s: State, gaps: seq<seq<Action>>)
    requires forall k | 0 <= k < |gaps| :: gaps[k] == []
    ensures ValidGaps(c, s, gaps)
    decreases |gaps|
  {
    if gaps != [] {
      assert ValidRun(c, s, gaps[0]) && Exec(c, s, gaps[0]) == s;
      EmptyGaps(c, s, gaps[1..]);
    }
  }

  lemma AtOnce(c: Config, w: World)
    ensures ValidSchedule(c, w, AT_ONCE) && OnlyOurs(c, w, AT_ONCE.processed, 0)
    ensures AtProcessed(c, w, AT_ONCE) == AtNewQname(c, w, AT_ONCE) == w
  {
    EmptyGaps(c, w.pipe, AT_ONCE.patterns);
  }

  lemma ScrapeAndStore(c: Config, w: World, server: nat, snap: Snapshot) returns (w': World)
    requires FedWorld(c, w, server) && w.stores == CELLS && snap.processed == w.server
    ensures FedWorld(c, w', server)
    ensures w' == w.(scrapes := w.scrapes + [snap], stores := 1,
                     marks := w.marks + [Mark(w.pipe.total, AcceptedAll(w.pipe.attempts))],
                     cells := w.cells.(processed := Observed(w.scrapes + [snap]).processed))
  {
    FedStep(c, w, server, Scrape(snap));
    w' := ApplyMove(c, w, Scrape(snap));
    FedStep(c, w', server, Store);
    w' := ApplyMove(c, w', Store);
  }

  lemma Served(w: World) returns (w': World)
    requires FedWorld(ONE_WORKER, w, 0) && w.server == 0 && AcceptedAll(w.pipe.attempts) == 1
    ensures FedWorld(ONE_WORKER, w', 0) && w' == w.(server := 1)
  {
    FedStep(ONE_WORKER, w, 0, Serve);
    w' := ApplyMove(ONE_WORKER, w, Serve);
  }

  /** A single scrape is its own baseline. */
  lemma FirstScrapeShowsNothing(snap: Snapshot)
    ensures Observed([snap]) == NOTHING
  {}

  lemma FirstScrape() returns (w: World)
    ensures FedWorld(ONE_WORKER, w, 0)
    ensures w.server == AcceptedAll(w.pipe.attempts) == w.pipe.total == 1
    ensures w.scrapes == [NOTHING.(processed := 1)] && w.marks == [Mark(1, 1)]
    ensures w.stores == 1 && w.cells == NOTHING
  {
    w := FrameSent();
    w := Served(w);
    FirstScrapeShowsNothing(NOTHING.(processed := 1));
    assert [] + [NOTHING.(processed := 1)] == [NOTHING.(processed := 1)];
    w := ScrapeAndStore(ONE_WORKER, w, 0, NOTHING.(processed := 1));
  }

  /** A report on the first scrape shows a drift of one frame, though the server has processed every frame. */
  predicate ShowsDishonestDrift(w: World, r: Report) {
    && |w.scrapes| == |w.marks| == Seen(w, 0) == 1
    && w.server == AcceptedAll(w.pipe.attempts) == 1
    && r.drift == 1 && Backlog(w, 0, 0) == 0 && Early(w, 0, 0) == 1
  }

  lemma ReportAtOnce(c: Config, w: World)
    requires ValidSchedule(c, w, AT_ONCE)
    requires AtProcessed(c, w, AT_ONCE) == AtNewQname(c, w, AT_ONCE) == w
    ensures var r := Reconcile(c, w, AT_ONCE);
            && r.drift == w.pipe.total - w.cells.processed
            && r.edmProcessed == w.cells.processed && r.edmNewQname == w.cells.newQname
  {}

  lemma FirstScrapeIsDishonest(w: World, r: Report)
    requires w.server == AcceptedAll(w.pipe.attempts) == 1
    requires w.scrapes == [NOTHING.(processed := 1)] && w.marks == [Mark(1, 1)] && w.stores == 1
    requires r.drift == 1
    ensures ShowsDishonestDrift(w, r)
  {}

  /** One frame sent and served before the first scrape stays in the drift. */
  lemma DishonestDrift() returns (w: World)
    ensures FedWorld(ONE_WORKER, w, 0) && ValidSchedule(ONE_WORKER, w, AT_ONCE)
    ensures ShowsDishonestDrift(w, Reconcile(ONE_WORKER, w, AT_ONCE))
  {
    w := FirstScrape();
    AtOnce(ONE_WORKER, w);
    ReportAtOnce(ONE_WORKER, w);
    FirstScrapeIsDishonest(w, Reconcile(ONE_WORKER, w, AT_ONCE));
  }

  /** No scrape of the stream showed the two values together. */
  predicate NeverTogether(scrapes: seq<Snapshot>, processed: int, newQname: int) {
    forall n: nat | n <= |scrapes| ::
      !(Observed(scrapes[..n]).processed == processed && Observed(scrapes[..n]).newQname == newQname)
  }

  lemma StoreNext(c: Config, w: World, server: nat) returns (w': World)
    requires FedWorld(c, w, server) && w.stores < CELLS
    ensures FedWorld(c, w', server)
    ensures w' == w.(stores := w.stores + 1, cells := StoreCell(w.cells, Observed(w.scrapes), w.stores))
  {
    FedStep(c, w, server, Store);
    w' := ApplyMove(c, w, Store);
  }

  /** The first scrape is read before the server has served the frame, and stored in full. */
  lemma BaselineStored() returns (w: World)
    ensures FedWorld(ONE_WORKER, w, 0)
    ensures w.server == 0 && AcceptedAll(w.pipe.attempts) == 1
    ensures w.scrapes == [NOTHING] && w.stores == CELLS && w.cells == NOTHING
  {
    w := FrameSent();
    w := ScrapeAndStore(ONE_WORKER, w, 0, NOTHING);
    assert w.scrapes == [NOTHING] && Observed(w.scrapes) == NOTHING;
    w := StoreNext(ONE_WORKER, w, 0);
    w := StoreNext(ONE_WORKER, w, 0);
    w := StoreNext(ONE_WORKER, w, 0);
    w := StoreNext(ONE_WORKER, w, 0);
    w := StoreNext(ONE_WORKER, w, 0);
  }

  const SECOND := NOTHING.(processed := 1, newQname := 1)

  /** Between the first two stores for the second scrape. */
  lemma SecondHalfStored() returns (w: World)
    ensures FedWorld(ONE_WORKER, w, 0)
    ensures |w.scrapes| == 2 && w.scrapes[0] == NOTHING && w.scrapes[1] == SECOND && w.stores == 1
    ensures w.cells.processed == 1 && w.cells.newQname == 0
  {
    w := BaselineStored();
    w := Served(w);
    TwoScrapes(w.scrapes + [SECOND]);
    w := ScrapeAndStore(ONE_WORKER, w, 0, SECOND);
  }

  /** The processed count comes from the second scrape and the new names from the first. */
  ghost predicate Torn(w: World, w1: World, w2: World, r: Report) {
    && Seen(w1, 0) == 2 && Seen(w2, 1) == 1
    && NeverTogether(w.scrapes, r.edmProcessed, r.edmNewQname)
  }

  /** The report falls between two stores: one frame processed, but not the new name it brought. */
  lemma TornReport() returns (w: World)
    ensures FedWorld(ONE_WORKER, w, 0) && ValidSchedule(ONE_WORKER, w, AT_ONCE)
    ensures Torn(w, AtProcessed(ONE_WORKER, w, AT_ONCE), AtNewQname(ONE_WORKER, w, AT_ONCE),
                 Reconcile(ONE_WORKER, w, AT_ONCE))
  {
    w := SecondHalfStored();
    AtOnce(ONE_WORKER, w);
    ReportAtOnce(ONE_WORKER, w);
    TwoScrapes(w.scrapes);
  }

  /** Two scrapes that share a baseline. */
  lemma ObservedOfTwo(scrapes: seq<Snapshot>, n: nat)
    requires |scrapes| == 2 && !scrapes[1].WentBackwards(scrapes[0]) && n <= 2
    ensures Observed(scrapes[..n]) == if n == 0 then NOTHING else scrapes[n - 1].Minus(scrapes[0])
  {
    if n > 0 {
      assert BaseIndex(scrapes, 0) == 0;
      ObservedAt(scrapes, n - 1);
    }
  }

  lemma ScrapesShow(scrapes: seq<Snapshot>, n: nat)
    requires |scrapes| == 2 && scrapes[0] == NOTHING && scrapes[1] == SECOND && n <= 2
    ensures Observed(scrapes[..n]) == if n == 2 then SECOND else NOTHING
  {
    assert !SECOND.WentBackwards(NOTHING);
    ObservedOfTwo(scrapes, n);
  }

  lemma TwoScrapes(scrapes: seq<Snapshot>)
    requires |scrapes| == 2 && scrapes[0] == NOTHING && scrapes[1] == SECOND
    ensures Observed(scrapes) == SECOND && NeverTogether(scrapes, 1, 0)
  {
    ScrapesShow(scrapes, 2);
    assert scrapes[..2] == scrapes;
    forall n: nat | n <= |scrapes|
      ensures !(Observed(scrapes[..n]).processed == 1 && Observed(scrapes[..n]).newQname == 0)
    {
      ScrapesShow(scrapes, n);
    }
  }
}
