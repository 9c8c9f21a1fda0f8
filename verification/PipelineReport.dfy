/**
  A report taken while everything runs: the pipeline, the scraper that rebases the server's counters,
  and the EDM server.  `Reconcile` makes thirteen atomic loads in a fixed order, and any number of steps
  may run between two of them.
 */
module PipelineReport {
  import opened Pipeline
  import opened PipelineDelivery
  import opened PipelineShutdown
  import opened PipelineRuns
  import opened PipelineReconcile
  import opened Verify

  /** History: `Sent.Total` and the frames the sink had accepted when a scrape was read. */
  datatype Mark = Mark(total: nat, accepted: nat)

  datatype World = World(
    pipe: State,
    server: nat,                 // the server's own counter of processed frames
    scrapes: seq<Snapshot>,      // what the scraper has read
    stores: nat,                 // how many of the six cells hold the last scrape, in store order
    cells: Snapshot,             // `state.Observed`
    marks: seq<Mark>             // history, one mark per scrape
  )

  const CELLS: nat := 6

  datatype Move =
    | Pipe(step: Action)
    | Serve                      // the server processes a frame
    | Restart
    | Scrape(snap: Snapshot)     // a scrape is read, its other counters at will, and the baseline updated
    | Store                      // the next of the six stores of `apply`

  function Start(c: Config, running: bool, beaconOn: bool, server: nat): World {
    World(Init(c, running, beaconOn), server, [], CELLS, NOTHING, [])
  }

  predicate MoveEnabled(c: Config, w: World, m: Move) {
    match m
    case Pipe(a) => Enabled(c, w.pipe, a)
    case Serve => true
    case Restart => true
    case Scrape(snap) => w.stores == CELLS && snap.processed == w.server
    case Store => w.stores < CELLS
  }

  function StoreCell(cells: Snapshot, o: Snapshot, k: nat): Snapshot {
    match k
    case 0 => cells.(processed := o.processed)
    case 1 => cells.(newQname := o.newQname)
    case 2 => cells.(ignoredTotal := o.ignoredTotal)
    case 3 => cells.(cryptopanHits := o.cryptopanHits)
    case 4 => cells.(cryptopanEvict := o.cryptopanEvict)
    case _ => cells.(seenQnameEvict := o.seenQnameEvict)
  }

  function ApplyMove(c: Config, w: World, m: Move): World
    requires MoveEnabled(c, w, m)
  {
    match m
    case Pipe(a) => w.(pipe := Apply(c, w.pipe, a))
    case Serve => w.(server := w.server + 1)
    case Restart => w.(server := 0)
    case Scrape(snap) =>
      w.(scrapes := w.scrapes + [snap], stores := 0,
         marks := w.marks + [Mark(w.pipe.total, AcceptedAll(w.pipe.attempts))])
    case Store => w.(stores := w.stores + 1, cells := StoreCell(w.cells, Observed(w.scrapes), w.stores))
  }

  predicate ValidMoves(c: Config, w: World, moves: seq<Move>)
    decreases |moves|
  {
    moves != [] ==> MoveEnabled(c, w, moves[0]) && ValidMoves(c, ApplyMove(c, w, moves[0]), moves[1..])
  }

  function Play(c: Config, w: World, moves: seq<Move>): World
    requires ValidMoves(c, w, moves)
    decreases |moves|
  {
    if moves == [] then w else Play(c, ApplyMove(c, w, moves[0]), moves[1..])
  }

  // ---------------------------------------------------------------- the report

  /** What runs before each load after the first. */
  datatype Schedule = Schedule(processed: seq<Move>, newQname: seq<Move>, ignored: seq<Move>,
                               patterns: seq<seq<Action>>)

  predicate ValidSchedule(c: Config, w: World, g: Schedule) {
    && ValidMoves(c, w, g.processed)
    && var w1 := Play(c, w, g.processed);
    && ValidMoves(c, w1, g.newQname)
    && var w2 := Play(c, w1, g.newQname);
    && ValidMoves(c, w2, g.ignored)
    && |g.patterns| == |PATTERN_LOADS|
    && ValidGaps(c, Play(c, w2, g.ignored).pipe, g.patterns)
  }

  /** The worlds in which the three observed cells are loaded. */
  function AtProcessed(c: Config, w: World, g: Schedule): World
    requires ValidSchedule(c, w, g)
  {
    Play(c, w, g.processed)
  }

  function AtNewQname(c: Config, w: World, g: Schedule): World
    requires ValidSchedule(c, w, g)
  {
    Play(c, AtProcessed(c, w, g), g.newQname)
  }

  function AtIgnored(c: Config, w: World, g: Schedule): World
    requires ValidSchedule(c, w, g)
  {
    Play(c, AtNewQname(c, w, g), g.ignored)
  }

  datatype Report = Report(sentTotal: int, edmProcessed: int, drift: int, edmNewQname: int,
                           edmIgnoredTotal: int, perPattern: seq<nat>)

  /** `Reconcile`, its first load in world `w`. */
  function Reconcile(c: Config, w: World, g: Schedule): Report
    requires ValidSchedule(c, w, g)
  {
    var sentTotal, edmProcessed := w.pipe.total, AtProcessed(c, w, g).cells.processed;
    var edmNewQname, edmIgnoredTotal := AtNewQname(c, w, g).cells.newQname, AtIgnored(c, w, g).cells.ignoredTotal;
    var perPattern := Loads(c, AtIgnored(c, w, g).pipe, PATTERN_LOADS, g.patterns);
    Report(sentTotal, edmProcessed, sentTotal - edmProcessed, edmNewQname, edmIgnoredTotal, perPattern)
  }

  // ------------------------------------------------------- what the cells hold

  /** How many scrapes cell `k` has seen. */
  function Seen(w: World, k: nat): nat {
    if w.stores > k || w.scrapes == [] then |w.scrapes| else |w.scrapes| - 1
  }

  /** A counter of a snapshot, numbered in store order. */
  function Cell(o: Snapshot, k: nat): int {
    match k
    case 0 => o.processed
    case 1 => o.newQname
    case 2 => o.ignoredTotal
    case 3 => o.cryptopanHits
    case 4 => o.cryptopanEvict
    case _ => o.seenQnameEvict
  }

  predicate CellOk(w: World, k: nat) {
    Cell(w.cells, k) == Cell(Observed(w.scrapes[..Seen(w, k)]), k)
  }

  predicate CellsOk(w: World) {
    && w.stores <= CELLS && (w.scrapes == [] ==> w.stores == CELLS)
    && (forall k: nat | k < CELLS :: CellOk(w, k))
  }

  predicate MarkFits(m: Mark) {
    m.total <= m.accepted <= m.total + 1
  }

  predicate MarksOk(w: World) {
    && |w.marks| == |w.scrapes|
    && MarkFits(Mark(w.pipe.total, AcceptedAll(w.pipe.attempts)))
    && (forall k | 0 <= k < |w.marks| :: MarkFits(w.marks[k]) && w.marks[k].total <= w.pipe.total)
  }

  ghost predicate WorldOk(c: Config, w: World) {
    Inv(c, w.pipe) && CellsOk(w) && MarksOk(w)
  }

  /** The sink's acceptances are the total and at most one frame between the increments. */
  lemma AcceptedFits(c: Config, s: State)
    requires Inv(c, s)
    ensures MarkFits(Mark(s.total, AcceptedAll(s.attempts)))
    ensures s.sender.SDone? ==> s.total == AcceptedAll(s.attempts) == s.sent.Sum()
    ensures s.total <= s.sent.Sum() <= s.total + 1
  {}

  lemma StartOk(c: Config, running: bool, beaconOn: bool, server: nat)
    ensures WorldOk(c, Start(c, running, beaconOn, server))
  {
    InitHolds(c, running, beaconOn);
    AcceptedFits(c, Init(c, running, beaconOn));
  }

  /** `w'` comes after `w`: nothing counted is lost, and scrapes are only added. */
  ghost predicate Later(w: World, w': World) {
    && NoCounterDrops(w.pipe, w'.pipe)
    && |w.scrapes| <= |w'.scrapes| && w'.scrapes[..|w.scrapes|] == w.scrapes
    && |w.marks| <= |w'.marks| && w'.marks[..|w.marks|] == w.marks
    && (forall k | |w.marks| <= k < |w'.marks| :: w.pipe.total <= w'.marks[k].total)
    && (w'.scrapes == w.scrapes ==> w.stores <= w'.stores)
  }

  lemma ScrapeKeepsWorld(c: Config, w: World, snap: Snapshot)
    requires CellsOk(w) && MarksOk(w) && MoveEnabled(c, w, Scrape(snap))
    ensures var w' := ApplyMove(c, w, Scrape(snap)); CellsOk(w') && MarksOk(w') && Later(w, w')
  {
    var w' := ApplyMove(c, w, Scrape(snap));
    forall k: nat | k < CELLS ensures CellOk(w', k) {
      assert CellOk(w, k);
      assert w'.scrapes[..|w.scrapes|] == w.scrapes[..|w.scrapes|];
    }
  }

  lemma StoreCellAt(cells: Snapshot, o: Snapshot, j: nat, k: nat)
    requires j < CELLS && k < CELLS
    ensures Cell(StoreCell(cells, o, j), k) == if j == k then Cell(o, k) else Cell(cells, k)
  {}

  lemma StoreKeepsWorld(c: Config, w: World)
    requires CellsOk(w) && MarksOk(w) && MoveEnabled(c, w, Store)
    ensures var w' := ApplyMove(c, w, Store); CellsOk(w') && MarksOk(w') && Later(w, w')
  {
    var w' := ApplyMove(c, w, Store);
    forall k: nat | k < CELLS ensures CellOk(w', k) {
      assert CellOk(w, k);
      assert w.scrapes[..|w.scrapes|] == w.scrapes;
      StoreCellAt(w.cells, Observed(w.scrapes), w.stores, k);
    }
  }

  lemma SameScrapesKeepWorld(w: World, w': World)
    requires CellsOk(w) && w'.scrapes == w.scrapes && w'.stores == w.stores && w'.cells == w.cells
    ensures CellsOk(w')
  {
    forall k: nat | k < CELLS ensures CellOk(w', k) {
      assert CellOk(w, k);
    }
  }

  lemma ServerKeepsWorld(w: World, server: nat)
    requires CellsOk(w) && MarksOk(w)
    ensures var w' := w.(server := server); CellsOk(w') && MarksOk(w') && Later(w, w')
  {
    SameScrapesKeepWorld(w, w.(server := server));
  }

  lemma StepFacts(c: Config, s: State, a: Action)
    requires Inv(c, s) && Enabled(c, s, a)
    ensures var s' := Apply(c, s, a);
            Inv(c, s') && NoCounterDrops(s, s') && MarkFits(Mark(s'.total, AcceptedAll(s'.attempts)))
  {
    StepKeepsInv(c, s, a);
    StepCountsUp(c, s, a);
    AcceptedFits(c, Apply(c, s, a));
  }

  lemma PipeIsLater(w: World, s': State)
    requires CellsOk(w) && MarksOk(w)
    requires NoCounterDrops(w.pipe, s') && MarkFits(Mark(s'.total, AcceptedAll(s'.attempts)))
    ensures CellsOk(w.(pipe := s')) && MarksOk(w.(pipe := s')) && Later(w, w.(pipe := s'))
  {
    SameScrapesKeepWorld(w, w.(pipe := s'));
  }

  lemma PipeKeepsWorld(c: Config, w: World, a: Action)
    requires WorldOk(c, w) && Enabled(c, w.pipe, a)
    ensures WorldOk(c, ApplyMove(c, w, Pipe(a))) && Later(w, ApplyMove(c, w, Pipe(a)))
  {
    StepFacts(c, w.pipe, a);
    PipeIsLater(w, Apply(c, w.pipe, a));
  }

  lemma MoveKeepsWorld(c: Config, w: World, m: Move)
    requires WorldOk(c, w) && MoveEnabled(c, w, m)
    ensures WorldOk(c, ApplyMove(c, w, m)) && Later(w, ApplyMove(c, w, m))
  {
    match m
    case Pipe(a) => PipeKeepsWorld(c, w, a);
    case Serve => ServerKeepsWorld(w, w.server + 1);
    case Restart => ServerKeepsWorld(w, 0);
    case Scrape(snap) => ScrapeKeepsWorld(c, w, snap);
    case Store => StoreKeepsWorld(c, w);
  }

  lemma LaterIsTransitive(w: World, w1: World, w2: World)
    requires Later(w, w1) && Later(w1, w2)
    ensures Later(w, w2)
  {
    assert w2.scrapes[..|w.scrapes|] == w2.scrapes[..|w1.scrapes|][..|w.scrapes|];
    assert w2.marks[..|w.marks|] == w2.marks[..|w1.marks|][..|w.marks|];
    forall k | |w.marks| <= k < |w2.marks| ensures w.pipe.total <= w2.marks[k].total {
      if k < |w1.marks| {
        assert w2.marks[k] == w2.marks[..|w1.marks|][k];
      }
    }
  }

  lemma {:induction false} PlayKeepsWorld(c: Config, w: World, moves: seq<Move>)
    requires WorldOk(c, w) && ValidMoves(c, w, moves)
    ensures WorldOk(c, Play(c, w, moves)) && Later(w, Play(c, w, moves))
    decreases |moves|
  {
    if moves != [] {
      var w1 := ApplyMove(c, w, moves[0]);
      MoveKeepsWorld(c, w, moves[0]);
      PlayKeepsWorld(c, w1, moves[1..]);
      LaterIsTransitive(w, w1, Play(c, w1, moves[1..]));
    }
  }

  ghost predicate ReachableWorld(c: Config, w: World) {
    exists running, beaconOn, server, moves ::
      ValidMoves(c, Start(c, running, beaconOn, server), moves)
      && Play(c, Start(c, running, beaconOn, server), moves) == w
  }

  lemma ReachableWorldOk(c: Config, w: World)
    requires ReachableWorld(c, w)
    ensures WorldOk(c, w)
  {
    var running, beaconOn, server, moves :|
      ValidMoves(c, Start(c, running, beaconOn, server), moves)
      && Play(c, Start(c, running, beaconOn, server), moves) == w;
    StartOk(c, running, beaconOn, server);
    PlayKeepsWorld(c, Start(c, running, beaconOn, server), moves);
  }

  lemma ReportWorlds(c: Config, w: World, g: Schedule)
    requires ReachableWorld(c, w) && ValidSchedule(c, w, g)
    ensures var w1, w2, w3 := AtProcessed(c, w, g), AtNewQname(c, w, g), AtIgnored(c, w, g);
            && CellsOk(w) && MarksOk(w) && CellsOk(w1) && MarksOk(w1) && CellsOk(w2) && CellsOk(w3)
            && Later(w, w1) && Later(w1, w2) && Later(w2, w3)
  {
    ReachableWorldOk(c, w);
    PlayKeepsWorld(c, w, g.processed);
    PlayKeepsWorld(c, AtProcessed(c, w, g), g.newQname);
    PlayKeepsWorld(c, AtNewQname(c, w, g), g.ignored);
  }

  /** Between two scrapes the cells hold the last one's observed values, all six of them. */
  lemma CellsAtRest(c: Config, w: World)
    requires ReachableWorld(c, w) && w.stores == 6
    ensures w.cells == Observed(w.scrapes)
  {
    ReachableWorldOk(c, w);
    assert w.scrapes[..|w.scrapes|] == w.scrapes;
    assert forall k: nat | k < CELLS :: CellOk(w, k);
    assert CellOk(w, 0) && CellOk(w, 1) && CellOk(w, 2) && CellOk(w, 3) && CellOk(w, 4) && CellOk(w, 5);
  }

  // --------------------------------------------------------- what a report says

  /** The drift of a report made in no time when scrape `k` was read. */
  function DriftAt(w: World, k: nat): int
    requires k < |w.scrapes| == |w.marks|
  {
    w.marks[k].total - (w.scrapes[k].processed - w.scrapes[BaseIndex(w.scrapes, k)].processed)
  }

  lemma ShownProcessed(w: World)
    requires CellsOk(w)
    ensures var n := Seen(w, 0);
            w.cells.processed ==
            if n == 0 then 0 else w.scrapes[n - 1].processed - w.scrapes[BaseIndex(w.scrapes, n - 1)].processed
  {
    var n := Seen(w, 0);
    assert CellOk(w, 0);
    if n > 0 { ObservedAt(w.scrapes, n - 1); }
  }

  /** What `drift` says when `Sent.Total` was loaded in `w` and the processed cell in `w1`. */
  ghost predicate DriftTells(w: World, w1: World, drift: int) {
    var n := Seen(w1, 0);
    && |w1.scrapes| == |w1.marks|
    && (n == 0 ==> drift == w.pipe.total)
    && (n > 0 ==> drift - DriftAt(w1, n - 1) == w.pipe.total - w1.marks[n - 1].total)
    && (0 < n <= |w.scrapes| ==> drift >= DriftAt(w1, n - 1))
    && (n > |w.scrapes| ==> drift <= DriftAt(w1, n - 1))
  }

  lemma LoadsTellDrift(w: World, w1: World)
    requires MarksOk(w) && CellsOk(w1) && MarksOk(w1) && Later(w, w1)
    ensures DriftTells(w, w1, w.pipe.total - w1.cells.processed)
  {
    ShownProcessed(w1);
    var n := Seen(w1, 0);
    if 0 < n <= |w.scrapes| {
      assert w1.marks[n - 1] == w1.marks[..|w.marks|][n - 1];
    }
  }

  /**
    The reported drift is the drift at the scrape it rests on, moved by what was counted between that
    scrape and the load of `Sent.Total`: up by frames counted since, if the scrape came first, and down
    by frames counted before it, if the scrape slipped in between the two loads.
   */
  lemma ReportedDrift(c: Config, w: World, g: Schedule)
    requires ReachableWorld(c, w) && ValidSchedule(c, w, g)
    ensures var r := Reconcile(c, w, g); r.sentTotal == w.pipe.total && r.drift + r.edmProcessed == r.sentTotal
    ensures DriftTells(w, AtProcessed(c, w, g), Reconcile(c, w, g).drift)
  {
    ReportWorlds(c, w, g);
    LoadsTellDrift(w, AtProcessed(c, w, g));
  }

  /** The three observed values of a report belong to scrapes `p`, `q` and `i` (counted from 1). */
  ghost predicate ObservedFrom(r: Report, scrapes: seq<Snapshot>, p: nat, q: nat, i: nat) {
    && p <= |scrapes| && q <= |scrapes| && i <= |scrapes|
    && r.edmProcessed == Observed(scrapes[..p]).processed
    && r.edmNewQname == Observed(scrapes[..q]).newQname
    && r.edmIgnoredTotal == Observed(scrapes[..i]).ignoredTotal
  }

  lemma SeenGrows(w: World, w': World, k: nat)
    requires CellsOk(w) && Later(w, w')
    ensures Seen(w, k) <= Seen(w', k) && w'.scrapes[..Seen(w, k)] == w.scrapes[..Seen(w, k)]
  {
    assert w'.scrapes[..Seen(w, k)] == w'.scrapes[..|w.scrapes|][..Seen(w, k)];
    if |w.scrapes| == |w'.scrapes| {
      assert w'.scrapes == w'.scrapes[..|w.scrapes|];
    }
  }

  lemma ProcessedFrom(w1: World, w3: World)
    requires CellsOk(w1) && Later(w1, w3)
    ensures Seen(w1, 0) <= |w3.scrapes| && w1.cells.processed == Observed(w3.scrapes[..Seen(w1, 0)]).processed
    ensures Seen(w1, 0) <= Seen(w3, 2) + 1
  {
    assert CellOk(w1, 0);
    SeenGrows(w1, w3, 0);
    SeenGrows(w1, w3, 2);
  }

  lemma NewQnameFrom(w1: World, w2: World, w3: World)
    requires CellsOk(w1) && CellsOk(w2) && Later(w1, w2) && Later(w2, w3)
    ensures Seen(w2, 1) <= |w3.scrapes| && w2.cells.newQname == Observed(w3.scrapes[..Seen(w2, 1)]).newQname
    ensures Seen(w1, 0) <= Seen(w2, 1) + 1 && Seen(w2, 1) <= Seen(w3, 2) + 1
  {
    assert CellOk(w2, 1);
    SeenGrows(w1, w2, 1);
    SeenGrows(w2, w3, 1);
    SeenGrows(w2, w3, 2);
  }

  /** The observed values of one report can belong to different scrapes; a later load is at most one behind. */
  lemma ObservedValuesMayBeTorn(c: Config, w: World, g: Schedule)
    requires ReachableWorld(c, w) && ValidSchedule(c, w, g)
    ensures var p, q, i := Seen(AtProcessed(c, w, g), 0), Seen(AtNewQname(c, w, g), 1), Seen(AtIgnored(c, w, g), 2);
            && ObservedFrom(Reconcile(c, w, g), AtIgnored(c, w, g).scrapes, p, q, i)
            && p <= q + 1 && p <= i + 1 && q <= i + 1
  {
    ReportWorlds(c, w, g);
    var w1, w2, w3 := AtProcessed(c, w, g), AtNewQname(c, w, g), AtIgnored(c, w, g);
    LaterIsTransitive(w1, w2, w3);
    ProcessedFrom(w1, w3);
    NewQnameFrom(w1, w2, w3);
    assert CellOk(w3, 2);
  }

  /**
    Whatever runs between its loads, a report never shows more frames in total than over its patterns;
    once the sender is done the two agree.
   */
  lemma ReportTotalNeverExceedsPatterns(c: Config, w: World, g: Schedule)
    requires ReachableWorld(c, w) && ValidSchedule(c, w, g)
    ensures var r := Reconcile(c, w, g);
            && r.sentTotal <= SumOf(r.perPattern)
            && SumOf(r.perPattern) <= After(c, AtIgnored(c, w, g).pipe, g.patterns).total + 1
            && (w.pipe.sender.SDone? ==> r.sentTotal == SumOf(r.perPattern))
  {
    var w3 := AtIgnored(c, w, g);
    ReportPipes(c, w, g);
    LaterPatternLoads(c, w.pipe, w3.pipe, g.patterns);
  }

  lemma ReportPipes(c: Config, w: World, g: Schedule)
    requires ReachableWorld(c, w) && ValidSchedule(c, w, g)
    ensures Inv(c, w.pipe) && Inv(c, AtIgnored(c, w, g).pipe) && NoCounterDrops(w.pipe, AtIgnored(c, w, g).pipe)
  {
    ReachableWorldOk(c, w);
    PlayKeepsWorld(c, w, g.processed);
    PlayKeepsWorld(c, AtProcessed(c, w, g), g.newQname);
    PlayKeepsWorld(c, AtNewQname(c, w, g), g.ignored);
  }

  /** The report's nine values, each at its own pattern, lie between two readings of the counters. */
  predicate PatternsBetween(lo: Counters, r: Report, hi: Counters) {
    && |r.perPattern| == 9
    && lo.background <= r.perPattern[0] <= hi.background
    && lo.wellKnown <= r.perPattern[1] <= hi.wellKnown
    && lo.dga <= r.perPattern[2] <= hi.dga
    && lo.beacon <= r.perPattern[3] <= hi.beacon
    && lo.fastFlux <= r.perPattern[4] <= hi.fastFlux
    && lo.dynDns <= r.perPattern[5] <= hi.dynDns
    && lo.exfil <= r.perPattern[6] <= hi.exfil
    && lo.exotic <= r.perPattern[7] <= hi.exotic
    && lo.evasion <= r.perPattern[8] <= hi.evasion
  }

  /** The report's nine values are the accepted frames, each of its own pattern. */
  predicate PatternsAreAccepted(r: Report, attempts: seq<Attempt>) {
    && |r.perPattern| == 9
    && r.perPattern[0] == Accepted(attempts, Background)
    && r.perPattern[1] == Accepted(attempts, WellKnown)
    && r.perPattern[2] == Accepted(attempts, Dga)
    && r.perPattern[3] == Accepted(attempts, Name.Beacon)
    && r.perPattern[4] == Accepted(attempts, FastFlux)
    && r.perPattern[5] == Accepted(attempts, DynDns)
    && r.perPattern[6] == Accepted(attempts, Exfil)
    && r.perPattern[7] == Accepted(attempts, Exotic)
    && r.perPattern[8] == Accepted(attempts, Evasion)
  }

  /** Load `k` against the counters of an earlier state `s` and the state after the last load. */
  lemma PatternLoadIsBetween(c: Config, s: State, s3: State, gaps: seq<seq<Action>>, k: nat)
    requires InPhase(c, s3) && NoCounterDrops(s, s3)
    requires |gaps| == |PATTERN_LOADS| && ValidGaps(c, s3, gaps) && k < 9
    ensures s.sent.Of(PATTERN_LOADS[k]) <= Loads(c, s3, PATTERN_LOADS, gaps)[k]
    ensures Loads(c, s3, PATTERN_LOADS, gaps)[k] <= After(c, s3, gaps).sent.Of(PATTERN_LOADS[k])
    ensures s.sender.SDone? ==> After(c, s3, gaps).sent == s.sent
  {
    EachLoadIsBetween(c, s3, PATTERN_LOADS, gaps, k);
  }

  lemma NamedLoads(lo: Counters, r: Report, hi: Counters)
    requires |r.perPattern| == 9
    requires forall k | 0 <= k < 9 :: lo.Of(PATTERN_LOADS[k]) <= r.perPattern[k] <= hi.Of(PATTERN_LOADS[k])
    ensures PatternsBetween(lo, r, hi)
  {
    assert lo.Of(PATTERN_LOADS[0]) <= r.perPattern[0] <= hi.Of(PATTERN_LOADS[0]);
    assert lo.Of(PATTERN_LOADS[1]) <= r.perPattern[1] <= hi.Of(PATTERN_LOADS[1]);
    assert lo.Of(PATTERN_LOADS[2]) <= r.perPattern[2] <= hi.Of(PATTERN_LOADS[2]);
    assert lo.Of(PATTERN_LOADS[3]) <= r.perPattern[3] <= hi.Of(PATTERN_LOADS[3]);
    assert lo.Of(PATTERN_LOADS[4]) <= r.perPattern[4] <= hi.Of(PATTERN_LOADS[4]);
    assert lo.Of(PATTERN_LOADS[5]) <= r.perPattern[5] <= hi.Of(PATTERN_LOADS[5]);
    assert lo.Of(PATTERN_LOADS[6]) <= r.perPattern[6] <= hi.Of(PATTERN_LOADS[6]);
    assert lo.Of(PATTERN_LOADS[7]) <= r.perPattern[7] <= hi.Of(PATTERN_LOADS[7]);
    assert lo.Of(PATTERN_LOADS[8]) <= r.perPattern[8] <= hi.Of(PATTERN_LOADS[8]);
  }

  /**
    Whatever runs between the loads, each pattern's value lies between its own counter when the report
    begins and after the last load; once the sender is done it is the number of accepted frames of that
    pattern.
   */
  lemma ReportNamesEachPattern(c: Config, w: World, g: Schedule)
    requires ReachableWorld(c, w) && ValidSchedule(c, w, g)
    ensures PatternsBetween(w.pipe.sent, Reconcile(c, w, g), After(c, AtIgnored(c, w, g).pipe, g.patterns).sent)
    ensures w.pipe.sender.SDone? ==> PatternsAreAccepted(Reconcile(c, w, g), w.pipe.attempts)
  {
    ReportPipes(c, w, g);
    var s, s3 := w.pipe, AtIgnored(c, w, g).pipe;
    forall k | 0 <= k < 9
      ensures s.sent.Of(PATTERN_LOADS[k]) <= Reconcile(c, w, g).perPattern[k]
      ensures Reconcile(c, w, g).perPattern[k] <= After(c, s3, g.patterns).sent.Of(PATTERN_LOADS[k])
    {
      PatternLoadIsBetween(c, s, s3, g.patterns, k);
    }
    NamedLoads(s.sent, Reconcile(c, w, g), After(c, s3, g.patterns).sent);
    if s.sender.SDone? {
      PatternLoadIsBetween(c, s, s3, g.patterns, 0);
      DoneCountsAccepted(c, s, Reconcile(c, w, g));
    }
  }

  lemma DoneCountsAccepted(c: Config, s: State, r: Report)
    requires Inv(c, s) && s.sender.SDone? && PatternsBetween(s.sent, r, s.sent)
    ensures PatternsAreAccepted(r, s.attempts)
  {
    forall n: Name | !n.Other? ensures s.sent.Of(n) == Accepted(s.attempts, n) {}
  }

  // ------------------------------------------------------ drift as a backlog

  /** The server never restarts and processes only frames the sink has accepted. */
  predicate OnlyOurs(c: Config, w: World, moves: seq<Move>, server: nat)
    requires ValidMoves(c, w, moves)
    decreases |moves|
  {
    moves != [] ==>
      && !moves[0].Restart?
      && (moves[0].Serve? ==> w.server < server + AcceptedAll(w.pipe.attempts))
      && OnlyOurs(c, ApplyMove(c, w, moves[0]), moves[1..], server)
  }

  /** The server started at `server`; every reading lies between that and what the sink had accepted. */
  predicate Fed(w: World, server: nat) {
    && |w.scrapes| == |w.marks|
    && server <= w.server <= server + AcceptedAll(w.pipe.attempts)
    && (forall k | 0 <= k < |w.scrapes| ::
          && server <= w.scrapes[k].processed <= server + w.marks[k].accepted
          && w.marks[k].accepted <= AcceptedAll(w.pipe.attempts))
  }

  lemma SenderAccepts(s: State, m: SenderMove)
    requires SenderEnabled(s, m)
    ensures AcceptedAll(s.attempts) <= AcceptedAll(ApplySender(s, m).attempts)
  {
    match m
    case Receive =>
    case Sink(ok) => assert ApplySink(s, ok).attempts[..|s.attempts|] == s.attempts;
    case BumpPattern =>
    case BumpTotal =>
    case Recycle =>
  }

  lemma StepAccepts(c: Config, s: State, a: Action)
    requires Enabled(c, s, a)
    ensures AcceptedAll(s.attempts) <= AcceptedAll(Apply(c, s, a).attempts)
  {
    match a
    case Env(m) => EnvEffect(s, m);
    case Builder(_, _) =>
    case Beacon(_) =>
    case Frame(i, m) => if !m.Send? { FrameEffect(c, s, i, m); }
    case Deliver(m) => SenderAccepts(s, m);
    case Main(m) => MainEffect(c, s, m);
  }

  lemma {:induction false} PlayKeepsFed(c: Config, w: World, moves: seq<Move>, server: nat)
    requires Fed(w, server) && ValidMoves(c, w, moves) && OnlyOurs(c, w, moves, server)
    ensures Fed(Play(c, w, moves), server)
    decreases |moves|
  {
    if moves != [] {
      if moves[0].Pipe? { StepAccepts(c, w.pipe, moves[0].step); }
      PlayKeepsFed(c, ApplyMove(c, w, moves[0]), moves[1..], server);
    }
  }

  /** Frames the sink had accepted and the server had not processed when scrape `k` was read. */
  function Backlog(w: World, server: nat, k: nat): int
    requires k < |w.scrapes| == |w.marks|
  {
    w.marks[k].accepted - (w.scrapes[k].processed - server)
  }

  /** Frames of ours the server had processed when the baseline of scrape `k` was read. */
  function Early(w: World, server: nat, k: nat): int
    requires k < |w.scrapes|
  {
    w.scrapes[BaseIndex(w.scrapes, k)].processed - server
  }

  /** What `drift` says when `Sent.Total` was loaded in `w` and in `w1` a processed cell from scrape `k`. */
  predicate DriftIsBacklog(w: World, w1: World, server: nat, k: nat, drift: int)
    requires k < |w1.scrapes| == |w1.marks|
  {
    && drift == Backlog(w1, server, k) + Early(w1, server, k) + (w.pipe.total - w1.marks[k].accepted)
    && 0 <= Backlog(w1, server, k)
    && 0 <= Early(w1, server, k) <= w1.marks[BaseIndex(w1.scrapes, k)].accepted
    && (k < |w.scrapes| ==> drift >= -1)
    && (w.pipe.sender.SDone? ==> drift >= 0)
    && (w.pipe.sender.SDone? && w1.marks[k].accepted == AcceptedAll(w.pipe.attempts) ==>
          drift == Backlog(w1, server, k) + Early(w1, server, k))
  }

  ghost predicate BacklogTells(w: World, w1: World, server: nat, drift: int) {
    && |w1.scrapes| == |w1.marks|
    && (Seen(w1, 0) > 0 ==> DriftIsBacklog(w, w1, server, Seen(w1, 0) - 1, drift))
  }

  /** What holds of the worlds of the first two loads. */
  ghost predicate FedLoads(w: World, w1: World, server: nat) {
    && MarksOk(w) && CellsOk(w1) && MarksOk(w1) && Later(w, w1) && Fed(w1, server)
    && (w.pipe.sender.SDone? ==> w.pipe.total == AcceptedAll(w.pipe.attempts) == AcceptedAll(w1.pipe.attempts))
  }

  lemma LoadsTellBacklog(w: World, w1: World, server: nat)
    requires FedLoads(w, w1, server)
    ensures BacklogTells(w, w1, server, w.pipe.total - w1.cells.processed)
  {
    LoadsTellDrift(w, w1);
    if Seen(w1, 0) > 0 {
      var k := Seen(w1, 0) - 1;
      var b := BaseIndex(w1.scrapes, k);
      assert server <= w1.scrapes[b].processed <= server + w1.marks[b].accepted;
      assert server <= w1.scrapes[k].processed <= server + w1.marks[k].accepted;
      if k < |w.scrapes| {
        assert w1.marks[k] == w1.marks[..|w.marks|][k];
        assert MarkFits(w.marks[k]);
      }
    }
  }

  /** The worlds a start with an undisturbed server at `server` leads to. */
  ghost predicate FedWorld(c: Config, w: World, server: nat) {
    exists running, beaconOn, moves ::
      && ValidMoves(c, Start(c, running, beaconOn, server), moves)
      && OnlyOurs(c, Start(c, running, beaconOn, server), moves, server)
      && Play(c, Start(c, running, beaconOn, server), moves) == w
  }

  lemma FedWorldIsFed(c: Config, w: World, server: nat)
    requires FedWorld(c, w, server)
    ensures ReachableWorld(c, w) && Fed(w, server)
  {
    var running, beaconOn, moves :|
      && ValidMoves(c, Start(c, running, beaconOn, server), moves)
      && OnlyOurs(c, Start(c, running, beaconOn, server), moves, server)
      && Play(c, Start(c, running, beaconOn, server), moves) == w;
    PlayKeepsFed(c, Start(c, running, beaconOn, server), moves, server);
  }

  /** Once the sender is done the sink accepts nothing more. */
  lemma DoneAcceptsNoMore(c: Config, s: State, s': State)
    requires Inv(c, s) && Inv(c, s') && NoCounterDrops(s, s') && s.sender.SDone?
    ensures s.total == AcceptedAll(s.attempts) == AcceptedAll(s'.attempts)
  {
    AcceptedFits(c, s);
    AcceptedFits(c, s');
  }

  lemma TotalIsAccepted(c: Config, w: World, g: Schedule)
    requires ReachableWorld(c, w) && ValidSchedule(c, w, g) && w.pipe.sender.SDone?
    ensures w.pipe.total == AcceptedAll(w.pipe.attempts) == AcceptedAll(AtProcessed(c, w, g).pipe.attempts)
  {
    ReachableWorldOk(c, w);
    PlayKeepsWorld(c, w, g.processed);
    DoneAcceptsNoMore(c, w.pipe, AtProcessed(c, w, g).pipe);
  }

  lemma LoadsAreFed(c: Config, w: World, server: nat, g: Schedule)
    requires FedWorld(c, w, server) && ValidSchedule(c, w, g) && OnlyOurs(c, w, g.processed, server)
    ensures FedLoads(w, AtProcessed(c, w, g), server)
  {
    FedWorldIsFed(c, w, server);
    ReportWorlds(c, w, g);
    PlayKeepsFed(c, w, g.processed, server);
    if w.pipe.sender.SDone? { TotalIsAccepted(c, w, g); }
  }

  /**
    For a server that processes only our frames and does not restart: drift is what the server had not
    processed at the scrape the report rests on, plus what it had processed before the baseline was
    read, plus what the sender counted between scrape and report.  It is at least -1 when the scrape was
    read before the report began, and never negative once the sender is done.
   */
  lemma ReportedDriftIsBacklog(c: Config, w: World, server: nat, g: Schedule)
    requires FedWorld(c, w, server) && ValidSchedule(c, w, g) && OnlyOurs(c, w, g.processed, server)
    ensures BacklogTells(w, AtProcessed(c, w, g), server, Reconcile(c, w, g).drift)
  {
    LoadsAreFed(c, w, server, g);
    LoadsTellBacklog(w, AtProcessed(c, w, g), server);
  }

  /** Drift is honest: what was not processed at the scrape, and what the sender counted since. */
  predicate Honest(w: World, w1: World, server: nat, k: nat, drift: int)
    requires k < |w1.scrapes| == |w1.marks|
  {
    drift == Backlog(w1, server, k) + (w.pipe.total - w1.marks[k].accepted)
  }

  ghost predicate HonestWithEarlyBaseline(w: World, w1: World, server: nat, drift: int) {
    && |w1.scrapes| == |w1.marks|
    && (Seen(w1, 0) > 0 ==>
          var k := Seen(w1, 0) - 1;
          Honest(w, w1, server, k, drift) <==> w1.scrapes[BaseIndex(w1.scrapes, k)].processed == server)
  }

  lemma BacklogTellsHonesty(w: World, w1: World, server: nat, drift: int)
    requires BacklogTells(w, w1, server, drift)
    ensures HonestWithEarlyBaseline(w, w1, server, drift)
  {}

  /** Drift is honest exactly when the baseline was read before the server had processed a frame of ours. */
  lemma HonestIffBaselineIsEarly(c: Config, w: World, server: nat, g: Schedule)
    requires FedWorld(c, w, server) && ValidSchedule(c, w, g) && OnlyOurs(c, w, g.processed, server)
    ensures HonestWithEarlyBaseline(w, AtProcessed(c, w, g), server, Reconcile(c, w, g).drift)
  {
    ReportedDriftIsBacklog(c, w, server, g);
    BacklogTellsHonesty(w, AtProcessed(c, w, g), server, Reconcile(c, w, g).drift);
  }
}
