# Verified model of edm-loadgen

edm-loadgen builds synthetic dnstap frames on many goroutines and sends them to an EDM server. This
project models its parts with the most state and proves what they promise on all inputs and all runs.

`dafny verify dfyconfig.toml` checks everything.

## How the model is laid out

**The producer pipeline** (`Pipeline*.dfy`) is a transition system. `Pipeline.State` holds the program
counters of `Run`, of every builder, of the beacon and of the sender, the channel, the contexts, the
counters, and memory: `heap` is the list of backing arrays, a slice is an array number and a length, and
the pool is a bag of slices. `feeders` lists the builders and then the beacon, because from the moment
they take a buffer they run the same steps. An `Action` names the goroutine that moves and every open
choice (scheduling, `select`, generator, packer and sink results, what `append` does with the array).
`Enabled` and `Apply` follow the code statement by statement:

| steps | code |
|---|---|
| `BuilderNext` | `internal/producer/producer.go` 178-200, 216-221 |
| `BeaconNext` | the same file, 226-243 |
| `ApplyGet`, `ApplyBuild`, `ApplyPutBack`, `ApplySend` | 80-89, 201-212, 244-255, 298-314 |
| `ApplyReceive`, `ApplySink`, `ApplyBumpPattern`, `ApplyRecycle` | 159-166, 316-338 |
| `ApplyMain` | 122-174 |

`enqueued` and `attempts` are history: what was put on the channel (with the bytes the builder produced)
and what the sink was given (with the bytes then in memory). A send on a closed channel sets `crash`.
`Reachable` means: the last state of some run from the start of `Run`.
`PipelineReport` puts the metrics scraper and the server's counter beside the pipeline, and takes a report
while all of them move.

**The other parts** keep the code's own form: `Exfil.Generator`, `Evasion.Worker`, `Verify.Scraper` and
`Envelope.ClientResponseBuilder` are classes whose methods update fields and scratch arrays in place;
`Mixer.Pick`, `Pools.MakeClientPool`, `Pools.BuildQtypeBag`, `Pools.ExpandIPv4Prefix` and
`Shell.FormatCommand` are loops; `TailLog` and quoting are functions on strings. Each method is proved
against a specification function, and the lemmas say what that function means.

**Taken as given.** Knobs read under a lock are parameters. Random numbers are arbitrary streams in the
range of the call. gzip, DNS packing and protobuf marshalling yield arbitrary bytes. Atomic loads and stores are
sequentially consistent.

## Where the code and its comments differ

- `internal/producer/producer.go:154-155` says the queue is closed when the builders and the beacon are
  done. Only the builders are waited for. `PipelineBeacon.BeaconPanicIsReachable` gives a run in which
  the beacon then panics. A caller can avoid it by a knob: `PipelineKnobs.PanicPossibleIffKnobsOn` shows
  that, with no knob turned on later, the panic is possible exactly when Running and the beacon weight are
  both on at the start.
- `internal/producer/producer.go:169` says that builders have exited because the bucket was closed or the
  context is done. The bucket is closed only when `Run` ends, so it is always the context:
  `PipelineProgress.NobodyLeavesEarly`.
- `internal/verify/metrics.go:39-40` says a restart is detected as any counter going backwards. The
  comparison is with the baseline, not with the last scrape. `Verify.UnseenRestart` is an unseen restart.
  `Verify.CountsCurrentLifetimeIffRestartsShow` gives the exact condition under which the observed values
  still count from the current server lifetime.
- `internal/verify/metrics.go:35-37` says that drift starts honest. `PipelineReportRuns.DishonestDrift` is a
  run in which one frame is sent and processed before the first scrape, and stays in the drift. By
  `PipelineReport.HonestIffBaselineIsEarly` drift is honest if and only if the baseline was read before the
  server had processed a frame of ours.
- `internal/mix/mix.go:41` says that all weights zero gives nil. So does a positive sum that is a multiple
  of 2^32, and a sum whose int32 is negative panics in `IntN`: `Mixer.WideWeights`, `Mixer.WideWeightsExist`.
  A sum that wraps to a positive number starves slots: `Mixer.FairIffSumFits`, `Mixer.StarvedSlotsExist`.
- `internal/pattern/background.go:132` says `n` client addresses. A repeat after more than 200 addresses
  stops the sampling, so `n` are certain exactly for `n` up to 201 and possible exactly up to 255:
  `Pools.PoolFillsUpTo201`. `Pools.RestartStopsAt201` is a stream that stops at 201; the call with 256 never
  gets its 256.

## Model

| member | source | states |
|---|---|---|
| PipelineMemory.StepKeepsMemory | internal/producer/producer.go:80-89 | Every step of every goroutine keeps exclusive ownership of the backing arrays, the pool's shape, and the bytes of frames waiting to be sent. |
| PipelineRuns.BuffersHaveOneOwner | internal/producer/producer.go:159-166 | In every reachable state a backing array has at most one owner among feeders, queue places, sender and pool; pooled buffers are empty, distinct and at most 64 KiB. |
| PipelineOrphans.ReplacedArrayIsNeverShared | internal/producer/producer.go:201-206 | The array a frame outgrew in `buildAppend` has no owner, in no state of any later run. |
| PipelineBuffers.BuffersAreConserved | internal/producer/producer.go:84-89 | Along every run, arrays made equal arrays in use plus arrays let go (collected, outgrown or too large): nothing leaks and nothing is put back twice. |
| PipelineBuffers.ReturnedBuffersAreBack | internal/producer/producer.go:169-173 | When `Run` has returned, all its arrays are pooled or were let go, but for one the beacon may hold. |
| PipelineRuns.SinkSeesBuiltFramesInOrder | internal/producer/producer.go:156-166 | Everything enqueued is, in order, what the sink was given, then the sender's item, then the queue; the bytes the sink sees are those the builder produced; the queue stays within 8 per worker. |
| PipelineDelivery.WritesDoNotShow | internal/producer/producer.go:201-212 | A builder's write to its own buffer changes no queued frame and not the one being sent. |
| PipelineDelivery.BumpAddsOne | internal/producer/producer.go:316-336 | The name switch raises the counter of its name by one and leaves every other alone. |
| PipelineDelivery.StepKeepsNames | internal/mix/mix.go:98-107 | Builders carry only the eight slot names and the beacon its own, so every enqueued name is one the counter switch knows. |
| PipelineRuns.ReturnedMeansDelivered | internal/producer/producer.go:156-174 | On normal return the queue is empty, every enqueued frame was given to the sink, each pattern counter equals its accepted frames, and Total equals their number and the pattern sum. |
| PipelineRuns.ShutdownOrder | internal/producer/producer.go:147-173 | After the close all builders have exited, no builder is at its send, the sender ends only on a closed empty queue, and only the beacon can meet the closed queue. |
| PipelineProgress.BuilderDelivers | internal/producer/producer.go:178-214 | In every reachable state with Running on, no cancellation, room for one of 8 frames per worker and the bucket open, a builder at `wait` can take a tick, any of the eight slots (in the mixer's order), a pooled or new buffer and write any bytes, and its run queues exactly one frame, with that slot's name and those bytes. |
| PipelineProgress.BeaconDelivers | internal/producer/producer.go:228-255 | The same for the beacon at its weight check, with a positive weight and an open queue. |
| PipelineProgress.SenderFinishes | internal/producer/producer.go:159-166 | The sender can take the first queued frame to its end: one sink call with its bytes, one more in its own counter and in Total if accepted and none if refused, and its array back in the pool unless it is larger than 64 KiB. |
| PipelineProgress.EveryRunHasReasons | internal/producer/producer.go:180-213 | Along every run a builder gives a tick up only at a check of Running that finds it off, a pick without a slot, a failed generator or the put-back after a pack error, and leaves after a tick only once the context is cancelled. |
| PipelineProgress.SkipsAndLeavesHaveReasons | internal/producer/producer.go:180-213 | The skips are exactly those four steps, and the leaves exactly the cancelled context check, the generator that fails under cancellation and the put-back after an unsent frame. |
| PipelineProgress.PutBackHasReason | internal/producer/producer.go:201-212 | A put-back that goes on follows a pack error, and one that leaves follows the `Done` branch of the send. |
| PipelineProgress.BeaconTurnsHaveReasons | internal/producer/producer.go:228-243 | The beacon sleeps exactly when it finds its weight zero, starts over exactly after a sleep or with Running off, and leaves exactly from a cancelled sleep or generator wait. |
| PipelineProgress.NobodyLeavesEarly | internal/producer/producer.go:169-174 | In every reachable state a builder has left only after the cancellation or the end of a bounded `Run`, the beacon only after either cancellation, and the queue is closed only after the caller's cancellation. |
| PipelineExit.BuilderCanLeaveIff | internal/producer/producer.go:120-147 | In every reachable state a started builder can come to its exit by its own steps if and only if it has left, the context is cancelled, or a bounded `Run` failed at its start and the builder is not at a send to a full queue. |
| PipelineExit.BeaconCanLeaveIff | internal/producer/producer.go:226-256 | The beacon can come to its exit by its own steps without a panic if and only if it has left or the caller's or `Run`'s own cancellation is in. |
| PipelineBeacon.PanicPossibleIffBeaconMaySend | internal/producer/producer.go:132-134 | Once the queue is closed, some continuation panics if and only if the beacon has neither exited nor given up its frame. |
| PipelineBeacon.BeaconPanicIsReachable | internal/producer/producer.go:169-172 | A run from the start of `Run` ends with the beacon sending on the closed queue. |
| PipelineKnobs.PanicPossibleIffKnobsOn | internal/producer/producer.go:226-255 | For every worker count and mode: among the runs from the start of `Run` that turn neither Running nor the beacon weight on, one ends in the panic if and only if both were on at the start. |
| PipelineKnobs.StoppedBeaconNeverPanics | internal/producer/producer.go:241-243 | A beacon that has not passed its check of Running never panics while Running stays off. |
| PipelineBeacon.SilentBeaconNeverPanics | internal/producer/producer.go:229-236 | While the beacon weight is never positive no run panics. |
| PipelineLedger.TicksAreConserved | internal/producer/producer.go:180-213 | Along every run, ticks taken equal frames enqueued by builders, skips, exits and ticks still held. |
| PipelineLedger.EnqueuedAtMostTicks | internal/producer/producer.go:216-221 | From the start of `Run`, builders never enqueue more frames than they took ticks. |
| PipelineLedger.EnqueuesAreTallied | internal/producer/producer.go:207-209 | Along every run the channel gets exactly the frames counted as enqueued by builders and by the beacon. |
| PipelineLedger.StopHolds | internal/producer/producer.go:184-189 | After Running is switched off, and not on again, at most one frame per worker and one of the beacon reach the channel. |
| PipelineLedger.CancelHolds | internal/producer/producer.go:181-183 | After the cancellation the builders put at most one frame per worker on the channel. |
| PipelineLedger.NothingWithoutRunning | internal/producer/producer.go:184-189 | A `Run` that starts with Running off puts nothing on the channel before Running is switched on. |
| PipelineLedger.SilenceHolds | internal/producer/producer.go:229-236 | After the beacon weight is set to zero, and not raised again, the beacon enqueues at most the one frame it is at. |
| PipelineLedger.FramesAfterStop | internal/producer/producer.go:184-189 | While Running stays off, each builder and the beacon can enqueue at most the one frame already past the check. |
| PipelineLedger.FramesAfterCancel | internal/producer/producer.go:181-183 | After cancellation the builders together enqueue at most one frame per worker. |
| PipelineTermination.StepBurns | internal/producer/producer.go:169-173 | After cancellation every step of a builder, of `Run` and (after the close) of the sender uses up fuel, and no step of beacon, sender or environment adds any. |
| PipelineTermination.SomethingCanMove | internal/producer/producer.go:169-173 | No deadlock after cancellation: until `Run` is over one of those steps is enabled. |
| PipelineTermination.RunEndsAfterCancel | internal/producer/producer.go:120-174 | After cancellation any run takes a bounded number of such steps, and a run that can take no more has ended `Run` (or met the beacon's panic). |
| PipelineReconcile.ReconcileTotalNeverExceedsPatterns | internal/verify/reconcile.go:22-38 | For every interleaving of the ten loads of the sent counters with pipeline steps the reported total is at most the pattern sum, the pattern sum is at most one above the total counted by the last load, and both agree once the sender is done. |
| PipelineReport.ReportTotalNeverExceedsPatterns | internal/verify/reconcile.go:22-38 | The same for all thirteen loads, with steps of pipeline, server and scraper between them. |
| PipelineReport.ReportNamesEachPattern | internal/verify/reconcile.go:28-38 | For every interleaving each of the nine values lies between its own pattern's counter when the report begins and after the last load, and is the number of accepted frames of that pattern once the sender is done. |
| PipelineReport.ReportedDrift | internal/verify/reconcile.go:22-42 | The reported drift is the drift at the scrape it rests on, raised by the frames counted since when the scrape came before the report, and lowered by the frames counted before it when the scrape was stored between the loads of Total and EDMProcessed; without a scrape it is the total. |
| PipelineReport.ReportedDriftIsBacklog | internal/verify/metrics.go:35-37 | For a server that processes only our frames and does not restart: drift is the frames accepted but not processed at the scrape, plus those processed before the baseline was read, plus what the sender counted in between; at least -1 when the scrape precedes the report, never negative once the sender is done, and exactly the first two if also nothing was accepted after the scrape. |
| PipelineReport.HonestIffBaselineIsEarly | internal/verify/metrics.go:34-37 | For such a server, drift is the frames not processed at the scrape plus what the sender counted since if and only if the baseline was read before the server had processed a frame of ours. |
| PipelineReportRuns.DishonestDrift | internal/verify/metrics.go:161-170 | A run with one frame sent and processed before the first scrape: drift 1 with no frame outstanding. |
| PipelineReport.ObservedValuesMayBeTorn | internal/verify/metrics.go:170-172 | The three observed values of one report belong to scrapes of the stream, possibly different ones, a later-loaded value at most one scrape behind an earlier-loaded one. |
| PipelineReportRuns.TornReport | internal/verify/metrics.go:170-172 | A run whose report takes its processed count from the second scrape and its new names from the first, a pair no scrape showed. |
| PipelineReport.CellsAtRest | internal/verify/metrics.go:170-175 | When the six stores for a scrape are done, the six cells are that scrape's observed values. |
| PipelineReconcile.LoadsAreBetween | internal/verify/reconcile.go:28-38 | Loads spread over a run sum to no less than the counters' sum at the start and no more than at the end. |
| Encoding.B32PrefixDecodes | internal/pattern/exfil.go:148-164 | Decoding the first symbols of a base32 text gives back exactly the whole bytes those symbols cover. |
| Encoding.B32RoundTrip | internal/pattern/exfil.go:150-174 | Decoding an unpadded lower-case base32 text gives back the bytes. |
| Encoding.B32ByDigits | internal/pattern/exfil.go:148-174 | Symbol k is the 5-bit digit k of the input read as a big-endian number, zero-filled, in the lower-case alphabet a-z, 2-7. |
| Encoding.HexRoundTrip | internal/pattern/exfil.go:87-88 | Decoding a hex text gives back the bytes. |
| Encoding.HexByDigits | internal/pattern/exfil.go:87-88 | Each byte becomes its high and then its low digit in 0-9, a-f. |
| Exfil.Generator.MakePayload | internal/pattern/exfil.go:111-123 | The payload has the configured size after default and cap, and holds the draws in order. |
| Exfil.Generator.StrictB32 | internal/pattern/exfil.go:157-174 | Encoding into the reused buffer and lower-casing it in place yields the base32 text of the input, whatever the buffer held. |
| Exfil.Generator.IodineLabel | internal/pattern/exfil.go:133-146 | The text is base32 of the 4-byte big-endian sequence number followed by the gzip bytes. |
| Exfil.Generator.Next | internal/pattern/exfil.go:59-107 | One call performs one step of the session machine and emits that step's query. |
| Exfil.QueriesNameTheirDomain | internal/pattern/exfil.go:60-93 | In every run of any tools a query's name is one label of at most 63 characters, a dot, and the configured domain of its call. |
| Exfil.PayloadSizes | internal/pattern/exfil.go:111-117 | A size from 1 to 1048576 is used as it is, a smaller one becomes 1024 and a larger one 1048576. |
| Exfil.HeaderIsBigEndian | internal/pattern/exfil.go:142 | The header of the number with bytes a, b, c, d from the top is a, b, c, d. |
| Exfil.IodineLabelIsCut | internal/pattern/exfil.go:90-92 | An iodine label is the first 63 characters, or all, of header and gzip bytes in base32. |
| Exfil.StepKeepsGood | internal/pattern/exfil.go:66-79 | Chunks have 1 to 30 bytes, the sequence number is the number of chunks sent, stays at most 34953, and is 1 exactly on the first chunk of a session. |
| Exfil.PlainLabelsFit | internal/pattern/exfil.go:81-92 | Hex and base32 labels of a chunk have at most 60 characters, so the cut at 63 never applies. |
| Exfil.ReceiverRebuildsSessions | internal/pattern/exfil.go:59-93 | For every run of plain-tool calls, tools and domains changing at will, a receiver that has the names and acknowledgements and is told the tool of each query (no query carries it) holds every finished payload in full and the sent part of the current one. |
| Exfil.PlainQueryCarriesItsChunk | internal/pattern/exfil.go:66-93 | In a run of any tools, iodine among them, a plain query with acknowledgement n decodes to bytes 30(n-1) up to min(30n, size) of its session's payload. |
| Exfil.WholeSessionRoundTrip | internal/pattern/exfil.go:66-79 | As many calls as the payload has chunks deliver exactly the payload and exhaust the session. |
| Exfil.IodineLabelKeepsSeq | internal/pattern/exfil.go:133-146 | The first 7 characters of a cut iodine label determine its 32-bit sequence number, whatever gzip wrote. |
| Exfil.IodineQueriesDiffer | internal/pattern/exfil.go:73-93 | Two iodine queries of one session have different names, and their acknowledgements differ by their distance. |
| Evasion.ChoiceIsWeightedWalk | internal/pattern/evasion.go:38-68 | For every profile with a positive weight the switch selects what the mixer's weighted walk over the three weights selects, and exfil gets exactly its weight of the draws. |
| Evasion.ProfileWeights | internal/pattern/evasion.go:57-68 | The weights of light are 3, 1, 1, of heavy 1, 3, 2, of off none and of any other name 2, 2, 1. |
| Evasion.DrawsInOrder | internal/pattern/evasion.go:38-51 | The first draws select DGA, the next exfil and the last exotic; without weights it is DGA. |
| Evasion.Meta.Next | internal/pattern/evasion.go:33-52 | The generator the draw selects serves the call; the shared exfil generator advances exactly when it is the one, and then emits its own query. |
| Evasion.Worker.constructor | internal/mix/mix.go:94-96 | A worker's exfil slot and evasion slot hold the same fresh generator. |
| Evasion.Worker.Handle | internal/mix/mix.go:98-107 | A call through either slot performs the shared generator's step, or leaves it alone. |
| Evasion.CallsUseTheirKnobs | internal/pattern/evasion.go:33-51 | The exfil slot always calls the shared generator, the evasion slot exactly on exfil's draws, and both with the tool, domain, payload size and payload draws of their own call. |
| Evasion.SessionsSurviveBothSlots | internal/pattern/evasion.go:43-51 | The session round trip holds however calls are spread over the exfil slot, the evasion slot and others. |
| Shell.FormatCommand | cmd/edm-loadgen/edm.go:316-323 | The printed line is the quoted words joined by blanks, and splitting it gives back the name and the arguments. |
| Shell.EscapedText | cmd/edm-loadgen/edm.go:337 | Inside single quotes an escaped text is read back as the text. |
| Shell.QuotedWord | cmd/edm-loadgen/edm.go:325-338 | Every string, empty or with quotes, blanks, backslashes and newlines, is read back as exactly one word. |
| Shell.BareIffPlain | cmd/edm-loadgen/edm.go:325-336 | A word is printed without quotes if and only if it is not empty and has only letters, digits and the marks _ - . / : =. |
| Shell.JoinAppends | cmd/edm-loadgen/edm.go:322 | One blank goes between two parts. |
| Shell.SplitUndoesFormat | cmd/edm-loadgen/edm.go:316-338 | Splitting a printed word list gives back the list. |
| Shell.FormatIsInjective | cmd/edm-loadgen/edm.go:316-338 | Commands that print alike are equal. |
| Mixer.Pick | internal/mix/mix.go:42-65 | The two loops over weights that may differ between passes, with int32 wrap-around, return the specified outcome. |
| Mixer.WalkStopsHere | internal/mix/mix.go:54-63 | The walk stops at a slot exactly for the draws between the weight sums before and after it. |
| Mixer.WalkIndexesBag | internal/mix/mix.go:54-63 | The subtractive walk is indexing into the bag that repeats each slot by its weight. |
| Mixer.BagCount | internal/pattern/background.go:119-130 | The bag holds each slot max(0, weight) times and nothing else. |
| Mixer.SlotGetsItsWeight | internal/mix/mix.go:53-63 | Exactly max(0, weight) of the draws lead to a slot. |
| Mixer.SteadyPick | internal/mix/mix.go:42-65 | With steady weights that sum below 2^31 the pick is the drawn bag entry, nil only for a zero sum, and the walk stops at a slot for every draw, so the last line is never reached. |
| Mixer.RacingPick | internal/mix/mix.go:53-64 | Whenever there is a draw, with weights that change between the passes, the pick is a configured slot, the last line is reached exactly when the draw is not below the second sum, and otherwise the slot's weight was positive. |
| Mixer.WideWeights | internal/mix/mix.go:43-53 | For all weights: nil exactly when the sum is a multiple of 2^32, panic exactly when its int32 is negative. |
| Mixer.WideWeightsExist | internal/mix/mix.go:43-53 | Positive weights for which `Pick` panics, and positive weights for which it returns nil. |
| Mixer.PickShareSize | internal/mix/mix.go:53-63 | For all weights a slot gets the draws of its interval of weight sums that lie below the wrapped int32 sum. |
| Mixer.FairIffSumFits | internal/mix/mix.go:42-63 | Every slot gets max(0, weight) of the draws of `Pick` if and only if the positive weights sum below 2^31. |
| Mixer.StarvedSlotsExist | internal/mix/mix.go:42-63 | Three positive weights of which the first is always picked. |
| Verify.Scraper.Apply | internal/verify/metrics.go:161-176 | After every scrape the observed cells are current minus baseline with no clamp taking effect, for the baseline the whole stream of scrapes defines. |
| Verify.BaselineIsBelow | internal/verify/metrics.go:182-210 | No scrape since the baseline is below it in any counter. |
| Verify.ObservedTelescopes | internal/verify/metrics.go:170-175 | Observed values are nonnegative, and between two scrapes with one baseline they grow by exactly the counters' growth. |
| Verify.ObservedByCounter | internal/verify/metrics.go:182-199 | Each of the six observed values is its own counter minus the same counter of the baseline. |
| Verify.RelativeToIsClamped | internal/verify/metrics.go:182-199 | A difference is never negative, and is exact where the scrape is not below the base. |
| Verify.GrowingStreamKeepsFirstBaseline | internal/verify/metrics.go:34-37 | Counters that only grow keep the first scrape as baseline, and observed values only grow. |
| Verify.CountsCurrentLifetimeIffRestartsShow | internal/verify/metrics.go:39-40 | The observed values equal current minus the first scrape of the current server lifetime, after every scrape, if and only if every restart's first scrape is below the scrape that opened the lifetime before in some counter, or equal to it. |
| Verify.UnseenRestart | internal/verify/metrics.go:161-167 | A counter falls from 1500 to 1200 and the baseline of 1000 stays. |
| Pools.MakeClientPool | internal/pattern/background.go:134-149 | The pool is the first-occurrence list of the draws up to the draw that fills it or the first repeat after more than 200; addresses are distinct, all 198.51.100.1 to 198.51.100.255, `n` of them exactly when the stream fills the pool, and the loop ends on every recurrent stream. |
| Pools.PoolAddresses | internal/pattern/background.go:137-146 | Every address is 198.51.100.d with d from 1 to 255, one more than a draw used, and every draw used has its address in the pool. |
| Pools.FirstAddress | internal/pattern/background.go:137-146 | The first address comes from the first draw. |
| Pools.PoolFillsUpTo201 | internal/pattern/background.go:132-149 | Every recurrent stream fills a pool of n if and only if n is at most 201; some stream does if and only if n is at most 255. |
| Pools.RestartStopsAt201 | internal/pattern/background.go:139-144 | Draws that count to 200 and start over stop every larger pool at 201 addresses. |
| Pools.BuildQtypeBag | internal/pattern/background.go:119-130 | Every query type occurs as often as its weight says; without a positive weight the bag is the single type A. |
| Pools.ExpandIPv4Prefix | internal/pattern/fastflux.go:74-84 | The loop returns the first min(4096, 2^(32-b)) addresses of the block in order, all inside the prefix, also at the end of the address space; nothing for IPv6. |
| Pools.ExpandedInNumbers | internal/pattern/fastflux.go:78-82 | There are 2^(32-b) addresses from 20 bits on and 4096 below, and address i is the prefix address without its host bits, plus i. |
| Pools.BlockBounds | internal/pattern/fastflux.go:80 | A prefix contains exactly the addresses from its masked base up to its size, and these end within the address space. |
| Pools.ExpansionCoversIffSlash20 | internal/pattern/fastflux.go:72-84 | The pool is never empty, has no repeats, and is the whole prefix if and only if the prefix has at least 20 bits. |
| Envelope.ClientResponseBuilder.Prepare | internal/dnstap/build.go:137-190 | Whatever the scratch object was used for before, it holds the envelope `NewClientResponse` builds for the same clock value, and fails on exactly the same queries. |
| Envelope.AddressesInPlace | internal/dnstap/build.go:78-94 | The query address is the client's and the response address the resolver's, 4 bytes for an IPv4 or mapped client and 16 for any other IPv6 client, with family INET6 exactly then. |
| Envelope.PortsInPlace | internal/dnstap/build.go:69-76 | The query port is the source port or 12345 for zero, the response port the destination port or 53 for zero. |
| Envelope.TimeInPlace | internal/dnstap/build.go:65-68 | Seconds and nanoseconds are the query's own time if it has one and the clock's otherwise. |
| Envelope.KindInPlace | internal/dnstap/build.go:100-114 | Every envelope is a CLIENT_RESPONSE message over UDP with identity edm-loadgen and the query's payload. |
| Envelope.EnvelopeExists | internal/dnstap/build.go:78-94 | Building fails exactly for an IPv4-family client with an unset address or a resolver that is IPv6. |
| Envelope.EnvelopeKeepsAddresses | internal/dnstap/build.go:83-94 | Equal envelopes come from the same payload and from client and resolver addresses with the same 16-byte form, so an IPv4 address and its mapped IPv6 form are not told apart. |
| TailLog.JoinUndoesSplit | cmd/edm-loadgen/edm.go:535-539 | Joining the split lines gives back the text, with one line more than newlines. |
| TailLog.SplitUndoesJoin | cmd/edm-loadgen/edm.go:535-539 | Splitting joined lines gives back the lines. |
| TailLog.TailIsLastLines | cmd/edm-loadgen/edm.go:526-540 | For a log that is not blank the result is the whole-line suffix of the trimmed body with min(maxLines, all) lines, and the full body without a limit. |
| TailLog.BlankLogIsEmpty | cmd/edm-loadgen/edm.go:531-534 | A log of nothing but newlines is reported as (empty). |
| TailLog.UnreadableLogSaysWhy | cmd/edm-loadgen/edm.go:527-530 | A log that cannot be read is reported with its path and the error. |
| TailLog.TailOfBody | cmd/edm-loadgen/edm.go:535-539 | The last trim removes nothing. |

## Left out

- The web UI, flag handling, file bootstrap, EDM process control, PKI, the MQTT broker, the Frame Streams socket and the rate ticker: I/O. A tick and a sink result are open choices.
- DNS packing, protobuf marshalling, gzip and metrics parsing: arbitrary bytes or given numbers.
- The DNS message ID of `frameBuilder` (`b.id++` on a uint16) and the query a frame was built from: a frame is its name and its bytes.
- `publishRate`, tick timing, sleeps and the quality of random numbers.
- DGA, exotic, dyndns and well-known query construction, Zipf sampling and `state` configuration overlays: per-branch facts.
- PipelineTermination.RunEndsAfterCancel: assumes that a goroutine whose step is enabled is scheduled in the end, and that `Wait`, `SendBytes` and generators return, as the code does.
- PipelineRuns.ReturnedMeansDelivered: speaks of the normal return only; after a mixer error (`Failed`) nothing is drained.
- Mixer.Pick: the weight cells are given as the values each pass read, since another goroutine writes them between the reads.
- Exfil.Generator.Next: gzip is an arbitrary function of the chunk and the payload draws are given; the receiver is told the tool. Iodine payload bytes are not recovered, because the label is cut.
- Shell.FormatCommand: the reader answers what the words are; whether a shell would take a first word such as `a=b` or `if` as an assignment or a reserved word is not modelled.
- Verify.Scraper.Apply: counters are unbounded integers; the scrape time and the mutex are not modelled.
- PipelineReport.ReportedDrift: a scrape reads the server's processed counter at one instant and its other counters are arbitrary; there is one scraper, and a failed scrape is no step.
- Counter wrap-around of the int64 cells.
