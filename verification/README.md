# The Meshtastic to CalTopo bridge, verified in Dafny

A model of the bridge's data path, from the bytes of the serial port to the live tracks on the remote map, with
proofs about every run of it:

- **Serial framing.** Frames `0x94 0xC3 hi lo payload` are found in an unbounded byte stream that arrives in
  arbitrary chunks. `Framing.Scan` is the reference, one byte at a time over the whole stream; the buffer-mutating
  `Framer.Push` is proved to compute it.
- **Intake.** Each message is handled until it succeeds: the node directory is updated, a packet is decoded, its
  callsign looked up, and everything is archived in one transaction.
- **The store.** Tables are sequences and maps, each transaction a function on them (`Database`), and the class
  `Store` runs these functions with a fault at any step.
- **The delivery outbox.** A state machine (`Outbox`) in which positions arrive, nodes are renamed, snapshots are
  taken and deliveries are attempted, in any order, while Publish and every store write may fail. The worker, its
  filter with the three-sample window and the memo of prepared deliveries are classes proved against the machine.
- **Track reconciliation.** A machine that makes one remote or store call per step; each call may fail before or
  after it takes effect, and anyone may delete tracks in between. `Adapter.Publish` is proved to be a run of it.

| file | content |
|---|---|
| Wrappers, Text, Timestamp | options and results, text order, RFC 3339 timestamps |
| Framing, FramingTheorems | the framer, its reference, and what the protocol guarantees |
| Model, Query, Database, Deliveries | records, identifiers, ordered queries, tables and transactions |
| PositionFilter, Outbox | the filter as a fold over samples, and the outbox machine |
| OutboxSafety, FilterHistory, OutboxOrder, OutboxTheorems, LateArrivals, FilterDecisions, BackoffRuns, PublishHistory | invariants and theorems about runs |
| DrainLoop, Worker | one call of `drain`, the loop around it, and the mutable worker |
| Store, StoreRuns, LatestPositions | the mutable store, and what any sequence of transactions keeps |
| Tracks, Adapter | the reconciliation machine, and the mutable adapter |
| Decoder, DecoderTheorems, Ingest, IntakeSteps, Serial | decoding, handling, and the read loop |

`dafny verify dfyconfig.toml` checks the whole project.

## What the proofs show about the code

- The memo of prepared deliveries does its job in every run: whatever order positions arrive in and whatever fails,
  no delivery is fed to the filter twice (`FilterHistory.NoSampleTwice`).
- The documentation promises that deliveries preserve per-node order. That holds, and each node has at most one
  prepared delivery, as long as every new delivery arrives in order: no delivery of its node that the worker holds in
  its snapshot, or ever fed to its filter, has a later source-time text. `OutboxOrder.ArrivalKeepsOrder` shows for each
  arrival that this guard is exactly what keeps the invariant of ordered runs. Positions may still be archived in any
  order while the worker has not seen the later ones. When the guard fails the promise can be broken:
  `LateArrivals.LateArrivalExact` is a run in which the attempts of a node step back and two of its deliveries are
  prepared at once, and `OutboxTheorems.LateSampleStaysLate` shows that a late sample stays out of order for good.
- A filter that starts with an empty window publishes a node's first report, and then no report of its first two on
  movement alone: distance counts from the third report on (`FilterDecisions.CompletedLaw`).
- Times are compared as text, and the text of an instant drops trailing fractional zeros.
  `Timestamp.TextOrderIsTimeOrder` says exactly when text order is not time order.
- The five-minute cap on the retry delay is never reached; the longest delay is 256 seconds (`Outbox.BackoffBounds`).
- The heartbeat is documented as the longest interval between updates of a node that does not move. What holds is
  that each suppressed report follows a publish whose source time is later than the report's own minus the heartbeat
  (`FilterHistory.HeartbeatCoverage`), possibly later than the report itself. How long a node goes without a report
  is not the bridge's to bound.
- The test for a zero packet time in `newPosition` never changes the outcome: no radio time is the zero time, and
  `Decoder.DecodeWithOptions` is proved against a specification without the test.
- A delivery never becomes failed: the worker always records failures as not terminal (`OutboxTheorems.RunFailsNone`).

## Model

| member | source | states |
|---|---|---|
| Framing.EncodeFrame | internal/meshtastic/framer.go:54-63 | exactly payloads of 1 to 512 bytes succeed, as 0x94 0xC3, two bytes that make up the length with the high one first, and the payload |
| Framing.FindStart | internal/meshtastic/framer.go:65-72 | the result is the first position of the pair 0x94 0xC3, or -1 when there is none |
| Framing.Framer.Push | internal/meshtastic/framer.go:18-52 | frames, errors and remaining buffer are those of the one-byte-at-a-time scan of the old buffer followed by the chunk; the loop ends on every input |
| FramingTheorems.ScanAppend | internal/meshtastic/framer.go:18-52 | scanning a stream in two parts, the second behind the first one's remainder, is scanning it whole |
| FramingTheorems.ChunkingInvariance | internal/meshtastic/framer.go:18-52 | any split into chunks gives the same frames, the same errors and the same final buffer as one Push of everything |
| FramingTheorems.RestIsResidual | internal/meshtastic/framer.go:23-46 | the buffer left behind is empty, a lone 0x94 or an incomplete frame, at most 515 bytes, and is a fixed point of scanning |
| FramingTheorems.ByteConservation | internal/meshtastic/framer.go:22-51 | the stream is exactly its dropped bytes interleaved with the encodings of the delivered frames, followed by the buffer |
| FramingTheorems.RoundTripThroughNoise | internal/meshtastic/framer.go:18-72 | encoded payloads between noise free of the start pair come out in order, complete and without errors, under any chunking |
| FramingTheorems.Resynchronisation | internal/meshtastic/framer.go:38-50 | after a header with an impossible length the next frame is found, at the cost of one error, or two exactly when the length bytes are the start pair |
| Model.WriteNodeID | internal/model/model.go:48-56 | the byte-filling loop writes the identifier |
| Model.NodeIDReads | internal/model/model.go:48-56 | an identifier is `!` and eight lower-case hexadecimal digits that read back as the node |
| Model.NodeIDInjective | internal/model/model.go:48-56 | two nodes share an identifier only when they are the same node |
| Model.KeyExact | internal/store/store.go:467-473 | two positions share a dedupe key exactly when node, both coordinates and source time agree |
| Timestamp.RoundTrip | internal/store/store.go:503-513 | parseTime undoes formatTime on every instant of the years 0 to 9999 |
| Timestamp.FormatInjective | internal/store/store.go:503-505 | different instants have different texts |
| Timestamp.TextOrderIsTimeOrder | internal/store/store.go:503-505 | the earlier of two instants sorts first as text, except exactly when both lie in one second and its fractional digits are a prefix of the later one's |
| Timestamp.SameDigitsSortAsTimes | internal/store/store.go:503-505 | text order is time order for instants in different seconds or with equally many fractional digits |
| Timestamp.FormatsCivil | internal/store/store.go:503-505 | a date and time of day is written as year, month, day, T, hour, minute, second in fields of fixed width, and Z |
| Timestamp.MonthLength | internal/store/store.go:503-505 | the twelve months have their lengths, February 29 days exactly in leap years |
| Timestamp.EpochText | internal/tak/decoder.go:46-49 | Unix time begins at 1970-01-01T00:00:00Z |
| Query.SelectExact | internal/store/store.go:301-314 | a query's rows are exactly those its WHERE clause admits, in the order of its ORDER BY clause |
| Query.OrderUnique | internal/store/store.go:301-314 | which rows are returned and how they are ordered determines the answer |
| Database.ReadWritten | internal/store/store.go:259-270 | a position read back is the position written, but for its row id and an unset port |
| Text.TrimSpaceTrims | internal/store/store.go:140-141 | trimming leaves the part between the outermost characters that are no spaces |
| Stores.Store.Archive | internal/store/store.go:199-291 | success commits packet, position and delivery together; a failure at any step changes no table; without a fault only the coordinate check can fail |
| Stores.Store.UpsertNode | internal/store/store.go:139-177 | the node row holds the trimmed names; exactly the rows of that node that show its bare identifier take its short, else its long name; nothing else changes, and a failure changes nothing |
| Stores.Store.NodeCallsign | internal/store/store.go:179-197 | the stored short name, else the stored long name, and the empty text for an unknown node |
| Stores.UpsertedIsCalled | internal/store/store.go:139-197 | a node that was just remembered is called by its trimmed short name, else its trimmed long name; the names of other nodes stay |
| Stores.Store.PendingDeliveries | internal/store/store.go:293-352 | each delivery offered is pending, due and its node's earliest pending one, with the attempts of its row and every column of its position, in order and within the limit; one is missing only behind a full limit of earlier ones; on a reachable store reading fails only when the database does |
| Stores.Store.Positions | internal/store/store.go:354-408 | the answer shows the newest row of every node, every column of it, in the order of source time and id; on a reachable store reading fails only when the database does |
| Stores.Store.MarkDelivered | internal/store/store.go:410-419 | exactly a pending row succeeds: it becomes delivered with its time and no error, keeps its attempts and next time, and every other row and table stays; any other row is reported and nothing changes |
| Stores.Store.MarkFailed | internal/store/store.go:421-436 | exactly a pending row succeeds: it gets attempts, next time and error, becomes failed if and only if that is terminal, and every other row and table stays; any other row is reported and nothing changes |
| Stores.Store.TrackID | internal/store/store.go:438-450 | no track exactly for a source without a mapping, else the mapping's track |
| Stores.Store.SaveTrack | internal/store/store.go:452-465 | a conflict exactly when another source holds the device or the track, and then nothing changes; otherwise the source's mapping is the new one and all others stay |
| Stores.SavedTrackIsFound | internal/store/store.go:438-465 | the track found for a source is the one last saved for it; the tracks of other sources stay |
| StoreRuns.ReachableIsValid | internal/store/store.go:563-599 | every sequence of transactions keeps distinct keys, valid references, coordinates in range, readable times, one delivery per position, distinct devices and tracks |
| StoreRuns.EmptyIsValid | internal/store/store.go:526-599 | a fresh database satisfies that invariant |
| StoreRuns.ArchiveExact | internal/store/store.go:199-291 | one packet always, a position exactly for a new key, a delivery exactly for a new position to be enqueued, nothing else; failure exactly for a new position off the globe |
| StoreRuns.ArchivedColumns | internal/store/store.go:214-286 | every column of the packet, position and delivery rows that Archive adds, from the packet, the position and the time |
| StoreRuns.SameFixSamePosition | internal/store/store.go:244-255 | after any transactions whatever, archiving the same fix again succeeds with the same position id and adds neither position nor delivery |
| Deliveries.SnapshotHeads | internal/store/store.go:293-314 | a snapshot holds due deliveries only, each the least pending one of its node, no node twice, in key order, within the limit |
| Deliveries.SnapshotComplete | internal/store/store.go:301-314 | a due head is missing from a snapshot only when the limit was used up by earlier ones |
| OutboxSafety.SnapshotOffers | internal/caltopo/worker.go:77 | a snapshot is this view of the rows, fifty deliveries at most |
| Deliveries.HeadExists | internal/store/store.go:302-312 | every pending delivery waits behind a least pending delivery of its node |
| LatestPositions.LatestExact | internal/store/store.go:360-370 | the answer holds exactly the rows no newer row of their node displaces, in order, one per node |
| LatestPositions.LatestViewIsMap | internal/store/store.go:354-370 | after any transactions the rows selected are those of a map whose entry is replaced exactly when an inserted source time is not less, with callsigns backfilled |
| LatestPositions.ViewIsMap | internal/store/store.go:371-407 | any answer that shows the newest rows has one position for each node of that map and no other, showing every column of the node's entry, in order |
| PositionFilter.MedianCoordinate | internal/caltopo/worker.go:192-199 | the filled and sorted slice yields the median of the coordinates |
| PositionFilter.MedianRank | internal/caltopo/worker.go:197-198 | a value is the median exactly when at most half of the values are smaller and more than half are not larger |
| PositionFilter.MedianIgnoresOrder | internal/caltopo/worker.go:192-199 | the median does not depend on the order of the samples |
| Workers.PositionFilterState.Feed | internal/caltopo/worker.go:158-178 | the window slides to the newest three; the offered point has the coordinates of median rank once there are three; a report is published exactly when its node has none yet, a heartbeat has passed, or three samples put it the movement threshold away |
| Workers.PositionFilterMemory.Prepare | internal/caltopo/worker.go:149-181 | a known delivery gets its memo back and changes nothing; a new one feeds its node's window once |
| Workers.PositionFilterMemory.Complete | internal/caltopo/worker.go:183-190 | the memo entry goes, and a published position becomes its node's last published one |
| Outbox.BackoffBounds | internal/caltopo/worker.go:104-106 | delays lie between 2 and 256 seconds, never shrink, never reach the cap and never overflow |
| BackoffRuns.BackoffTable | internal/caltopo/worker.go:104-106 | the delays are 2, 4, 8, and so on to 256 seconds, and then always 256 |
| BackoffRuns.PassRow | internal/caltopo/worker.go:81-119 | a failed publish that is stored raises the attempts of its row by one, puts the next one off by the delay for that number and keeps the error; completion delivers the row; nothing else changes a row |
| BackoffRuns.BackoffRun | internal/caltopo/worker.go:76-121 | in every run a row is what its passes make of it one after the other, and its attempts grow by exactly its stored failures |
| DrainLoop.BackoffIsNotDue | internal/caltopo/worker.go:105-106 | a failed delivery is not due again at the time of its failure, comparing texts |
| OutboxSafety.PrepareMemo | internal/caltopo/worker.go:149-190 | prepare keeps every memo entry pending and its node known, so that complete finds both |
| OutboxSafety.ProcessPasses | internal/caltopo/worker.go:81-119 | in a sound state a pass finds its row pending and its entries present, and ends in one of three outcomes |
| OutboxSafety.SoundRun | internal/caltopo/worker.go:76-190 | in every run the store stays valid, snapshots stay distinct and pending, the memo stays sound and complete never misses an entry |
| FilterHistory.HeartbeatCoverage | internal/caltopo/worker.go:163-178 | in every run each suppressed delivery has an earlier completed publish of its node whose source time is later than its own minus the heartbeat |
| FilterHistory.NoSampleTwice | internal/caltopo/worker.go:149-190 | in every run, in whatever order positions arrive, no delivery is fed to the filter twice |
| FilterHistory.WindowsExact | internal/caltopo/worker.go:158-161 | in every run a node's window is exactly the last three or fewer deliveries prepared for it, and these are distinct |
| PublishHistory.CompletedMeansPublished | internal/caltopo/worker.go:81-103 | in every run a delivery is completed at most once; one that counts as published had a successful call of Publish with exactly its position before, one that was suppressed had no call at all |
| OutboxOrder.ArrivalKeepsOrder | internal/store/store.go:302-312 | a new delivery keeps the invariant of ordered runs if and only if no delivery of its node in the worker's snapshot or ever fed to its filter is later as text |
| OutboxOrder.NotEarlierIsInOrder | internal/store/store.go:302-312 | a position not earlier, as text, than any delivery of its node always arrives in order |
| OutboxTheorems.RetryTransparency | internal/caltopo/worker.go:76-190 | with in-order arrivals and any failures a node has at most one prepared delivery, all its retries offer one position, and decisions and state are those of a pure fold |
| OutboxTheorems.PerNodeOrder | internal/caltopo/worker.go:81-119 | with in-order arrivals a node's attempts never step back in key order, its deliveries complete in strictly ascending key order, and a pending row only ever becomes delivered |
| OutboxTheorems.PredecessorsAreDelivered | internal/caltopo/worker.go:81-119 | with in-order arrivals, when a delivery is next, each predecessor of its node is delivered or had failed before the process started |
| OutboxTheorems.RunFailsNone | internal/caltopo/worker.go:106 | no run makes a delivery fail for good |
| OutboxTheorems.PublishSeparation | internal/caltopo/worker.go:163-178 | with in-order arrivals consecutive completed publishes of a node are a heartbeat apart in source time or the movement threshold apart in space |
| FilterDecisions.CompletedLaw | internal/caltopo/worker.go:149-181 | with in-order arrivals a completed delivery was suppressed if and only if the latest earlier publish of its node is less than a heartbeat older and, from the third delivery on, closer than the movement threshold; its point has median rank among the last three fed, or is its own before |
| FilterDecisions.AttemptLaw | internal/caltopo/worker.go:95 | with in-order arrivals every call of Publish offers the point that belongs to one of the deliveries fed |
| OutboxTheorems.ArrivalDisplacesHead | internal/store/store.go:302-312 | a new delivery displaces the head of its node exactly when its source time is earlier as text |
| OutboxTheorems.DisplacedHeadPreparesTwo | internal/caltopo/worker.go:149-181 | when a prepared head was displaced, processing the new head leaves one prepared delivery if and only if the store takes the write and the report is suppressed or published |
| OutboxTheorems.LateSampleStaysLate | internal/caltopo/worker.go:149-161 | once the filter saw a delivery, feeding it an earlier one of the node leaves the fed deliveries out of key order in every continuation |
| LateArrivals.LateArrivalExact | internal/caltopo/worker.go:76-181 | in a run where a second position arrives before the first one's retry, at most one delivery is prepared, and the attempts ascend, exactly when the second is not earlier as text |
| Workers.Worker.Finish | internal/caltopo/worker.go:84-87 | the delivery is marked first; only if that succeeds is it completed in the filter |
| Workers.Worker.Pass | internal/caltopo/worker.go:81-119 | one pass of the loop is one step of the machine; it fails exactly when its store write does |
| Workers.Worker.WorkThrough | internal/caltopo/worker.go:81-120 | the deliveries of a snapshot are passed in turn until one cannot be stored, as the machine does |
| Workers.Worker.Drain | internal/caltopo/worker.go:76-121 | one snapshot is worked through until it ends or the store fails, with intake committing in between; the count is the snapshot's size |
| Workers.Worker.DrainUntilIdle | internal/caltopo/worker.go:63-72 | with the clock fixed and no arrivals the loop ends, with an error only if the database fails; without one every pending node's head is backing off; if nothing fails and all is due, nothing stays pending |
| DrainLoop.DrainIsRun | internal/caltopo/worker.go:76-121 | a call of drain is a run of the machine |
| DrainLoop.DrainShrinks | internal/caltopo/worker.go:76-121 | a call of drain that does not fail takes exactly its snapshot out of the pending and due set |
| DrainLoop.DrainDelivers | internal/caltopo/worker.go:76-121 | when nothing fails, exactly the snapshot leaves the pending set |
| DrainLoop.StoredDrainsPass | internal/caltopo/worker.go:76-121 | drain fails only when the database does, whatever Publish does |
| Tracks.DevicesDiffer | internal/caltopo/adapter.go:77-105 | two nodes share a device identifier only when they are the same node |
| Tracks.DeviceIsNamed | internal/caltopo/adapter.go:77-105 | a node's device is FLEET, the group and the eight digits of the node |
| Tracks.NoConflict | internal/store/store.go:452-465 | saving a track created for a source never meets another source's device or track |
| Tracks.TrackUniqueness | internal/caltopo/adapter.go:50-121 | across any calls, deletions and failures there is at most one live track per device, each stored mapping names a track created for its source, and SaveTrack never violates a UNIQUE column |
| Tracks.FreshStart | internal/caltopo/adapter.go:50-121 | the invariant holds with no mappings and a map of tracks the bridge created, at most one for each device |
| Tracks.UniqueFromScratch | internal/caltopo/adapter.go:50-121 | so it holds of every run from an empty map and an empty database |
| Adapters.Adapter.EnsureOpen | internal/caltopo/adapter.go:88-98 | on success the configured map is open; a map that is open already is not opened again and nothing can fail |
| Adapters.Client.UpdateLiveTrack | internal/caltopo/adapter.go:65-73 | a call that takes effect makes its own track show the point and no other |
| Adapters.Adapter.ReconcileOrCreate | internal/caltopo/adapter.go:100-121 | the device's listed track is adopted, and only without one a track is created |
| Adapters.Adapter.CreateAndSaveTrack | internal/caltopo/adapter.go:76-86 | a reconciled or created track is saved before it is used |
| Adapters.Adapter.UpdateOrRecreate | internal/caltopo/adapter.go:65-73 | only a track the remote does not know is reconciled again, once; no track but the one stored for the source is ever updated, and that one shows the point on success |
| Adapters.Adapter.StoredOrCreated | internal/caltopo/adapter.go:54-64 | the stored track is used, and only without one a track is reconciled and saved; no track is updated yet |
| Adapters.Adapter.Publish | internal/caltopo/adapter.go:50-74 | publishing ends where the machine's calls end; on success the track stored for the node was last updated to this latitude, longitude and altitude; no other track's last update changes in any case |
| Adapters.FinishIsRun | internal/caltopo/adapter.go:50-74 | a Publish with the deletions around its calls is a run of the machine |
| Adapters.PublishRecovers | internal/caltopo/adapter.go:50-74 | after any earlier failures and deletions one undisturbed Publish succeeds and leaves the node mapped to a live track of its device that shows the position |
| Decoder.NewPosition | internal/tak/decoder.go:188-210 | coordinates out of range are refused with the source's messages; otherwise the packet's time is the source time |
| Decoder.DecodePositionApp | internal/tak/decoder.go:108-134 | the payload's port 3 report: position, no fix, or error |
| Decoder.DecodeCallsigns | internal/tak/decoder.go:173-186 | trimmed callsigns, or none with the mark that they could not be decoded |
| Decoder.DecodeLegacy | internal/tak/decoder.go:136-171 | the payload's port 72 report: position, not a position, or error |
| Decoder.DecodeWithOptions | internal/tak/decoder.go:27-106 | the record filled in step by step carries the packet's fields, bytes, parse status and error, and comes with its position |
| Decoder.DecodedPosition | internal/tak/decoder.go:63-106 | a decoded position has a callsign, lies on Earth, names its node and port, and comes with exactly two of the statuses |
| Decoder.FixDecides | internal/tak/decoder.go:108-134 | a port 3 packet has a position exactly when its fix is in range and not null; with a fix time, nothing else decides its key |
| DecoderTheorems.LegacyFields | internal/tak/decoder.go:136-186 | a readable port 72 payload gives a position exactly with a PLI inside the ranges, and then latitude, longitude, optional values, callsigns, time and status are those of the PLI, the contact and the packet, field by field |
| DecoderTheorems.AppFields | internal/tak/decoder.go:108-134 | a readable port 3 payload gives a position exactly when enabled, with a fix, inside the ranges, and then every field is the payload's or the packet's |
| DecoderTheorems.UnreadablePayload | internal/tak/decoder.go:108-140 | a payload that cannot be read makes its packet malformed, with the error that says so |
| DecoderTheorems.OtherStatuses | internal/tak/decoder.go:50-106 | exactly which packets are invalid, encrypted, of an unsupported kind or not TAK at all |
| DecoderTheorems.RecordFields | internal/tak/decoder.go:28-64 | the record carries the packet's own fields, times and bytes |
| DecoderTheorems.UnixTimeStarts | internal/tak/decoder.go:46-49 | zero seconds of the radio's clock are the beginning of 1970 |
| Ingest.Service.RememberUser | internal/ingest/service.go:103-108 | the directory is updated if there is one and the message names a user |
| Ingest.Service.ArchivePacket | internal/ingest/service.go:68-99 | a packet is archived with its callsign looked up, or nothing changes; deliveries are woken exactly for an added position |
| Ingest.Service.Handle | internal/ingest/service.go:36-101 | success is the message's whole effect; failure leaves the store as it was or with the node remembered; without faults there is no failure |
| Ingest.DecodedArchives | internal/store/store.go:572-573 | the tables' CHECK ranges accept every decoded position |
| Ingest.UpsertIdempotent | internal/store/store.go:139-177 | remembering a node twice is remembering it once |
| Ingest.RetryAbsorbs | internal/ingest/service.go:56-83 | handling a message after a failed attempt ends where a first-time success would |
| Ingest.HandledPackets | internal/ingest/service.go:68-83 | a handled message archives exactly one packet row if it carries a packet, else none |
| Ingest.DirectoryAfter | internal/ingest/service.go:53-67 | a message that names a user sets its node's directory row to the trimmed names; no other message changes the directory |
| Ingest.OthersLeaveNothing | internal/ingest/service.go:41-59 | metadata, configuration and other messages leave the store alone |
| Ingest.PacketLeaves | internal/ingest/service.go:68-83 | a packet leaves its own row and, for a new key, its position, with a delivery exactly if enqueueing is on; a callsign is archived as it came unless it is the bare identifier and the directory has a name |
| Ingest.CallsignInvariant | internal/ingest/service.go:53-80 | in every history of an empty store a position shows its bare node identifier only while its node has no name, or exactly that name |
| Ingest.WorkerKeepsIntake | internal/store/store.go:410-465 | the delivery worker's transactions touch no packet, node or position |
| Ingest.RepeatedReports | internal/tak/decoder.go:108-134 | port 3 reports of one node, place and non-zero fix time end up as one position and add no further delivery, whatever their receive and radio times |
| IntakeSteps.HandledIsRun | internal/ingest/service.go:36-101 | what a handled message does to the store is a run of the outbox machine's arrivals and renamings |
| Serial.WriteAll | internal/meshtastic/serial.go:168-180 | success means exactly the data was written, failure that a prefix was; only a failing or empty write fails |
| Serial.Source.RequestConfig | internal/meshtastic/serial.go:91-107 | success means exactly the frame of the configuration request, with a non-zero id, was written; a request of 1 to 512 bytes succeeds unless a write fails or takes nothing |
| Serial.Source.HandleUntilDone | internal/meshtastic/serial.go:139-156 | the handler is called until it succeeds, after pauses doubling from 1 to 30 seconds; it stops earlier only when a failed call is cancelled; failed calls leave no trace in the result |
| Serial.PauseTable | internal/meshtastic/serial.go:139-152 | the pauses are 1, 2, 4, 8, 16, and then always 30 seconds |
| Serial.Source.HandleFrames | internal/meshtastic/serial.go:127-157 | frames that hold no message are dropped, the messages of the others are handled once each and in order; unless cancelled, each sound call handles one as long as there are any |
| Serial.Source.ReadLoop | internal/meshtastic/serial.go:109-165 | each message of the input is handled exactly once and in order, and the loop ends as the connection does exactly when all are; unless cancelled, each sound call handles one as long as there are any |
| Serial.Source.Consume | internal/meshtastic/serial.go:90-166 | the request is written first and the start fails only with it; then the archive grows by exactly one row for each packet of the messages handled, in stream order, which are all of the input unless calls fail or the run is cancelled |
| Serial.ExactlyOnce | internal/meshtastic/serial.go:109-165 | the archive grows by exactly one row for each packet of the stream, in stream order, whenever and after however many failures each is handled |
| Serial.MessagesExact | internal/meshtastic/serial.go:127-132 | the messages are those of the readable frames, every one of them and in order |
| Serial.InputUntilEnd | internal/meshtastic/serial.go:111-164 | the input is the data of the reads up to the first one that ends the connection, its data included, and that read says how it ended |
| Serial.CancelledPrefix | internal/meshtastic/serial.go:141-153 | a cancelled run archived exactly the packets before the message it stopped at |
| Serial.ReadBoundariesDoNotMatter | internal/meshtastic/serial.go:109-165 | two complete runs over the same bytes archive the same packets, whatever the read boundaries, failures and times |

## Left out

- SQLite, WAL, drivers, connections and `migrate`: tables are sequences and maps, a transaction commits whole or not at all, and a store call that reports an error changed nothing.
- Protobuf and UTF-8 decoding: `Decoder.Codec` and the read loop's functions stand for the libraries; every theorem holds for any of them.
- SHA-256: the text that is hashed stands for the hash, which takes the hash to be injective.
- Floating point: coordinates are integers in units of 1e-7 degrees, the precision of the messages and of the dedupe key; altitude, speed and course are integers.
- `distanceMeters`: the filter takes any distance function; only the comparison with the threshold matters.
- Instants before the year 0 and after the year 9999; the worker's clock stays at least five minutes before that end.
- `parseTime` on texts that `formatTime` never writes, such as offsets other than Z.
- Hop limits, RSSI, SNR, MQTT and PKI marks, and the created-at and updated-at columns: stored and never read by this code.
- Node rows carry no update time, so an update that changes nothing else leaves no trace here.
- Track titles, and updates of the map by anyone but the bridge.
- Remote requests that take effect after a later listing, and tracks created by anyone but the bridge.
- `Source.Run`, reconnection, jitter, sleeping, contexts and signals: a cancelled context is an early end of a run.
- `Worker.Run`'s ticker and wake channel: they only decide when the inner loop starts.
- Filter state across restarts: it is in memory only, and each theorem about the filter speaks of one process.
- Logging, with its limit on warnings about encrypted packets; configuration, the web server and the command line.
- Concurrency inside one call: the store serves one connection, so intake and worker interleave between transactions; `Serial` lets intake run alone, and `Ingest.WorkerKeepsIntake` says why the worker does not disturb it.
