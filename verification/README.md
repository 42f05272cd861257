# Verified model of the runkit engine's event pipeline

runkit executes Dogma applications on PostgreSQL. Commands append events to
append-only streams; the streams are followed, cached, read, sent between engines
and consumed by competing nodes; and every handler must still see every event once
and in order. This project models that pipeline in Dafny and proves it, from the
tables up to the consumers. `dafny verify dfyconfig.toml` checks all of it.

A read is always compared with one reference: `Slice(log.events, types, a, b)`, the
log's events of the wanted types at offsets in [a, b), in offset order.

| file | what it models | how |
|---|---|---|
| Stream.dfy | envelopes, logs, segments, `Slice`, chains of segments | values |
| Cache.dfy | the bounded cache of a stream's most recent events | class `Cache`, refined to the full history |
| Feed.dfy | feeds, the catalog's choice of feed, consumers that switch between cache and historical reads | transition system, one step per access to shared state |
| Catalog.dfy | adding, removing and publishing feeds | class `Catalog` |
| LocalRead.dfy | historical reads, from the database and from memory, of streams that grow meanwhile | methods with loops |
| LocalSource.dfy | one follower per stream, one bounded buffer per watcher | class `Local`, one method per query, critical section or channel operation |
| SignalBus.dfy | the lossy signal bus that wakes the followers | class `Bus`, and a transition system with followers and connection |
| Wire.dfy, RemoteWatch.dfy | splitting segments into messages, parsing them, reading and watching over the wire | methods with loops |
| ProcessSink.dfy, ProjectionSink.dfy | durable consumers of one stream by one handler | transition systems, and `ConsumeSegment` as a method with a loop |
| Aggregate.dfy | aggregate roots, snapshots, the event and instance tables | values, methods with loops |
| Commands.dfy | command handling as concurrent transactions | transition system |
| Tables.dfy | the same, statement by statement: the SQL functions, the aggregate and integration drivers, the pump | class `Tables` |
| ProcessInstances.dfy | process instances and their deadlines | class `Tables`, and a transition system |
| Backoff.dfy | the delay after a failed delivery, on wrapping 64-bit integers | method, arithmetic lemmas |
| Membership.dfy | which node consumes which stream | method, class `Consumer` |
| Pipeline.dfy | a process handler's consumers and the catalog joined into one system; what each part assumes of the others | transition system made of two of the above |

In each transition system `Step` lists what can happen, `Enabled` says when, and `Apply`
what it does; `Run(s, steps)` is any sequence of enabled steps, so a theorem about
`StateAfter(s, steps)` is about every interleaving. Where a step belongs to a loop in
the source, the steps are the loop's accesses to shared state, because between any two
of them anything else may happen.

Assumed of what the source does not contain: a source's streams never get shorter and
`fn`'s errors come back unchanged (internal/eventstream/source/source.go:13-57); a
snapshot that can be unmarshaled is the root that it was taken of, and roots change
only by applying events; a projection handler applies an event if and only if the
checkpoint it is given is its own; `TryAppendEnvelope` joins events with equal
headers; `rand.N(x)` panics unless x > 0 and yields any number in [0, x); row locks
are held until a transaction ends; a notification is queued for a connection if and
only if its transaction commits while the connection is listening.

Two things do not hold as one might expect, and are stated exactly:

- A failed deadline delivery does not always commit its postponement only. If the
  handler executed a command whose idempotency key, if it has one, is new, and its root
  then can not be marshaled, the command is committed with the postponement. Without a
  key, that happens again at every attempt (`ProcessInstances.FailureIsClean`,
  `ProcessInstances.FailedDeliveryRepeats`). The aggregate and integration drivers do
  not do this (`CommandTables.Tables.HandleDelivery`,
  `CommandTables.Tables.HandleIntegration`).
- The backoff's shift can wrap around to a limit that is not above the base, and then
  `rand.N` panics. `Backoff.TooLow` says exactly when; it can not happen to a base whose
  square is below 2^63, such as the engine's (`Backoff.LimitExact`, `Backoff.SmallBaseOk`).

## Model

| member | source | states |
|---|---|---|
| `EventCache.CacheRefinesHistory` | internal/eventstream/internal/cache/cache.go:50-110 | after any sequence of resets and contiguous appends the cache holds as many of the newest events as there is room for and no others, begins just after the newest one left out, and reading it at any checkpoint in range gives the events of the whole history from there, of the wanted types |
| `EventCache.StepIsRecent` | internal/eventstream/internal/cache/cache.go:69-110 | each of the three ways of evicting leaves the last `capacity` events, beginning just after the last one evicted |
| `EventCache.RecentReads` | internal/eventstream/internal/cache/segment.go:47-74 | the most recent events, filtered from a checkpoint in range, are the full history filtered from it |
| `EventCache.AppendedIsSlice` | internal/eventstream/internal/cache/cache.go:69-110 | a cache that is a slice of the log is still one after the next slice is appended, however much it evicts |
| `EventCache.FirstAtOrAfter` | internal/eventstream/internal/cache/segment.go:58-63 | the binary search finds the first event at or after the checkpoint |
| `EventCache.ReadSegment` | internal/eventstream/internal/cache/segment.go:47-74 | the relation of the checkpoint to the segment, and exactly the slice from the checkpoint if it is within it |
| `EventCache.Cache.constructor` | internal/eventstream/internal/cache/cache.go:29-41 | a new cache is empty at its begin offset |
| `EventCache.Cache.Clear` | internal/eventstream/internal/cache/cache.go:50-55 | a reset empties the cache at the given offset and starts the history again |
| `EventCache.MakeRoom` | internal/eventstream/internal/cache/cache.go:80-109 | the statements of the append give the snapshot of the matching eviction case |
| `EventCache.Cache.Extend` | internal/eventstream/internal/cache/cache.go:69-110 | an append adds the events to the history, and the stored snapshot ends at the new end and holds as many of the newest as there is room for |
| `EventCache.Cache.Read` | internal/eventstream/internal/cache/segment.go:47-74 | before, after or within the segment, as the checkpoint is below its begin, at or above its end, or neither; within it, reading equals filtering the whole history recorded so far |
| `Feeds.ConsumedExactly` | internal/eventstream/feed.go:124-283 | in every run, what a consumer's `fn` accepted chains from its begin offset and its events are exactly the log's events of its types up to its checkpoint; a wait is within the source's stream |
| `Feeds.CachesFaithful` | internal/eventstream/feed.go:76-86 | in every run each feed's cache is a bounded, exact part of the log within what its source has seen |
| `Feeds.WriterKeeps` | internal/eventstream/feed.go:76-86 | an append interleaved with anything leaves the cache exact, and never meets the cache's panic about a gap |
| `Feeds.GiveKeeps` | internal/eventstream/feed.go:142-155 | accepting the next slice keeps the consumer's deliveries exact |
| `Feeds.OfferKeeps` | internal/eventstream/feed.go:139-155 | serving from a cached snapshot, however old, keeps the consumer's invariant |
| `Feeds.ReadDeliverKeeps` | internal/eventstream/feed.go:229-252 | serving from a historical read, until it catches up with the cache, keeps the consumer's invariant |
| `Feeds.SilentMoveKeeps` | internal/eventstream/feed.go:138-200 | every other move of a consumer keeps its invariant, in particular `confirmed` stays true of the source's stream |
| `Feeds.StepKeeps` | internal/eventstream/catalog.go:94-124 | every step of the log, sources, writers, catalog and consumers keeps the whole system's invariant, and the log and the feeds only move on |
| `Feeds.ClosedNeverCurrent` | internal/eventstream/catalog.go:265-290 | a feed that was closed is never current again, and the current feed is available and open, so a consumer that sees a closure does not reload the feed |
| `Feeds.ReleasedStaysIdle` | internal/eventstream/catalog.go:169-178 | once `Catalog.Watch` has returned, its source is neither being watched, nor watched again, nor read, now or later |
| `Feeds.ClosedBeginsNoRead` | internal/eventstream/feed.go:285-297 | in every run from a feed's closure on, whoever reads from its source was already doing so: no other read begins |
| `Feeds.ServedAsAsked` | internal/eventstream/catalog.go:75-125 | in every run from a call to `Consume` on, it is served with its own types from its own offset, its checkpoint never goes back, and what it was given stays given |
| `Feeds.AppendKeepsNewest` | internal/eventstream/feed.go:76-86 | what an append leaves in the cache: the newest events of what was there and the new segment together, as many as there is room for; only a segment that does not continue the cache discards what was there |
| `Feeds.SoloDescends` | internal/eventstream/feed.go:138-199 | each turn of `consume` lowers a rank: distance to the end, then `confirmed`, then the place in the loop |
| `Feeds.SoloRunBounded` | internal/eventstream/feed.go:130-199 | with source and cache at rest, `consume` makes no more moves than that, and keeps its invariant |
| `Feeds.SoloProgress` | internal/eventstream/feed.go:138-199 | until then it always has a move, which is a failed read only if the checkpoint is beyond the source's end |
| `Feeds.WaitsWithNothingLeft` | internal/eventstream/feed.go:124-200 | with the rest at rest, `consume` ends by waiting only once its checkpoint is at or past the end of what is cached now; it returns only with the error of a read of an open feed, or because the feed is closed |
| `Feeds.WokenTakesTheNew` | internal/eventstream/feed.go:191-197 | a waiting consumer that is woken does not wait again before it was given everything that is cached by then |
| `Feeds.DeliveryAdvances` | internal/eventstream/feed.go:142-155 | a delivery moves the checkpoint to the end of the segment, a read goes on until it reaches the cached segment, and what `fn` rejects stops the consumer without being consumed |
| `Feeds.ClosedLetsGo` | internal/eventstream/feed.go:216-266 | a closed feed lets its consumers go without an error: none begins a read or stops, and whoever waits goes back to the catalog |
| `Feeds.GoesOnAtCurrent` | internal/eventstream/catalog.go:94-124 | from the catalog a consumer goes on from its checkpoint at the current feed, which is open; not found exactly if there is no feed, and a panic exactly if that feed lacks one of its types |
| `Feeds.BeyondEndIsReported` | internal/eventstream/feed.go:178-189 | from an offset beyond the source's end nothing is delivered or waited for: the only ways out are the read's error and, if the feed is closed, another feed |
| `Feeds.NeverTooShort` | internal/eventstream/feed.go:157-174 | in every run over sources whose segments advance, no consumer ever finds that a stream ends before its cached segment |
| `Catalogs.Catalog.constructor` | internal/eventstream/catalog.go:139-151 | an empty catalog satisfies the invariant |
| `Catalogs.Catalog.Publish` | internal/eventstream/catalog.go:296-316 | the published set gains or loses exactly the given stream |
| `Catalogs.Catalog.Add` | internal/eventstream/catalog.go:224-260 | a new feed becomes available, and current only if it is the first; current feeds stay available and open and the published set stays the streams that have feeds |
| `Catalogs.Catalog.Remove` | internal/eventstream/catalog.go:265-290 | the feed is closed and no longer available; if it was current another open feed takes over, or the stream leaves the catalog and the published set |
| `Catalogs.Catalog.RemoveAll` | internal/eventstream/catalog.go:169-178 | removing a source's feeds closes all of them and no others |
| `Catalogs.Catalog.PublishedHaveFeeds` | internal/eventstream/catalog.go:292-316 | a stream is published if and only if it has a feed that is not closed |
| `HistoricalReads.LoadSegment` | internal/eventstream/source/local.go:531-613 | an error exactly for a missing stream or an offset beyond its end; otherwise an exact slice of the stream, under its ID, exhausted exactly if it holds fewer than `SegmentSize` events, and then up to the stream's end; if not, it ends after the last of them |
| `HistoricalReads.RowsEnd` | internal/eventstream/source/local.go:580-610 | the first rows of a limited query are exactly the slice up to and including the last of them |
| `HistoricalReads.LocalRead` | internal/eventstream/source/local.go:161-196 | with the stream growing between its queries, the read terminates and meets the contract of `Source.Read`: advancing, bounded segments of that stream from `begin`, exact in the stream as the last query saw it, up to the end of that, past trailing events of other types |
| `HistoricalReads.MemorySegment` | internal/eventstream/source/memory.go:198-225 | the slice of the stream |
| `HistoricalReads.MemoryUnread` | internal/eventstream/source/memory.go:159-194 | an error exactly for a missing stream or an offset beyond its end; nothing exactly at its end; otherwise the next advancing slice of that stream, up to its end or after exactly as many events as the segment size |
| `HistoricalReads.MemoryRead` | internal/eventstream/source/memory.go:93-118 | the in-memory source meets the same contract, under the same growth, with segments of that stream |
| `HistoricalReads.DeliversSlice` | internal/eventstream/source/source.go:40-57 | what such a read delivers, concatenated, is one slice of the log |
| `HistoricalReads.ReadFinishes` | internal/eventstream/source/local.go:176-195 | a read of a stream that stops growing comes to its end if `fn` accepts one segment for each offset |
| `HistoricalReads.LaterReadExtends` | internal/eventstream/source/source.go:40-57 | of two reads of one stream, by any source and in any division, the one that sees more delivers what the other does and then exactly what was appended |
| `HistoricalReads.SourcesAgree` | internal/eventstream/source/memory.go:93-118 | over a stream at rest both sources deliver the same events and end the same way |
| `LocalSource.Local.constructor` | internal/eventstream/source/local.go:123-134 | a source with no streams and no watchers satisfies the invariant |
| `LocalSource.Local.Grow` | internal/eventstream/source/local.go:531-613 | appends by other transactions disturb nothing that was delivered |
| `LocalSource.Local.Register` | internal/eventstream/source/local.go:268-296 | a new watcher starts in step with `offsets`, with one empty opening segment for each stream, an open channel and nothing buffered |
| `LocalSource.RegisterServes` | internal/eventstream/source/local.go:268-296 | registering keeps the fan-out invariant |
| `LocalSource.Local.Unregister` | internal/eventstream/source/local.go:299-304 | exactly that watcher is removed |
| `LocalSource.Local.Receive` | internal/eventstream/source/local.go:143-157 | the next segment in order, which is exact; the reason for the end only once everything before it was received |
| `LocalSource.Local.Send` | internal/eventstream/source/local.go:317-319 | a send goes to an open channel that has room, and appends the segment |
| `LocalSource.Local.Remove` | internal/eventstream/source/local.go:347-351 | the channel is closed while open, with its reason |
| `LocalSource.Local.SendAll` | internal/eventstream/source/local.go:317-326 | every watcher gets the segment or is removed as too slow, as `RoomDecides` says |
| `LocalSource.RoomDecides` | internal/eventstream/source/local.go:311-327 | a watcher is sent the segment and stays exactly if fewer than `bufferSize` of those sent to it are yet to be received; otherwise it is closed as too slow; no other call changes |
| `LocalSource.ReceivingMakesRoom` | internal/eventstream/source/local.go:317-319 | a watcher that has received everything, or was sent nothing since it registered, is sent the segment and stays registered |
| `LocalSource.Local.Deliver` | internal/eventstream/source/local.go:311-327 | the stream's offset moves to the segment's end, and every watcher still registered is in step with all offsets |
| `LocalSource.Local.Follow` | internal/eventstream/source/local.go:360-371 | an attempt to follow a stream begins with nothing delivered |
| `LocalSource.Local.LoadOpening` | internal/eventstream/source/local.go:392-399 | the opening segment that it loads is empty and at the stream's end as it stands |
| `LocalSource.Local.LoadNext` | internal/eventstream/source/local.go:410-416 | what it loads is exact, advances and is within `SegmentSize`; exhausted means that the stream's end as it stands is reached, and otherwise the segment is full |
| `LocalSource.Local.DeliverLoaded` | internal/eventstream/source/local.go:401-418 | whatever happened since the query, every registered call gets what was loaded or is removed, and misses nothing; one that has received everything before it gets it and stays registered; the follower goes on from its end |
| `LocalSource.GrowFollows` | internal/eventstream/source/local.go:410-418 | a stream that grows between query and delivery leaves what was loaded exact, and in its place |
| `LocalSource.Local.RemoveAll` | internal/eventstream/source/local.go:338-340 | every watcher is removed and its channel closed once |
| `LocalSource.Local.Fail` | internal/eventstream/source/local.go:332-341 | the stream has no offset any more, exactly the calls that were being served are closed with an error, and no other call changes |
| `LocalSource.DeliverServes` | internal/eventstream/source/local.go:311-327 | delivery keeps the fan-out invariant: linked exact segments, bounded buffers, watchers open and in step, every other call ended with an error or of its own accord |
| `LocalSource.FailServes` | internal/eventstream/source/local.go:332-341 | failure keeps it |
| `LocalSource.ReceiveServes` | internal/eventstream/source/local.go:148-156 | receiving keeps it |
| `LocalSource.GrowServes` | internal/eventstream/source/local.go:531-613 | growth of a stream keeps it |
| `LocalSource.LinkedIsSlice` | internal/eventstream/source/local.go:123-158 | linked exact segments of several streams carry, for each stream, exactly its events of the wanted types from where they pick it up to where they leave it |
| `LocalSource.GivenExactly` | internal/eventstream/source/local.go:123-158 | at any time what a call passed to `fn` of a stream is exactly such a slice |
| `LocalSource.FilterSegment` | internal/eventstream/source/local.go:617-633 | the segment with exactly its events of the wanted types |
| `LocalSource.PassOn` | internal/eventstream/source/local.go:148-156 | what `fn` gets is the log's slice of the wanted types |
| `LocalSource.Openings` | internal/eventstream/source/local.go:282-295 | exactly one empty opening segment for each offset, in step with `offsets` |
| `SignalBus.SignaledHaveSignal` | internal/signal/bus.go:177-215 | each subscriber of the topic or of one above it whose channel has room gains exactly one signal, last, whose part beneath its own topic completes that to the signal's; nothing else changes; whatever is dropped, each of them has a signal afterwards |
| `SignalBus.CutByLevel` | internal/signal/bus.go:207-215 | cutting a dotted topic as a string is cutting it level by level: the parent is a prefix of whole levels, never of part of one, and the rest is what is beneath it |
| `SignalBus.SignalAll` | internal/signal/bus.go:181-204 | the loop over the subscribers signals exactly those, once each |
| `SignalBus.Bus.Watch` | internal/signal/bus.go:64-102 | the new channel already holds a signal |
| `SignalBus.Bus.Stop` | internal/signal/bus.go:86-101 | the subscriber is removed and its channel closed with what is left in it, once; nothing is sent to it any more |
| `SignalBus.Bus.Receive` | internal/eventstream/source/local.go:391 | what was sent comes first, in order, and then, of a closed channel, its end |
| `SignalBus.Bus.Wake` | internal/signal/bus.go:177-187 | every subscriber whose channel has room gains a signal as on its own topic, and nothing else changes |
| `SignalBus.Bus.Dispatch` | internal/signal/bus.go:191-215 | exactly the subscribers of the topic and of those above it whose channels have room gain the part beneath theirs |
| `SignalBus.StepKeepsFollower` | internal/signal/bus.go:132-173 | no commit, disconnection, reconnection, dropped signal or scan leaves a follower behind and asleep |
| `SignalBus.NoLostWakeUp` | internal/eventstream/source/local.go:388-425 | in every run a follower whose stream goes on is scanning, or its channel holds a signal, or a notification is in flight, or the subscribers are yet to be woken |
| `SignalBus.Descends` | internal/eventstream/source/local.go:391-425 | each dispatch and each step of a follower uses up some of a number of steps fixed in advance |
| `SignalBus.CatchesUp` | internal/eventstream/source/local.go:391-425 | once the bus is up and nothing is appended, a follower reaches the end of its stream: until then some step serves it, and only that many can happen |
| `Wire.SplitSegment` | internal/eventstream/source/server.go:144-190 | the parts are contiguous, cover the segment and hold exactly its events; each is within the limit or one event; none was closed early; headers are shared exactly by neighbours with equal ones |
| `Wire.ParseSegment` | internal/eventstream/source/remote.go:221-282 | a message is accepted if and only if it is well formed, and then as the segment it stands for |
| `Wire.AcceptedInOrder` | internal/eventstream/source/remote.go:239-279 | what is accepted is in order, in range, of the stream and of the wanted types, and every header and body is valid |
| `Wire.AcceptedExactly` | internal/eventstream/source/remote.go:221-282 | a message is accepted if and only if it has an ID and a range and its events are valid, of its stream, of the wanted types, in range and in ascending order |
| `Wire.PartsAccepted` | internal/eventstream/source/remote.go:221-282 | every part of the split of a well-formed segment is accepted |
| `Wire.SendSegment` | internal/eventstream/source/server.go:124-136 | the messages of a segment are acceptable, give it back when concatenated, and take up no more than the limit, each header counted once per run of equal ones, unless they hold a single event |
| `Wire.ServeRead` | internal/eventstream/source/server.go:70-106 | the messages of a read give back the underlying read when concatenated |
| `Wire.RemoteRead` | internal/eventstream/source/remote.go:90-159 | from any messages, only acceptable ones of the stream, contiguous from the requested offset, are delivered; it fails exactly at the first other one |
| `Wire.ReadOverWire` | internal/eventstream/source/remote.go:90-159 | a remote read never fails on what the server sends, and delivers exactly what the underlying read does |
| `RemoteWatching.RemoteWatch` | internal/eventstream/source/remote.go:60-86 | from any messages, only acceptable ones that continue their stream are delivered; it fails exactly at the first other one |
| `RemoteWatching.PartsContinue` | internal/eventstream/source/server.go:144-190 | the parts of a segment, sent among the segments of other streams, continue its stream and no other |
| `RemoteWatching.ServeWatch` | internal/eventstream/source/server.go:34-66 | the messages are acceptable, fit, are contiguous in each stream, and carry the same events of every stream |
| `RemoteWatching.WatchOverWire` | internal/eventstream/source/remote.go:40-87 | a remote watch never fails on what the server sends, and passes on the same events of every stream, from and to the same offsets |
| `ProcessSink.CommitExact` | internal/process/sink.go:124-186 | a commit moves the checkpoint strictly forward over exactly the event that it dispatched, or over a range without any |
| `ProcessSink.MoveKeeps` | internal/process/sink.go:95-120 | a consumer's own moves keep its checkpoint coupled to its read position |
| `ProcessSink.OthersKeep` | internal/process/sink.go:124-153 | other consumers can not move the checkpoint under the holder of its lock |
| `ProcessSink.RunKeeps` | internal/process/sink.go:95-186 | in every run the checkpoint never goes back and no dispatch is undone |
| `ProcessSink.DispatchedExactlyOnce` | internal/process/sink.go:95-186 | with any overlap, rollback, and commit that reports failure, the committed dispatches are exactly the matching events below the checkpoint, once each, in order; between segments each consumer's checkpoint is its read position |
| `ProcessSink.ConflictsOnlyWithOthers` | internal/process/sink.go:148-186 | in every run in which nobody else commits, a consumer never meets a conflict, and between segments every matching event below its read position has been dispatched |
| `ProcessSink.ResumesAtCheckpoint` | internal/eventstream/consumer.go:129-161 | after a conflict, failure, crash or commit reported as a failure the lock is free and the consumer goes on from the committed checkpoint |
| `ProcessSink.ConsumeSegment` | internal/process/sink.go:95-120 | every event at or after the checkpoint is dispatched once and in order, each transaction expecting the checkpoint that the one before it wrote, and then the checkpoint moves to the end of the segment; the first transaction that fails or finds another checkpoint is the last |
| `ProcessSink.CommitIsWrite` | internal/process/sink.go:124-186 | a commit of the transition system is one such transaction |
| `ProjectionSink.NextFromCheckpoint` | internal/projection/sink.go:88-115 | no matching event lies between the sink's checkpoint and the event it is about to dispatch |
| `ProjectionSink.HandleExact` | internal/projection/sink.go:98-112 | an event that the handler applies is the next matching one after all those applied |
| `ProjectionSink.DuplicateWasApplied` | internal/projection/sink.go:102-112 | a rejected duplicate that looks like success was in fact applied, so nothing is skipped |
| `ProjectionSink.AcceptKeeps` | internal/projection/sink.go:93-115 | accepting a segment whose end is past the checkpoint leaves nothing matching behind |
| `ProjectionSink.AppliedExactlyOnce` | internal/projection/sink.go:88-115 | with any overlap and failure the events applied are exactly the matching events below the handler's checkpoint, once each, in order |
| `ProjectionSink.RejectedOnlyForOthers` | internal/projection/sink.go:88-115 | in every run in which nobody else calls the handler, every event passed on is applied, and between segments every matching event below the read position has been |
| `ProjectionSink.ResumesAtStored` | internal/eventstream/consumer.go:129-161 | after a conflict, failure or crash the consumer goes on from the handler's own checkpoint |
| `ProjectionSink.ConsumeSegment` | internal/projection/sink.go:88-115 | every event is passed on in order, with the checkpoint just after the one before it, up to the first that the handler does not answer with the offset after it |
| `Aggregates.ApplyHistoricalEvents` | internal/aggregate/commandpump.go:387-479 | the loop over the rows folds exactly the instance's events at or after the offset into the root |
| `Aggregates.LoadInstance` | internal/aggregate/commandpump.go:194-230 | the root is the snapshot's, if it can be read, with the later events applied, and otherwise a new one with all of them |
| `Aggregates.RowOrigin` | internal/schema/ddl/00-eventstream/10-funcs.sql:67-122 | every row of a serial stream is a certain event of a certain command, after everything recorded by the commands before it |
| `Aggregates.EventPlace` | internal/schema/ddl/00-eventstream/10-funcs.sql:67-122 | and every event of every command has its row there |
| `Aggregates.RestoredIsFold` | internal/aggregate/commandpump.go:204-228 | replaying the events after a snapshot equals replaying them all |
| `Aggregates.SelectAll` | internal/aggregate/commandpump.go:396-411 | the query over the bound stream finds all the events that the instance ever recorded, in order |
| `Aggregates.LoadIsFold` | internal/aggregate/commandpump.go:172-231 | over consistent tables a loaded root is the fold of every event that the instance ever recorded, whatever its snapshot |
| `CommandHandling.CommitKeeps` | internal/schema/ddl/20-aggregate/10-funcs.sql:30-76 | a commit keeps the tables equal to the serial execution of the completed commands, instances bound to one stream, snapshots exact and events replayable |
| `CommandHandling.CommitSpares` | internal/aggregate/commandpump.go:260-383 | a commit changes nothing that another transaction has read under its locks |
| `CommandHandling.StepKeeps` | internal/messagepump/pump.go:227-301 | every step of every transaction keeps the system's invariant |
| `CommandHandling.RootsAreFolds` | internal/aggregate/commandpump.go:172-231 | in every run a root, loaded or about to be, is the fold of every event its instance committed; loading fails only if no root can be created |
| `CommandHandling.InstanceOnOneStream` | internal/schema/ddl/20-aggregate/10-funcs.sql:46-53 | in every run an instance's events lie on the one stream that it is bound to |
| `CommandHandling.StreamsAreSerial` | internal/schema/ddl/00-eventstream/10-funcs.sql:67-122 | in every run a stream holds whole batches in commit order at exactly the offsets 0 to next_offset - 1, as if the commands had been handled one by one, and none from a queued command |
| `CommandHandling.EveryEventIsThere` | internal/schema/ddl/00-eventstream/10-funcs.sql:67-122 | in every run every event of every handled command is on its stream, at the offset that its place among the commands handled so far gives it |
| `CommandHandling.LockedWhileNeeded` | internal/messagepump/pump.go:227-301 | in every run a row is locked by a worker exactly while that worker's open transaction needs it |
| `CommandHandling.ReadersMissNothing` | internal/schema/ddl/00-eventstream/10-funcs.sql:67-122 | from any reachable state on, streams are valid logs that are only extended: a reader that saw a stream end at e never finds a new event below e |
| `CommandHandling.StepEffects` | internal/messagepump/pump.go:227-301 | in the transition system only the commit of a handled command appends events: it removes that command, appends one row for each event at the next offsets, binds the instance, and saves the snapshot of the root after them; a postponement commits `failures` (unchanged if busy), as they were when the command was acquired, and at most an unbound instance |
| `CommandHandling.CommitCompletes` | internal/schema/ddl/20-aggregate/10-funcs.sql:6-76 | row by row, what the commit of a completion leaves: the queue, the stream, and the instance's binding and snapshot; an unbound row does not outlive a completion without events |
| `CommandHandling.HandledAtMostOnce` | internal/aggregate/commandpump.go:54-138 | in every run no command is handled twice, and none that was handled is queued |
| `CommandTables.Tables.Append` | internal/schema/ddl/00-eventstream/10-funcs.sql:67-122 | the stream gains one row for each event, in order, at the next offsets, and the new next offset is returned |
| `CommandTables.Tables.AcquireForWrite` | internal/schema/ddl/00-eventstream/10-funcs.sql:24-62 | a stream that is not locked, if there is one, and no longer than any such; if all are locked, the one it waits for if one is empty, and otherwise a new one; no other stream changes |
| `CommandTables.Tables.Shortest` | internal/schema/ddl/00-eventstream/10-funcs.sql:31-36 | a stream of those given that is no longer than any of them |
| `CommandTables.Tables.Remove` | internal/schema/ddl/10-commandqueue/10-funcs.sql:63-77 | the command is gone, with an exception if it was not there |
| `CommandTables.Tables.TryCreateInstance` | internal/aggregate/commandpump.go:338-383 | the existing row, or a new unbound one |
| `CommandTables.Tables.CompleteWithoutEvents` | internal/schema/ddl/20-aggregate/10-funcs.sql:6-23 | the command leaves the queue, an unbound instance its table, and nothing else changes |
| `CommandTables.Tables.CompleteWithEvents` | internal/schema/ddl/20-aggregate/10-funcs.sql:30-76 | bind, append, snapshot, remove: the stream gains exactly these events, the instance is bound to it with the snapshot as of the last of them, and the command is gone |
| `CommandTables.Tables.BindStream` | internal/schema/ddl/20-aggregate/10-funcs.sql:45-53 | an instance that is bound stays so; any other is bound to the stream acquired |
| `CommandTables.Tables.CompleteIntegration` | internal/schema/ddl/20-integration/10-funcs.sql:6-38 | the command is gone, and an acquired stream gains exactly these events |
| `CommandTables.Tables.LockInstance` | internal/aggregate/commandpump.go:182-192 | busy, without a change, exactly if the row exists and is locked; otherwise the row, new if there was none |
| `CommandTables.RecordEvents` | internal/aggregate/commandscope.go:36-58 | the events are folded into the root in order, or applying one fails |
| `CommandTables.RunHandler` | internal/aggregate/commandpump.go:88-133 | the events are those that the handler recorded for the loaded root, and the root is the fold of them; none exactly if loading, handling or applying one of them fails |
| `CommandTables.AttemptedMeans` | internal/aggregate/commandpump.go:54-138 | the transaction of an attempt, in the attempt's own terms: postponed exactly if it failed or was busy, and otherwise all the events that the handler recorded for the instance it was routed to |
| `CommandTables.Tables.HandleDelivery` | internal/aggregate/commandpump.go:54-138 | busy exactly if the row is locked, and failed exactly if the command can not be unmarshaled, has no route, has no root, or its handler or applying one of its events fails; busy changes nothing, a failure adds at most an unbound row; success appends exactly the events that the handler recorded, to the bound or the acquired stream, and takes the command from the queue |
| `CommandTables.Tables.HandleIntegration` | internal/integration/commandpump.go:56-120 | failed, without a change, exactly if the command can not be unmarshaled or its handler fails; never busy; success appends exactly the recorded events to the acquired stream |
| `CommandTables.Tables.PostponeDelivery` | internal/messagepump/commandqueue.go:60-81 | only that command's failures change, with an error if it is not queued |
| `CommandTables.Tables.Settle` | internal/messagepump/pump.go:238-300 | commits after success, failure (one more) and busy (unchanged), and not after any other error |
| `CommandTables.Tables.DoHandle` | internal/messagepump/pump.go:227-301 | with the aggregate driver, the transaction commits exactly if the command is queued: one more failure and at most an unbound row, the same failures if busy, or exactly what the handler recorded; and that is the transaction of the transition system |
| `CommandTables.Tables.DoHandleIntegration` | internal/messagepump/pump.go:227-301 | the same with the integration driver: one more failure and nothing else, or exactly what the handler recorded |
| `CommandTables.AttemptIsRun` | internal/aggregate/commandpump.go:54-138 | that transaction is one that a worker of the transition system reaches by its own steps, none of which shows |
| `ProcessInstances.Tables.LoadInstance` | internal/process/instancestate.go:45-101 | the existing row, or a new one |
| `ProcessInstances.Tables.AddCommand` | internal/schema/ddl/10-commandqueue/10-funcs.sql:14-56 | a command whose idempotency key was claimed is discarded; any other is queued and claims its key, or violates a unique index |
| `ProcessInstances.Tables.AddCommandsToQueue` | internal/process/commandqueue.go:14-38 | all of the commands are added in order, as `AddAllQueues` says, or adding one fails |
| `ProcessInstances.AddAllQueues` | internal/process/commandqueue.go:14-38 | afterwards each command without a key is queued, each key is claimed, by a queued command if it was new, nothing that was queued or claimed is lost, and nothing else is queued or claimed |
| `ProcessInstances.AddAllIdle` | internal/schema/ddl/10-commandqueue/10-funcs.sql:24-42 | adding commands changes nothing if and only if every one's key was claimed before |
| `ProcessInstances.Tables.PersistDeadlines` | internal/process/instancestate.go:182-220 | succeeds if and only if the IDs are unused, and then schedules all of them for the instance |
| `ProcessInstances.Tables.EndInstance` | internal/process/instancestate.go:146-178 | the instance is ended, without state, and none of its deadlines is left |
| `ProcessInstances.Tables.SaveInstance` | internal/process/instancestate.go:104-142 | the state is saved, or nothing changes and the delivery fails |
| `ProcessInstances.Tables.ApplyScope` | internal/process/sink.go:291-321 | which of the three results, and exactly which effects, a handler's scope has |
| `ProcessInstances.Tables.HandleDelivery` | internal/process/deadlinepump.go:127-257 | success has all of the handler's effects and removes the deadline with them; failure changes neither instances nor deadlines |
| `ProcessInstances.Tables.DoHandle` | internal/messagepump/pump.go:227-301 | what the transaction commits, if it does: all of the effects without the deadline, or the deadline with one more failure and every instance as it was |
| `ProcessInstances.Tables.Dispatch` | internal/process/sink.go:189-324 | which of the three results, exactly; the effects of a handled event: its commands queued, the instance ended without state and deadlines, or its state saved if it changed and its deadlines scheduled, and nothing else; no change at all if the instance has ended |
| `ProcessInstances.CommitKeeps` | internal/process/deadlinepump.go:205-256 | a commit keeps ended instances without state and deadlines, and changes only the instance that it has locked |
| `ProcessInstances.EndedForGood` | internal/process/instancestate.go:146-178 | in every run, once ended always ended, without state or deadlines, and no handler runs on the instance again |
| `ProcessInstances.BranchUnreachable` | internal/process/deadlinepump.go:170-175 | in every run the deadline pump never finds that the instance has ended |
| `ProcessInstances.DeadlineCommit` | internal/process/deadlinepump.go:222-256 | a deadline disappears in its commit if and only if its delivery succeeded, and then with all of its effects and no others; otherwise it has exactly one more failure and no instance changes |
| `ProcessInstances.EventCommit` | internal/process/sink.go:189-324 | an event that was handled commits all of its effects and no others; one whose instance has ended commits nothing |
| `ProcessInstances.LockedWhileOpen` | internal/process/instancestate.go:45-101 | in every run an instance is locked by a worker exactly while that worker's transaction for it is open |
| `ProcessInstances.FailureIsClean` | internal/process/deadlinepump.go:222-250 | a failed delivery commits only its postponement if and only if the handler did not execute a command with no key or a new one before its root failed to be marshaled |
| `ProcessInstances.LeakyAttempt` | internal/process/deadlinepump.go:222-250 | otherwise, as in this attempt, the command is committed with the postponement |
| `ProcessInstances.FailedDeliveryRepeats` | internal/process/instancestate.go:112-125 | n such attempts commit n commands, and the deadline is still due |
| `ProcessInstances.DeadlineComesDue` | internal/process/deadlinepump.go:39-100 | a run from the initial state after which a deadline is due, as the lemmas above need |
| `Backoff.ComputeBackoff` | internal/messagepump/pump.go:305-319 | panics exactly if the shift keeps too little of the base; otherwise the delay is in [base, min(base * 2^n, cap)), drawn from all of it unless the product overflows, or the base if base or cap rule out a window |
| `Backoff.ShlKeeps` | internal/messagepump/pump.go:310 | the wrapping shift keeps exactly the low 64 - n bits of the base |
| `Backoff.LimitExact` | internal/messagepump/pump.go:310-318 | when the argument of `rand.N` is positive, in terms of base and n, and the limit, which is the lower of cap and product unless that overflows |
| `Backoff.SmallBaseOk` | internal/messagepump/pump.go:310-318 | it is positive for every n >= 1 if base * base < 2^63, which base * cap < 2^63 implies |
| `Backoff.EngineOk` | engine.go:447-451 | the engine's 10 ms and 5 min give a good limit for every n >= 1 |
| `Backoff.LargeBaseFails` | internal/messagepump/pump.go:310-318 | a base for which the limit falls below the base |
| `Backoff.NoFailureFails` | internal/messagepump/pump.go:305-318 | n = 0 always leaves `rand.N` with zero, so it must not be passed |
| `Membership.LocalNodeIsResponsibleFor` | internal/cluster/membership.go:41-68 | in any order of the peers, true if and only if the membership is live and no peer has a higher hash, or an equal one and a lower ID |
| `Membership.SomeWinner` | internal/cluster/membership.go:31-40 | for any hash some live node is responsible |
| `Membership.OneWinner` | internal/cluster/membership.go:31-40 | and no other is, even if hashes collide |
| `Membership.JoinTakesToItself` | internal/cluster/membership.go:41-68 | another node keeps exactly the workloads that the joining node does not win |
| `Membership.LeaveGivesUpItsOwn` | internal/cluster/membership.go:41-68 | another node had exactly those of its new workloads that the leaving node did not have |
| `Membership.Consumer.FindResponsible` | internal/eventstream/consumer.go:82-88 | the streams whose workloads the node wins |
| `Membership.Consumer.StopOthers` | internal/eventstream/consumer.go:90-101 | exactly the consumers of other streams are stopped |
| `Membership.Consumer.StartMissing` | internal/eventstream/consumer.go:103-107 | exactly the missing consumers are started |
| `Membership.Consumer.Reconcile` | internal/eventstream/consumer.go:77-108 | afterwards exactly the responsible streams are consumed, no stream is ever consumed twice at once or stopped when it is not consumed, and every stop precedes every start |
| `Membership.ConsumedOnce` | internal/eventstream/consumer.go:19-25 | with the same membership and streams, exactly one live node consumes each stream |
| `Pipeline.HandedIsSlice` | internal/eventstream/feed.go:138-252 | from the cache or from the source, what the feed hands to `fn` is the log's slice from the consumer's checkpoint |
| `Pipeline.HandedIsReceived` | internal/eventstream/consumer.go:143-158 | so it is what either sink assumes that it is given |
| `Pipeline.HandedStays` | internal/eventstream/consumer.go:143-158 | growth, eviction, resets and closures while `fn` runs do not change it |
| `Pipeline.HandIsReceive` | internal/eventstream/consumer.go:129-161 | in the joined system the sink's assumption about its segments holds at every call |
| `Pipeline.AlwaysPossible` | internal/eventstream/consumer.go:129-161 | each part is always ready for its half of a joined step |
| `Pipeline.OthersStayCoupled` | internal/eventstream/consumer.go:129-161 | no other step parts a consumer from its call |
| `Pipeline.StepKeeps` | internal/eventstream/consumer.go:112-176 | every joined step keeps both invariants and the coupling of each consumer's position to its call's |
| `Pipeline.DispatchedEndToEnd` | internal/eventstream/consumer.go:112-176 | in every run of catalog and consumers together, with takeovers, conflicts, crashes and restarts, the committed dispatches are exactly the log's matching events below the checkpoint |
| `Pipeline.CommandsGrow` | internal/schema/ddl/00-eventstream/10-funcs.sql:67-122 | what commands append is growth as the feeds assume it |
| `Pipeline.WatchDelivers` | internal/eventstream/source/local.go:123-158 | what a call to `Local.Watch` passes to `fn` is what the feeds assume of `Source.Watch` |
| `Pipeline.ReadDelivers` | internal/eventstream/feed.go:231-252 | an advancing segment of a read is one that the feeds assume of `Source.Read` |
| `Pipeline.ReadEnds` | internal/eventstream/source/source.go:39-58 | a read that has come to its end has reached what the feeds assume of one that returns nil |

## Left out

- Engine wiring, options, readiness, the gRPC server and connector, schema creation, application binding: plumbing.
- Offsets and sizes are unbounded integers; only `Backoff` models a machine word.
- `feed.consume`, `Catalog.Consume` and the retry loop of `startStreamConsumer` are modelled as the steps of transition systems, not as methods, because other parties act between their steps; with the rest at rest `Feeds.SoloRunBounded` and `Feeds.WaitsWithNothingLeft` speak of the loop as a whole.
- Two transactions that wait for each other: locks are taken when free and deadlock freedom is not claimed.
- The transition system of command handling lets a transaction get any stream that is not locked, or a new one; the preference of `acquire_for_write` is in `CommandTables`. How long it waits is not modelled.
- Idempotency keys in the transition system of command handling, where a command's ID is assumed to be new; they are modelled with the process handlers that enqueue commands.
- `Local.discover`, which learns of new streams by the same signals as a follower learns of events.
- `Memory.Watch` and `Memory.Append`; the in-memory source serves here as the reference for historical reads.
- The bus and the followers work on the levels of a topic rather than on its text; `SignalBus.CutByLevel` relates the two.
- A multi-envelope without any event, which `Validate` would have to judge, can not be represented in `Wire.Message`.
- Event observers, message encoding, UUID derivation, hashing, logging and panic capture.
- Wall-clock behaviour: heartbeats and expiry of nodes, polling intervals, jitter, timeouts, when a postponed delivery becomes due.
- A stream consumer that fails fatally, which cancels all the others, is not a step of `Membership.Consumer`.
- `CommandHandling.Move` lets ErrBusy happen to any attempt that has not locked an instance; exactly when the driver reports it is in `CommandTables.Tables.LockInstance`.
- Failures of the database itself, which roll a transaction back, are the transition systems' Rollback, Fail and Crash steps; the statement-level methods have none but violated constraints and missing rows.
- The projection sink is joined to the catalog only step by step (`Pipeline.HandedIsReceived`), not as a system of its own.
