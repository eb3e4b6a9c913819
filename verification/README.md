# Durable Streams, verified

A durable stream is an append-only log behind a URL. Streams can be forked at any offset, closed, deleted and expired;
producers append exactly once under `(producer, epoch, sequence)` tuples; readers resume from offsets or follow a
stream over server-sent events; webhook consumers are woken for the streams they subscribe to. This project models
the server's stores, the Go producer, the event stream and the webhook store, and proves what they promise.

## The stores

`StreamStore` is the specification: a state is a map of streams, and every public call (Create, Append, CloseStream,
CloseStreamWithProducer, Delete, Read, the cleanup of expired streams) is a function on states, with the errors, the
order of checks and the edge cases of the code. What is past its expiry is a parameter of every call. Each stream
carries a stamp that identifies its generation, as the identity of the stream object does in the code. Stores differ
in the framing of messages, and in what becomes of expired streams: the in-memory store lets a read mark the expired
stream it meets, and the file store leaves reads alone and sweeps in the background. The file store also refuses
messages over a size limit, which `FileCreation`, `FileStores` and `FileRefinement` add.

- `StoreInvariant`, `ForkGraph`: the invariant of reachable states, and the deletion cascade.
- `ForkReading`, `Resuming`: what forks read, reading on from an offset, and forks cut inside a message.
- `CreationAnswers`, `Recreation`: when a stream is created and what it then holds, and what a second request for it
  is told, over any run in between.
- `AppendAnswers`, `StreamSequences`, `Closing`, `StreamRemoval`: when an append is accepted and what it and its
  producer are told, the order of Stream-Seqs, what closing changes for good, and what deletion and expiry leave.
  `Untouched` says which calls cannot touch a stream.
- `SimpleLog`, `Refinement`, `RefinementSteps`, `RefinementRuns`: a reference log in which a fork is a plain copy made
  when it is created. Stores of any framing refine it over all runs.
- `FileRefinement`: the file store with its size limit, over all runs. `StoreAgreement`: when the in-memory store and
  the file store agree, and runs that part them.
- `MemoryStores`: the in-memory store as a class whose methods carry out the specification.
- `Segments`: frames, torn writes, scanning, and recovery of one file.
- `BboltStores`: the durable records. A record keeps whole seconds only.
- `FileLayouts`, `ChainReads`, `FileCreation`, `FileStores`, `FileRecovery`: the file store as a class over caches,
  segment files and records. After every call each segment is the encoding of the stream's own messages and each
  record the encoding of the cached metadata. Loading, repair of reference counts, and recovery are proved for
  arbitrary records where the code accepts arbitrary records. Reads are proved from any offset whatsoever.
- `ChainExact`: exactly which reads of the segments are right. `Leftovers`: what refused appends leave behind for good.
- `DeletionCrashes`, `Tombstones`: the states that a crash in the middle of a deletion leaves, and what becomes of them.
  `CrashStates`: such a state, and one that recovery damages. `Leases`: expiry across a restart.
- `OffsetText`: printing, parsing and ordering of offsets as text.

## Producers

- `ProducerDedup`: the server against arbitrary requests.
- `ProducerClients`: the Go producer's state as a class.
- `ExactlyOnce`: client, network and server as one system. The network loses, repeats and reorders requests and
  answers at will; anyone else may use the store at the same time.
- `ProducerWaits`: batches that arrive too early wait and are sent again, while old results are forgotten.
- `ProducerStranding`, `ProducerLimits`: the runs in which that goes wrong, and the pipeline size from which on there
  are such runs.

## Delivery and subscriptions

- `SseDelivery`: the live loop, which looks at the store twice a turn with anything happening in between. `SseClosing`:
  every event of a turn, and exactly when a connection announces that the stream is closed.
- `SseFraming`: how bodies become event text, and the Rust client's parser of that text. `Utf8`, `SsePieces`: the
  pieces of bytes in which that text reaches the client. `SseSessions`, `SseCheckpoints`: a whole connection from the
  store to the client, and the offset it hands over with data.
- `WebhookIndexes`, `WebhookStores`: subscriptions, consumers and the two inverted indexes; `WebhookRace`: a callback
  that comes too late; `WebhookAcks`: what acknowledgements leave to do; `Glob`: path patterns.

## What does not hold

Where the code does less than its documentation or a reader would expect, the exact condition is proved, and an input
or a run is given that fails:

- A fork that takes its content type or expiry from its source cannot be asked for again: the request that made it is
  then refused with a mismatch, although section 4.2 of PROTOCOL.md asks for a success (`Recreation.CreateTwice`,
  `Recreation.LeasedForkRefused`).
- The two stores do not always hold the same streams: a read of an expired stream with forks marks it in one and not
  in the other, and a message over 64 MiB is accepted by one and refused by the other (`StoreAgreement.StoresAgree`,
  `StoreAgreement.StoresPart`, `StoreAgreement.SizeParts`, `StoreAgreement.SizePartsLogs`).
- A pipelined producer can deadlock after one late copy of a request, whatever its size from two on; with one batch in
  flight it cannot (`ProducerLimits.DeadlockFreeExactly`, `ProducerStranding.LateCopyStrands`).
- After a restart, a batch that reaches the server before the first batch of the new epoch is refused and lost; with
  one batch in flight none is ever refused (`ProducerLimits.NeverRefusedExactly`,
  `ProducerLimits.RestartLosesBatch`).
- Recovery takes the length of a segment for the tail of its stream, which is wrong for every stream that forks off
  past the start (`FileRecovery.RecoveredTailExact`, `CrashStates.ForkLostInRecovery`).
- A crash in the middle of a deletion that goes on to soft-deleted sources leaves the next source as a tombstone that
  blocks its path. It stays until a creation at its path or the cleanup finds it expired, and for good when it has no
  expiry (`DeletionCrashes.CrashExact`, `Tombstones.TombstoneStays`, `CrashStates.TombstoneExample`).
- The time of last access is not stored, so every stream with a time to live counts as expired right after a restart
  (`Leases.LeaseAfterReopening`, `Leases.HourLost`).
- A file that ends right after the header of a frame reads without an error (`Segments.ReadAllDecodes`,
  `Segments.BareHeaderReads`).
- An append refused for a message that is too large leaves the frames before it in the segment. From then on no read
  of a root is right but one at the recorded tail, and accepted appends are not read back at their offsets
  (`FileStores.FileStore.Append`, `Leftovers.RootReadsAfterWrites`, `FileStores.LargeAfterSmall`).
- The file store seeks to the byte an offset names. A read from an offset that is not the end of a message starts in
  the middle of a frame, fails or returns other messages than the in-memory store, and may say nothing
  (`ChainExact.ChainReadExact`, `ChainReads.InsideHeader`).
- Offsets sort as text only up to sixteen digits (`OffsetText.StringOrderBound`).
- A text event whose bytes the network cuts inside a character arrives with replacement characters
  (`SsePieces.ByteCuts`, `SsePieces.SplitCharacter`).
- Text lines that begin with a space lose it on the way (`SseFraming.TextRoundTrip`).
- A chunk of data from a live connection carries the offset before its data, where the client documents the one to
  resume from: saved as a checkpoint, it repeats the chunk (`SseCheckpoints.CheckpointRepeats`).
- The first control event of a connection may name an offset past messages not sent yet
  (`SseDelivery.InitialControlExact`, `SseDelivery.MessageBetweenLooks`).
- The live loop dereferences a nil pointer when the stream goes away between its first two looks at the store and
  there was nothing to read (`SseDelivery.PanicsExactly`).
- A callback whose consumer is removed after it was fetched leaves index entries for a consumer that is not there, and
  a consumer made under a subscription deleted meanwhile is not indexed under it (`WebhookIndexes.StaleSubscribe`,
  `WebhookIndexes.OrphanConsumer`, `WebhookRace.LateCallback`).

## Model

| member | source | states |
|---|---|---|
| StoreInvariant.StepOk | packages/caddy-plugin/store/memory_store.go:153-875 | every public call keeps the reachable-state invariant (acyclic fork graph, counts equal to the number of forks, pinned tombstones, logs that fill the positions from fork point to tail) and every surviving stream only grows: its messages stay a prefix, a closed log stays as it is |
| StoreInvariant.Run | packages/caddy-plugin/store/memory_store.go:153-875 | the invariant and the growth of logs hold over every finite sequence of public calls |
| ForkGraph.CascadeExact | packages/caddy-plugin/store/memory_store.go:415-449 | deleting a childless stream never underflows a count, removes exactly the chain of soft-deleted sources left childless, keeps the graph consistent, and changes nothing of a survivor but its count |
| ForkReading.NoCycle | packages/caddy-plugin/store/memory_store.go:795-828 | no stream is its own ancestor in a reachable state |
| ForkReading.LiveDescendant | packages/caddy-plugin/store/memory_store.go:388-411 | every soft-deleted stream is kept for some live descendant |
| StoreInvariant.ViewBounds | packages/caddy-plugin/store/memory_store.go:830-875 | every message a read returns ends past the offset asked for and no later than the tail |
| ForkReading.Isolation | packages/caddy-plugin/store/memory_store.go:795-828 | no run of calls on other streams removes a live stream or changes what any read of it returns, or anything else of it but its fork count |
| ForkReading.ForkReads | packages/caddy-plugin/store/memory_store.go:795-828 | a fork always reads its source's messages up to the fork point as they were at its creation, then its own |
| ForkReading.ForkSnapshot | packages/caddy-plugin/store/memory_store.go:153-321 | the same, from the Create call on, over any later run in which the fork survives |
| Resuming.FollowIsOneRead | packages/caddy-plugin/handler.go:415-428 | a reader that goes on from the last offset it got, while the log grows between reads, receives exactly what one read of the final log returns |
| Resuming.Resume | packages/caddy-plugin/store/memory_store.go:830-875 | a read continued from its last offset, in any later state, has neither gap nor repetition |
| Resuming.ViewSorted | packages/caddy-plugin/store/memory_store.go:795-828 | offsets returned by one read strictly increase, across fork boundaries too |
| Resuming.ViewSplit | packages/caddy-plugin/store/memory_store.go:752-763 | a read is what it returns up to any later offset followed by the read from that offset |
| Resuming.JsonForkCut | packages/caddy-plugin/store/memory_store.go:767-789 | a JSON fork at (F, k) reads exactly the source's messages up to F, the next k, and its own initial data, whatever chain the source is at the end of |
| Resuming.JsonCut | packages/caddy-plugin/store/memory_store.go:224-235 | a JSON cut is refused exactly when fewer than k messages follow the offset |
| Resuming.BinaryForkCut | packages/caddy-plugin/store/memory_store.go:293-302 | a binary fork at (F, k) reads exactly the source's bytes up to F, the next k bytes, and its own initial data |
| Recreation.CreateAgain | packages/caddy-plugin/store/store.go:238-300 | after a creation, and any calls that the stream survives, asking for the path again is answered as found exactly when the second request agrees with the first in media type, time to live, expiry, source, fork offset and sub-offset, with what a fork takes from its source in place, and asks for a stream as closed as it is now; any other request is a mismatch and changes nothing |
| Recreation.CreateElsewhere | packages/caddy-plugin/store/store.go:238-300 | the same after calls on other streams only: the second request is found exactly when it agrees with the first, closure included |
| Recreation.CreateAfterClosing | packages/caddy-plugin/store/store.go:238-300 | once a call has closed the stream, only requests for a closed stream are found, whatever the first request asked for |
| Recreation.CreateTwice | packages/caddy-plugin/store/store.go:238-300 | the request that made a stream finds it again exactly when it says everything the stream is configured with; a fork that takes content type or expiry from its source is refused as a mismatch by the request that made it, against section 4.2 of PROTOCOL.md |
| Recreation.NewStreamMatches | packages/caddy-plugin/store/memory_store.go:325-348 | a new stream's configuration matches a second request exactly when that agrees with the one that made it |
| Recreation.TombstoneRefuses | packages/caddy-plugin/store/memory_store.go:157-178 | a path held by a soft-deleted stream refuses every creation and changes nothing |
| Recreation.ExpiredGivesWay | packages/caddy-plugin/store/memory_store.go:157-178 | an expired stream is deleted first: creation goes on as after a delete, unless forks keep the path |
| Recreation.LeasedForkRefused | packages/caddy-plugin/store/memory_store.go:325-348 | the failing request: a fork, without an expiry of its own, of a stream with a time to live |
| CreationAnswers.RootCreated | packages/caddy-plugin/store/memory_store.go:241-321 | a stream without a source is created unless its initial data is to be JSON and is not; it holds the values of that data, its tail lies past them by their size, and it starts without producers, Stream-Seq or closing request |
| CreationAnswers.ForkCreatedExactly | packages/caddy-plugin/store/memory_store.go:180-321 | a fork is created exactly when its source can be read, the content types agree, the offset lies within the source, what is to be cut off lies within what follows, and the initial data fits; a failure changes nothing |
| CreationAnswers.ForkCreated | packages/caddy-plugin/store/memory_store.go:241-321 | a new fork starts where it was cut, with the cut-off bytes and its initial data as its own messages, without the source's producers, Stream-Seq or closure, and its source counts one more fork |
| AppendAnswers.AcceptedExactly | packages/caddy-plugin/store/memory_store.go:579-715 | an append is accepted exactly when its producer headers are complete or absent, the stream is there, open and of the media type, its tuple and its Stream-Seq are next, and its body has at least one value or need not be JSON; the two JSON errors occur exactly when only the body is wrong |
| AppendAnswers.RefusedBefore | packages/caddy-plugin/store/memory_store.go:579-634 | each refusal before the producer is looked at has its exact condition, and every append that is not accepted changes nothing |
| AppendAnswers.AcceptedAnswer | packages/caddy-plugin/store/memory_store.go:672-715 | an accepted append answers with the new tail, which lies past the old one by the size of its messages; it says whether it closed the stream, confirms a producer's number, and changes no other stream |
| AppendAnswers.WrittenIsRead | packages/caddy-plugin/store/memory_store.go:718-748 | a read from the old tail then returns exactly the body's messages, the last at the offset answered, and says that this is all; reads from further back return what they did before and then these |
| AppendAnswers.TellsTheLast | packages/caddy-plugin/store/memory_store.go:64-151 | after any run, a producer that is not at its next tuple is told where it stands by the last tuple the run accepted from it: stale by the newer epoch, gap by the number expected, repetition by the last number, all with the tail |
| AppendAnswers.UpToDateExact | packages/caddy-plugin/store/memory_store.go:858-875 | a read says it reached the tail exactly when it ends there or the stream never held anything; a root says so from every offset up to its tail |
| StreamSequences.SeqsAscend | packages/caddy-plugin/store/memory_store.go:665-682 | over any run, the Stream-Seqs of the appends that added messages to one generation strictly increase in byte order, and the stream keeps the last |
| StreamSequences.ConflictAfterRun | packages/caddy-plugin/store/memory_store.go:665-682 | an append that passes the checks before is answered with a sequence conflict, and changes nothing, exactly when its Stream-Seq is not above the last that came with added messages |
| StreamSequences.ConflictExact | packages/caddy-plugin/store/memory_store.go:636-682 | the Stream-Seq decides nothing for an append that is refused or a duplicate anyway |
| Closing.PlainClose | packages/caddy-plugin/store/memory_store.go:452-480 | closing succeeds on every stream that is there and not expired, answers with its tail and whether it was closed before, and changes the one flag of the one stream |
| Closing.ProducerClose | packages/caddy-plugin/store/memory_store.go:482-577 | an accepted close under a tuple records the tuple and who closed, and changes nothing of the log |
| Closing.ClosedForGood | packages/caddy-plugin/store/memory_store.go:611-633 | after any call answered as closing, and any calls this generation survives, appends, closes and producers' closes change nothing and are told the tail it was closed at; the closing request sent again is a duplicate |
| StreamRemoval.DeleteExact | packages/caddy-plugin/store/memory_store.go:388-411 | delete succeeds exactly on a stream that is there and not a tombstone; with forks it becomes one and nothing else changes, without it goes with the tombstones left childless; every other stream stays but for its count |
| StreamRemoval.DeletedForGood | packages/caddy-plugin/store/memory_store.go:388-411 | nothing is read, written or deleted there again, whatever is called on other streams |
| StreamRemoval.SweepExact | packages/caddy-plugin/store/file_store.go:1292-1315 | nothing can be read of swept streams, those without forks are gone, all other streams stay but for their counts; the in-memory store sweeps nothing |
| StreamRemoval.ExpiredRead | packages/caddy-plugin/store/memory_store.go:838-848 | a read of an expired stream finds nothing, marks it in the in-memory store exactly when it has forks, and changes nothing else |
| Text.MatchesExactly | packages/caddy-plugin/store/store.go:303-350 | content types match exactly when what precedes their first semicolon, or the default, is the same letter by letter up to case |
| Text.JsonExactly | packages/caddy-plugin/store/store.go:357-360 | a stream is JSON exactly when its media type is |
| MemoryStores.MemoryStore.Create | packages/caddy-plugin/store/memory_store.go:153-321 | the recursive specification of creation, its claim on the path, fork checks, reference and rollback included |
| MemoryStores.MemoryStore.ResolveForkPoint | packages/caddy-plugin/store/memory_store.go:200-235 | the fork's source checks in order, the default offset, the bound at the tail and the sub-offset cut |
| MemoryStores.MemoryStore.ResolveForkSubOffset | packages/caddy-plugin/store/memory_store.go:767-789 | cuts after k messages or inside the right message |
| MemoryStores.MemoryStore.Append | packages/caddy-plugin/store/memory_store.go:579-715 | the specified answer and state: closed, content-type, producer and sequence checks in their order, then messages, producer state and closure together |
| MemoryStores.MemoryStore.AppendToStream | packages/caddy-plugin/store/memory_store.go:718-747 | each message ends where its bytes end, and the tail is the last end |
| MemoryStores.MemoryStore.CloseStream | packages/caddy-plugin/store/memory_store.go:452-479 | closes once, and reports an earlier closure |
| MemoryStores.MemoryStore.CloseStreamWithProducer | packages/caddy-plugin/store/memory_store.go:482-577 | a producer's close, deduplicated by its tuple |
| MemoryStores.MemoryStore.Delete | packages/caddy-plugin/store/memory_store.go:388-411 | soft-deletes a stream with forks, and removes any other with the cascade |
| MemoryStores.MemoryStore.DeleteWithCascade | packages/caddy-plugin/store/memory_store.go:415-449 | the loop form of the cascade, with underflow unreachable from reachable states |
| MemoryStores.MemoryStore.ReadOwnMessages | packages/caddy-plugin/store/memory_store.go:752-763 | exactly the messages ending past the offset, in order |
| MemoryStores.MemoryStore.ReadForkedStream | packages/caddy-plugin/store/memory_store.go:795-828 | the recursive read over the fork chain, capped at every fork point |
| MemoryStores.MemoryStore.Read | packages/caddy-plugin/store/memory_store.go:830-875 | the read with its error cases, its up-to-date flag and the marking of an expired source |
| AppendChecks.CheckAppend | packages/caddy-plugin/store/memory_store.go:579-690 | the checks of an append, in order, decide what the specification decides |
| RefinementRuns.RunRefines | packages/caddy-plugin/store/memory_store.go:795-828 | after any calls at all, with offsets the store returned, a store of any framing and without a size limit holds exactly the streams of a log that copies at fork time and never shares, and a read from the i-th offset returns that log's payloads from the i-th on |
| FileRefinement.FileRunRefines | packages/caddy-plugin/store/file_store.go:909-975 | after any calls at all that leave no frames of a refused append behind, the file store, which refuses messages over its limit, holds exactly the streams of that log with the same limit, and reading its segments from the i-th offset succeeds and returns the payloads from the i-th on |
| FileRefinement.PositionIsBoundary | packages/caddy-plugin/store/file_store.go:909-975 | every position of the log is a boundary of the stream in the file store, whatever chain it is at the end of |
| StoreAgreement.StoresAgree | packages/caddy-plugin/store/file_store.go:978-1027 | the in-memory store and the file store, with its framing and its size limit, hold and mark the same streams and read the same payloads from each after every call of a run exactly when no read meets an expired stream with forks that is not marked yet, no cleanup finds a stream that is not marked and held by forks, and no creation or append is kept from succeeding by the size of a message alone |
| StoreAgreement.StoresReadAlike | packages/caddy-plugin/store/file_store.go:909-975 | over such runs, what the file store reads in its segments from the offset of the i-th message is what the in-memory store reads from that message on |
| StoreAgreement.StoresPart | packages/caddy-plugin/store/memory_store.go:839-847 | a run that parts them: a stream expires, is read, and its fork is deleted; the in-memory store has then collected it and the file store has not |
| StoreAgreement.SizeParts | packages/caddy-plugin/store/segment.go:42-45 | a call that parts them: creating a stream with one message over the limit |
| StoreAgreement.SizePartsLogs | packages/caddy-plugin/store/file_store.go:815-843 | a run that parts what they read: an append of one message over the limit |
| RefinementRuns.CreateRefines | packages/caddy-plugin/store/file_store.go:162-398 | without a size limit, creation answers alike on both, at corresponding positions, for roots and forks |
| FileRefinement.FileCreateRefines | packages/caddy-plugin/store/file_store.go:162-398 | with the file store's limit, creation is refused for the size of its data exactly when it would succeed without the limit and has a message over it, and then only makes room; any other creation answers alike on both sides |
| RefinementSteps.AppendRefines | packages/caddy-plugin/store/file_store.go:641-794 | an append within the size limit, or to a store without one, is answered alike and adds the same payloads on both sides |
| RefinementSteps.DeleteRefines | packages/caddy-plugin/store/file_store.go:442-511 | deletion removes and marks the same streams on both sides |
| Refinement.ViewFrom | packages/caddy-plugin/store/file_store.go:909-975 | reading the chain from the i-th position returns the payloads from the i-th on |
| Segments.TornWrite | packages/caddy-plugin/store/segment.go:249-291 | wherever the encoding of a message list is cut, the scan returns the length of the longest prefix of whole messages, and those are what the file holds |
| Segments.ScanIsLongest | packages/caddy-plugin/store/segment.go:249-291 | for arbitrary bytes, no longer sequence of whole messages is a prefix of the file |
| Segments.ScannedIsEncoded | packages/caddy-plugin/store/segment.go:249-291 | for arbitrary bytes, what the scan keeps is a well-formed sequence of frames |
| Segments.RecoveryIdempotent | packages/caddy-plugin/store/file_store.go:1408-1449 | truncating twice changes nothing more |
| Segments.RecoveredReads | packages/caddy-plugin/store/segment.go:117-151 | after truncation, reading returns exactly the whole messages and no error |
| Segments.ReadAllDecodes | packages/caddy-plugin/store/segment.go:62-81 | for arbitrary bytes, reading returns the whole frames, and succeeds exactly when the torn tail is empty or a bare header |
| Segments.BareHeaderReads | packages/caddy-plugin/store/segment.go:62-81 | the failing file: one header and nothing more reads as empty and without an error |
| Segments.BigEndianOrder | packages/caddy-plugin/store/segment.go:41-90 | byte order of the length prefixes is the order of the lengths |
| Segments.BigEndianRoundTrip | packages/caddy-plugin/store/segment.go:41-58 | the four-byte length round-trips in both directions |
| Segments.SegmentFile.WriteMessage | packages/caddy-plugin/store/segment.go:41-58 | appends exactly one frame or refuses a message over the limit, leaving the file alone |
| Segments.SegmentFile.ReadMessage | packages/caddy-plugin/store/segment.go:62-81 | one frame at a position, with its four ways to fail |
| Segments.SegmentFile.ReadMessages | packages/caddy-plugin/store/segment.go:117-151 | all messages from an offset on, with the offsets they end at and the first error |
| Segments.SegmentFile.Scan | packages/caddy-plugin/store/segment.go:249-291 | the length of the leading whole frames |
| Segments.SegmentFile.Recover | packages/caddy-plugin/store/file_store.go:1408-1449 | leaves exactly the whole frames and reports how many bytes went |
| BboltStores.RecordRoundTrip | packages/caddy-plugin/store/bbolt.go:95-260 | a record gives back its metadata exactly when all its offsets are pairs of uint64 values, and then all of it but fractions of a second |
| BboltStores.DurableTwice | packages/caddy-plugin/store/bbolt.go:95-161 | storing what was read back writes the same record |
| BboltStores.BboltMetadataStore.Put | packages/caddy-plugin/store/bbolt.go:95-161 | stores the whole record |
| BboltStores.BboltMetadataStore.Get | packages/caddy-plugin/store/bbolt.go:164-260 | rebuilds the metadata, or fails at an offset that does not parse |
| BboltStores.BboltMetadataStore.Delete | packages/caddy-plugin/store/bbolt.go:281-296 | removes one record and no other |
| BboltStores.BboltMetadataStore.UpdateOffset | packages/caddy-plugin/store/bbolt.go:299-339 | changes offset and sequence of one record and nothing else |
| BboltStores.BboltMetadataStore.UpdateAppendState | packages/caddy-plugin/store/bbolt.go:342-406 | offset, sequence, producer state and closure in one change |
| BboltStores.BboltMetadataStore.SetClosed | packages/caddy-plugin/store/bbolt.go:519-563 | changes closure only |
| BboltStores.BboltMetadataStore.IncrementRefCount | packages/caddy-plugin/store/bbolt.go:566-599 | adds one reference |
| BboltStores.BboltMetadataStore.DecrementRefCount | packages/caddy-plugin/store/bbolt.go:603-640 | takes one reference off and reports count and mark |
| BboltStores.BboltMetadataStore.SoftDelete | packages/caddy-plugin/store/bbolt.go:643-676 | sets the mark only |
| FileLayouts.SegmentRead | packages/caddy-plugin/store/file_store.go:909-975 | reading a fork's segment from the physical position of a logical offset, and moving the result back, returns its own messages past that offset |
| FileLayouts.RootRead | packages/caddy-plugin/store/file_store.go:978-1027 | a root's segment read from a boundary returns its messages past it |
| FileLayouts.ReturnedIsBoundary | packages/caddy-plugin/store/file_store.go:978-1027 | every offset a read returned is a position the translated read is exact at, for good |
| FileLayouts.TailIsBoundary | packages/caddy-plugin/store/file_store.go:978-1027 | the tail is such a position |
| FileLayouts.StartIsBoundary | packages/caddy-plugin/store/file_store.go:978-1027 | so is the start |
| FileLayouts.TailOfSegment | packages/caddy-plugin/store/file_store.go:797-843 | a stream's tail is its fork point plus the length of its segment |
| FileLayouts.CommitRecord | packages/caddy-plugin/store/bbolt.go:342-406 | the one transaction of an append turns the old record into exactly the record of the new metadata |
| FileStores.FileStore.Create | packages/caddy-plugin/store/file_store.go:162-398 | every creation keeps the store in a reachable, laid-out state and gives the specified answer and stream, a fork with a sub-offset whenever it counts from the end of a message; from inside a frame the sub-offset counts through what the bytes there read as; initial data with a message over the size limit is refused, the reference given back and the directory removed |
| FileStores.FileStore.CreateFork | packages/caddy-plugin/store/file_store.go:265-398 | takes the reference, writes prefix and initial data, and gives the reference back when that fails, a message over the size limit included |
| FileStores.FileStore.Append | packages/caddy-plugin/store/file_store.go:641-794 | answers as specified, and log, cache and record move together; a body with a message over the size limit is refused, changes no metadata, and leaves the frames before that message behind, so that the store stays laid out exactly when there are none |
| FileStores.FileStore.AppendToStream | packages/caddy-plugin/store/file_store.go:797-843 | writes the frames of the body; a message over the limit is refused and exactly the frames before it stay in the file |
| FileStores.LeftoversRead | packages/caddy-plugin/store/segment.go:117-151 | what the segment of a root reads as then: the stream's own messages and after them those that were refused, at offsets past the tail |
| Leftovers.ReadsAfterWrites | packages/caddy-plugin/store/file_store.go:797-843 | whatever appends follow, accepted or refused for their size: from an offset up to the recorded tail a stream's segment reads as its own messages past the offset exactly when no refused append left frames behind and the offset is a boundary |
| Leftovers.RootReadsAfterWrites | packages/caddy-plugin/store/file_store.go:978-1027 | then a read of a root gives the right answer exactly when it asks at the recorded tail, or no refused append left frames behind and it asks at a boundary |
| FileStores.LargeAfterSmall | packages/caddy-plugin/store/file_store.go:815-821 | the failing body: a message that fits, and then one that does not |
| FileStores.FileStore.Read | packages/caddy-plugin/store/file_store.go:978-1027 | from any offset, what lies in the segments from there on; from the end of a message, the start or the tail it never fails and returns what the in-memory read returns |
| ChainExact.ChainReadExact | packages/caddy-plugin/store/file_store.go:909-975 | for every offset and every chain of forks: the bytes read from the offset are the messages past it exactly when it is the end of a message, the start of the stream or no less than the tail, or points into a message that a fork point cuts off while nothing read there shows; with a later read sequence, exactly when its byte offset is no less than the tail |
| ChainExact.BetweenMessages | packages/caddy-plugin/store/file_store.go:909-975 | when all forks were cut between messages, only boundaries are left |
| ChainReads.ChainAtBoundary | packages/caddy-plugin/store/file_store.go:909-975 | from such an offset the read over any chain of forks returns the messages past it |
| ChainReads.ChainLies | packages/caddy-plugin/store/file_store.go:909-975 | from any other offset within the stream, what the read takes for messages lies between there and the tail |
| ChainReads.InsideHeader | packages/caddy-plugin/store/segment.go:95-103 | the failing read: from the second byte of a stream with one message of one byte nothing is returned, and no error |
| FileStores.FileStore.ReadForkedStream | packages/caddy-plugin/store/file_store.go:909-975 | the recursion over caches and files reads, from any offset, the segments of the chain with positions moved by the fork points and cut at them |
| FileStores.FileStore.CloseStream | packages/caddy-plugin/store/file_store.go:1108-1138 | closes in cache and record alike |
| FileStores.FileStore.CloseStreamWithProducer | packages/caddy-plugin/store/file_store.go:1141-1241 | a producer's close as specified, in one transaction; with an empty producer id the record is left without the producer's state and no longer agrees with the cache |
| FileStores.FileStore.Delete | packages/caddy-plugin/store/file_store.go:442-467 | marks or removes, in cache, files and records |
| FileStores.FileStore.DeleteWithCascade | packages/caddy-plugin/store/file_store.go:471-511 | the cascade over cache, files and records, with underflow unreachable |
| FileStores.FileStore.CleanupExpiredStreams | packages/caddy-plugin/store/file_store.go:1292-1315 | sweeps every expired stream, in whatever order the cache yields them |
| FileStores.FileStore.ResolveForkSubOffset | packages/caddy-plugin/store/file_store.go:846-884 | cuts after k messages or inside the first message of what the read at the offset returns |
| FileCreation.FileForkOk | packages/caddy-plugin/store/file_store.go:846-884 | from any offset, the fork point found lies within the source and the prefix fits into a frame |
| FileCreation.FileCreateAtBoundary | packages/caddy-plugin/store/file_store.go:162-398 | a creation that counts its sub-offset from the end of a message is the specified one, but for data that does not fit |
| FileCreation.FileCreateOk | packages/caddy-plugin/store/file_store.go:162-398 | every creation keeps the reachable-state invariant |
| FileStores.FileStore.LoadCache | packages/caddy-plugin/store/file_store.go:110-116 | loads exactly the decodable records, or stops |
| FileStores.FileStore.ReconcileRefCounts | packages/caddy-plugin/store/file_store.go:121-141 | for any loaded cache whatsoever, every cached and stored count becomes the number of loaded forks, and nothing else changes |
| FileStores.FileStore.Start | packages/caddy-plugin/store/file_store.go:52-107 | loads and repairs |
| FileStores.FileStore.Reopen | packages/caddy-plugin/store/file_store.go:52-107 | reopening after an orderly run rebuilds the same offsets, producer states, closure, fork graph and expiry up to fractions of a second |
| Leases.LeaseEnds | packages/caddy-plugin/store/store.go:218-235 | a lease lasts up to and including its last instant, counted from the last access or as a time of day |
| Leases.LeaseAfterReopening | packages/caddy-plugin/store/store.go:218-235 | a restart, after which the time of last access is the zero time, changes whether a stream counts as expired exactly when it was not expired and has a time to live or an expiry within the second that storing cuts off |
| Leases.ExpiredAfterReopening | packages/caddy-plugin/store/store.go:218-235 | after a restart exactly the streams that were expired are, and those that do not keep their lease |
| Leases.HourLost | packages/caddy-plugin/store/store.go:218-235 | the failing lease: a stream accessed this moment, with an hour to live, cannot be read after a restart |
| FileRecovery.RepairIsDurable | packages/caddy-plugin/store/file_store.go:121-141 | for any records, after repair each stored record decodes to the loaded metadata with its count set to the number of loaded forks |
| FileRecovery.RepairTwice | packages/caddy-plugin/store/file_store.go:121-141 | repairing twice changes nothing more |
| DeletionCrashes.ReadableLeft | packages/caddy-plugin/store/file_store.go:110-116 | after a crash that cut off a deletion, the remaining records can be loaded, whatever counts they hold |
| DeletionCrashes.CrashExact | packages/caddy-plugin/store/file_store.go:471-511 | a crash after any number of records of a cascade went: starting again lays out the rest with all forks counted right, in a reachable state exactly when the whole cascade was done, and it is then the state the deletion leaves; otherwise the stream whose record would have gone next is a tombstone without forks |
| CrashStates.TombstoneExample | packages/caddy-plugin/store/file_store.go:471-511 | a run that reaches such a deletion: create, fork, delete the source, begin to delete the fork |
| Tombstones.TombstoneStays | packages/caddy-plugin/store/file_store.go:1292-1315 | from then on the tombstone stays through any run of calls exactly when no call finds it expired and takes its path or sweeps it |
| FileRecovery.CleanReopen | packages/caddy-plugin/store/file_store.go:110-141 | after an orderly run the records rebuild the layout and repair finds nothing to do |
| FileRecovery.RootRecovers | packages/caddy-plugin/store/file_store.go:1375-1449 | for a root, wherever the write was torn and whatever offset the record had, segment and record end up at the longest run of whole messages |
| FileRecovery.RecoveredTailExact | packages/caddy-plugin/store/file_store.go:1388-1403 | after an orderly run, recovery leaves a stream's record as it is exactly when its own messages start at the beginning of the log |
| FileRecovery.EmptyForkLost | packages/caddy-plugin/store/file_store.go:1388-1403 | a fork with nothing of its own recovers with its tail at the start, below its fork point |
| CrashStates.ForkLostInRecovery | packages/caddy-plugin/store/file_store.go:1375-1406 | the failing run: one message, a fork, and a recovery after which the fork's record says its log is empty |
| FileRecovery.RecoverSegment | packages/caddy-plugin/store/file_store.go:1408-1449 | keeps exactly the whole frames |
| FileRecovery.RecoverStore | packages/caddy-plugin/store/file_store.go:1375-1406 | every segment truncated to whole frames, every record at that length, records without a segment dropped; it stops at a record it cannot decode, and then the streams before it are recovered and the others are as they were |
| ProducerDedup.Dedup | packages/caddy-plugin/store/memory_store.go:64-151 | against any requests whatsoever, the tuples a producer gets accepted on one generation of a stream are gapless, and the kept state is the last of them |
| ProducerDedup.HistoryBuilds | packages/caddy-plugin/store/memory_store.go:579-715 | log and producer states at the end of any run are what the accepted requests built; a rejected or duplicate request adds nothing |
| ProducerDedup.GaplessIncreases | packages/caddy-plugin/store/memory_store.go:64-151 | accepted tuples strictly increase lexicographically, so none is accepted twice |
| ProducerDedup.EpochsAreComplete | packages/caddy-plugin/store/memory_store.go:64-151 | in every epoch a fresh producer got exactly 0, 1, 2, ... accepted |
| ProducerDedup.DuplicateWasAccepted | packages/caddy-plugin/store/memory_store.go:640-687 | a request answered as a duplicate names a tuple accepted before |
| ProducerDedup.CloseAccepts | packages/caddy-plugin/store/memory_store.go:523-562 | closing under a tuple accepts the tuple and no data |
| ProducerClients.IdempotentProducer.Append | packages/client-go/idempotent_producer.go:304-350 | one more pending item, sent at once when the batch is full and the pipeline has room |
| ProducerClients.IdempotentProducer.SendCurrentBatchLocked | packages/client-go/idempotent_producer.go:537-610 | takes all pending items under the next number, or leaves everything |
| ProducerClients.IdempotentProducer.SignalSeqComplete | packages/client-go/idempotent_producer.go:468-504 | records the result and forgets exactly the entries three pipelines back |
| ProducerClients.IdempotentProducer.WaitForSeq | packages/client-go/idempotent_producer.go:507-534 | the recorded result, or a waiter |
| ProducerClients.IdempotentProducer.Restart | packages/client-go/idempotent_producer.go:455-465 | a new epoch from number 0 |
| ProducerClients.BuildBody | packages/client-go/idempotent_producer.go:613-645 | the JSON array or the concatenation of a batch |
| ProducerClients.SignalExact | packages/client-go/idempotent_producer.go:468-504 | a completed sequence is answered with its result from then on; others of its epoch up to three pipelines behind are answered as before, the rest are forgotten, other epochs untouched |
| ProducerClients.JoinLays | packages/client-go/idempotent_producer.go:613-645 | the items of a JSON batch lie one after the other, whole, with one comma between two of them |
| ExactlyOnce.ExactlyOnceDelivery | packages/client-go/idempotent_producer.go:537-740 | under any loss, duplication and reordering and any restarts: epoch by epoch, what the server accepted is exactly the first so many batches, in order, each once and whole; the batches hold the appended items in order; whatever was acknowledged was accepted |
| ExactlyOnce.EpochIsPrefix | packages/client-go/idempotent_producer.go:537-740 | no hole in any epoch, in every state that satisfies the protocol invariant |
| ExactlyOnce.PartsAreItems | packages/client-go/idempotent_producer.go:613-645 | the messages on the server are the items of a JSON batch, and the bytes of any batch |
| ProducerWaits.WaitsAreSafe | packages/client-go/idempotent_producer.go:697-718 | when every request is answered with success, duplicate or gap and no copy gets a waiting batch accepted: no batch fails, waits span less than a pipeline, awaited results are still on record, and the first unresolved batch is never blocked |
| ProducerWaits.NeverStuck | packages/client-go/idempotent_producer.go:507-534 | under the same conditions some batch can always move |
| ProducerWaits.CleanupSparesAwaited | packages/client-go/idempotent_producer.go:494-504 | no signal deletes an entry that a waiting batch waits for or will wait for |
| ProducerWaits.LateCopyExact | packages/client-go/idempotent_producer.go:697-718 | a late copy of a request breaks the protocol invariant exactly when it gets a batch accepted that was told to wait |
| ProducerLimits.DeadlockFreeExactly | packages/client-go/idempotent_producer.go:697-718 | no run in which every request is answered with success, duplicate or gap ends in a deadlock, for any copies at all, exactly when the pipeline holds one batch at most |
| ProducerStranding.LateCopyStrands | packages/client-go/idempotent_producer.go:494-504 | without that condition the pipeline deadlocks: for every size from two there is a run, all requests answered, that ends with one batch waiting for an entry already forgotten |
| ProducerStranding.StrandedForever | packages/client-go/idempotent_producer.go:507-534 | such a batch stays blocked whatever happens next |
| ProducerWaits.RefusedExactly | packages/caddy-plugin/store/memory_store.go:104-121 | a request of the current or a newer epoch is refused exactly when it overtakes the first of an epoch new to the server |
| ProducerLimits.RestartLosesBatch | packages/client-go/idempotent_producer.go:455-465 | a run of any pipeline of two or more that loses a batch: after a restart the second batch arrives first, is refused, and has failed for the client |
| ProducerLimits.NeverRefusedExactly | packages/client-go/idempotent_producer.go:455-465 | no request of a batch in flight is ever refused, in any run, exactly when the pipeline holds one batch at most |
| SseDelivery.HandleSse | packages/caddy-plugin/handler.go:606-776 | the connection, from its opening look at the stream on, sends exactly the specified events for every sequence of store states it meets |
| SseDelivery.TakeTurn | packages/caddy-plugin/handler.go:648-763 | one pass through the loop, with the two looks at the store in different states |
| SseDelivery.CloseIsFinal | packages/caddy-plugin/handler.go:695-751 | whenever the connection says the stream is closed, it has sent exactly all messages past the starting offset of the now frozen log, once each and in order |
| SseDelivery.Delivers | packages/caddy-plugin/handler.go:648-763 | at any moment, the data events so far are exactly the messages between the start and where the connection stands |
| SseDelivery.InitialControlExact | packages/caddy-plugin/handler.go:709-721 | when the first event of a connection is a control event without data, resuming from the offset it names misses nothing exactly when the tail did not move between the turn's two looks at the store, or did not move past the offset the client asked for |
| SseDelivery.MessageBetweenLooks | packages/caddy-plugin/handler.go:648-721 | the failing turn: a message appended between the two looks is passed over by the offset sent |
| SseDelivery.PanicsExactly | packages/caddy-plugin/handler.go:709-716 | the loop dereferences a nil metadata pointer exactly when its first read finds nothing and its first look at the metadata fails |
| SseClosing.CloseAnnounced | packages/caddy-plugin/handler.go:606-776 | a connection ends with the closure exactly when the stream is there at first and there is a turn up to which all reads succeed and whose metadata says closed at the offset of the last message delivered by then, or the starting offset, unless the first turn panics |
| SseClosing.ClosingEvent | packages/caddy-plugin/handler.go:695-760 | it has then delivered what its turns read, and its last event is the closing control event at that place |
| SseClosing.TurnSends | packages/caddy-plugin/handler.go:648-763 | every event of a turn, and whether it ends the connection, from what its two looks at the store find |
| SseClosing.OtherEnds | packages/caddy-plugin/handler.go:648-660 | a connection that neither ends with the closure nor panics goes on until a read fails, or the client goes away |
| SseSessions.SessionReceived | packages/client-rust/src/iterator.rs:426-559 | the text of a whole connection, in whatever pieces it arrives, gives the client each data event's body once and in order and leaves it at the place the control events led to |
| SseSessions.ClientStands | packages/client-rust/src/iterator.rs:454-480 | after a connection that delivered anything, the client stands at the offset of the last message it was given |
| SseCheckpoints.CheckpointRepeats | packages/client-rust/src/iterator.rs:499-540 | the failing checkpoint: a chunk of data carries the offset before its data, so a client that resumes from it reads the same messages again, although the field is documented as the offset to read on from |
| SsePieces.ByteCuts | packages/client-rust/src/iterator.rs:426-585 | each network piece is decoded on its own: the text that reaches the parser is the text sent exactly when no piece begins inside a character, and then the client's chunks do not depend on the cuts |
| SsePieces.SplitCharacter | packages/client-rust/src/iterator.rs:584-585 | the failing cut: an event with a character of two bytes, cut between them, gives two replacement characters |
| SsePieces.CutCharacter | packages/client-rust/src/iterator.rs:584-585 | a character cut behind any of its bytes but the last arrives as one replacement character for what came before the cut and one for each byte after it |
| Utf8.PiecesDecode | packages/client-rust/src/iterator.rs:584-585 | pieces of well-formed UTF-8 text, decoded one by one with replacement, give the text exactly when none begins with a continuation byte |
| Utf8.DecodeEncoded | packages/client-rust/src/iterator.rs:584-585 | decoding with replacement gives encoded text back |
| SseFraming.CutsDoNotMatter | packages/client-rust/src/iterator.rs:426-559 | once the pieces are text, the client's chunks do not depend on where one ends and the next begins |
| SseFraming.DataEventParses | packages/caddy-plugin/handler.go:659-677 | any body's event parses as exactly one data event, never ended early |
| SseFraming.TextRoundTrip | packages/client-rust/src/iterator.rs:552-556 | the text comes back with its line ends made line feeds exactly when no line begins with a space |
| SseFraming.Base64RoundTrip | packages/client-rust/src/iterator.rs:500-530 | an encoded body comes back as its bytes |
| SseFraming.ControlParses | packages/client-rust/src/iterator.rs:440-497 | a control event moves the client to the position it names |
| SseFraming.OtherKinds | packages/client-rust/src/iterator.rs:499-544 | an event of another kind is dropped, and one called a message is a data event |
| SseFraming.Base64Refused | packages/client-rust/src/iterator.rs:500-530 | a base64 body of a wrong length, or one that does not decode, is an error |
| SseFraming.ControlRefused | packages/client-rust/src/iterator.rs:440-497 | a control event without readable JSON is an error and moves the client nowhere |
| SseFraming.SseReader.NextSseChunk | packages/client-rust/src/iterator.rs:414-559 | the line loop over the growing buffer computes the specified outcome |
| SseFraming.SseReader.Dispatch | packages/client-rust/src/iterator.rs:432-546 | an empty line hands over the pending event |
| WebhookStores.Store.CreateSubscription | packages/caddy-plugin/webhook/store.go:32-53 | creates, finds or refuses, and keeps both indexes in agreement |
| WebhookStores.Store.DeleteSubscription | packages/caddy-plugin/webhook/store.go:77-94 | removes the subscription and every consumer under it from all indexes |
| WebhookStores.Store.FindMatchingSubscriptions | packages/caddy-plugin/webhook/store.go:97-108 | exactly the subscriptions whose pattern fits the path |
| WebhookStores.Store.GetOrCreateConsumer | packages/caddy-plugin/webhook/store.go:123-149 | the consumer of subscription and stream, created on first use, indexed both ways; the indexes agree afterwards exactly when the subscription is still there or the consumer was |
| WebhookStores.Store.UpdateAcks | packages/caddy-plugin/webhook/store.go:183-191 | each held stream ends at the offset of the last acknowledgement that names it, no other stream and no other consumer changes, whether the consumer is still in the store or not |
| WebhookStores.Store.SubscribeStreams | packages/caddy-plugin/webhook/store.go:194-207 | takes up the streams not held yet, from their tails, with the index; the indexes agree afterwards exactly when the consumer is still in the store or its store entry holds all of them already |
| WebhookStores.Store.UnsubscribeStreams | packages/caddy-plugin/webhook/store.go:211-222 | gives up streams with the index and says whether none is left; the indexes agree afterwards exactly when the consumer is still in the store or its store entry holds none of them |
| WebhookStores.Store.HasPendingWork | packages/caddy-plugin/webhook/store.go:225-235 | whether some held stream's tail sorts after what was acknowledged |
| WebhookStores.Store.RemoveConsumer | packages/caddy-plugin/webhook/store.go:262-286 | takes a consumer out of every index |
| WebhookStores.Store.RemoveStreamFromConsumers | packages/caddy-plugin/webhook/store.go:290-313 | takes a stream from all its consumers and removes those left without any |
| WebhookStores.Store.Shutdown | packages/caddy-plugin/webhook/store.go:316-329 | leaves the store empty |
| WebhookIndexes.AckedExact | packages/caddy-plugin/webhook/store.go:183-191 | a held stream ends at the offset of the last acknowledgement that names it and keeps its offset without one; no stream comes or goes |
| WebhookAcks.AcknowledgeTails | packages/caddy-plugin/webhook/store.go:183-235 | once every held stream is acknowledged at its tail there is no pending work |
| WebhookAcks.NewConsumerBehind | packages/caddy-plugin/webhook/store.go:123-149 | a new consumer holds its one stream behind every tail |
| WebhookIndexes.DeletedWithoutTrace | packages/caddy-plugin/webhook/store.go:77-94 | no index names a consumer of a deleted subscription |
| WebhookIndexes.AgreeUnique | packages/caddy-plugin/webhook/store.go:331-349 | consumers and subscriptions determine agreeing indexes completely |
| WebhookIndexes.StaleSubscribe | packages/caddy-plugin/webhook/store.go:194-207 | subscribing through an object that is no longer in the store keeps the agreement exactly when every stream it takes up is held by the store's consumer of that id |
| WebhookIndexes.StaleUnsubscribe | packages/caddy-plugin/webhook/store.go:211-222 | unsubscribing through such an object keeps it exactly when the store's consumer of that id holds none of the streams |
| WebhookIndexes.OrphanConsumer | packages/caddy-plugin/webhook/store.go:123-149 | a consumer made after its subscription was deleted breaks it; one made under a subscription does not |
| WebhookRace.SubscribedAfterRemoval | packages/caddy-plugin/webhook/store.go:194-207 | the entry made for a removed consumer stays in the index |
| WebhookRace.LateCallback | packages/caddy-plugin/webhook/manager.go:272-347 | the failing run: a consumer is fetched, its subscription deleted, and one more stream subscribed to |
| WebhookIndexes.JoinedStreams | packages/caddy-plugin/webhook/store.go:194-207 | exactly the streams not held yet are added, for this consumer only |
| WebhookIndexes.LeftStreams | packages/caddy-plugin/webhook/store.go:211-222 | exactly the streams named are given up, for this consumer only |
| Glob.GlobMatch | packages/caddy-plugin/webhook/glob.go:7-11 | a path matches exactly when it can be cut into pieces, one for each pattern segment |
| Glob.MatchParts | packages/caddy-plugin/webhook/glob.go:22-57 | the recursion with its two loops decides exactly the recursive reading of the pattern |
| Glob.MatchesExactly | packages/caddy-plugin/webhook/glob.go:22-57 | that reading holds exactly when a partition exists: any number of segments for `**`, one for `*`, the decoded literal otherwise |
| Glob.PathRoundTrip | packages/caddy-plugin/webhook/glob.go:13-20 | a path's segments come back from it, however many slashes lead and trail it; slashes alone have none |
| Glob.DecodesStars | packages/caddy-plugin/webhook/glob.go:43-45 | an escaped star stands for a star, with either case of its digit, wherever it occurs in a segment |
| Glob.LiteralsMatch | packages/caddy-plugin/webhook/glob.go:43-50 | patterns of literal segments match themselves only |
| Glob.StarsMatch | packages/caddy-plugin/webhook/glob.go:26-41 | single stars match as many segments as there are stars, and a double star in front of them any number more |
| OffsetText.ParseString | packages/caddy-plugin/store/offset.go:22-24 | a printed offset parses back exactly when both components are uint64 values |
| OffsetText.StringOrder | packages/caddy-plugin/store/offset.go:126-140 | within sixteen digits, text order is offset order |
| OffsetText.StringOrderBound | packages/caddy-plugin/store/offset.go:22-24 | sixteen digits is exactly how far text order agrees with offset order |
| OffsetText.StartSortsFirst | packages/caddy-plugin/webhook/store.go:225-235 | "-1" sorts below every printed offset |
| OffsetText.WellFormedPairs | packages/caddy-plugin/store/offset.go:54-93 | the accepted texts are exactly two digit strings around one underscore |
| OffsetText.IsValidOffsetFormat | packages/caddy-plugin/store/offset.go:98-122 | the counting loop accepts exactly those |
| OffsetText.ParsesExactly | packages/caddy-plugin/store/offset.go:54-93 | nothing and "-1" are the start, "now" lies past every other position, a pair of numbers that fit in 64 bits is that position, and all else is malformed or out of range |
| OffsetText.StringInjective | packages/caddy-plugin/store/offset.go:22-24 | different offsets print differently |

## Left out

- FileStores.FileStore.Append: after an append that left frames behind, the store is no longer laid out, and the methods
  of the class say nothing more; `Leftovers` follows one stream and its segment through further appends.
- FileRefinement.FileRunRefines: runs in which no refused append leaves frames behind.
- FileStores.FileStore.LoadCache: requires records that lie under their own paths, as every write puts them.
- FileStores.FileStore.Start: the same.
- FileStores.FileStore.CleanupExpiredStreams: the order in which the cache yields paths is arbitrary and is returned;
  the paths are swept one by one in that order.
- ExactlyOnce.ExactlyOnceDelivery: speaks of one generation of an open stream that the producer is new to and of
  `AutoClaim` switched off; with it, several batches can be given number 0.
- ProducerWaits.WaitsAreSafe: supposes that no request is refused and that no late copy gets a waiting batch accepted;
  without the one or the other it fails for every pipeline of two or more (`ProducerLimits.NeverRefusedExactly`,
  `ProducerLimits.DeadlockFreeExactly`).
- ProducerWaits.NeverStuck: the same.
- ProducerClients.IdempotentProducer.WaitForSeq: a waiting batch asks again where the code wakes it through a channel; in
  the runs that strand a batch it asks for the first time after the entry is gone, so there is no channel to wake.
- ProducerClients.IdempotentProducer.SignalSeqComplete: the channels of registered waiters, for the same reason.
- ExactlyOnce and ProducerWaits let a restart happen only with nothing pending and nothing in flight, as the flush before
  it leaves it; an item appended between the flush and the new epoch is not part of their runs.
- StoreAgreement.StoresReadAlike: says nothing of payloads after the first call at which the two stores part. From a
  refused append on that left frames behind, the file store's side of StoreAgreement.StoresAgree is what its metadata says;
  the runs have parted by then.
- StreamStore has no size limit. What is proved for stores of any kind holds of the file store for messages within its
  limit, and from offsets that are boundaries.
- SseDelivery.Delivers: for the file store, the offset a connection starts from has to be a boundary; so for
  SseDelivery.CloseIsFinal and for Resuming.FollowIsOneRead, Resuming.Resume and Resuming.ViewSplit.
- ProducerLimits.NeverRefusedExactly: copies of requests of older epochs, which no batch in flight waits for. They are
  part of `ExactlyOnce`.
- RefinementRuns.RunRefines: fork offsets are positions the store returned, given to the reference log as message counts.
- SseDelivery.CloseIsFinal: within one generation of the stream; a stream deleted and created anew under the same path
  while a connection is open is another log.
- Time: `CreatedAt` and `LastUpdated`; which streams have expired is a parameter of every call. `Leases` computes it from
  the metadata and the times of last access, which no call of the stores sets in the model.
- Locks, goroutines and the long-poll manager: each public call is one step. `WaitForMessages` is not modelled.
- HTTP: headers, status codes, caching, cursors and CORS. `ErrStreamClosed` and the like are values of `Error`.
- Fixed-width overflow: offsets and counts are unbounded; where offsets are stored or parsed, the uint64 bound is explicit.
- Content types are compared byte by byte up to ASCII case; Unicode case folding and Unicode white space are not modelled.
- JSON: a body comes with its values, or without when it does not parse; splitting and joining are not defined further.
  A control event's JSON and base64 decoding are parameters of the event parser.
- Text bodies that are not UTF-8, which reach the client with replacement characters wherever they are cut.
- Files: a segment is a byte sequence and bbolt a map whose updates are atomic and succeed; fsync, directories, the file
  and reader pools, and failing writes are left out.
- Metadata is handed out by value; the pointers that the code returns to callers are not.
- `readOwnMessages` has a cap parameter that no caller uses, and results carry an already-closed flag; both are left out.
- The webhook store's wake states, epochs, tokens, timers and deliveries.
- The producer's `CloseStream`, its result channels, `OnError` and auto-claim; the Rust, PHP and batched producers.
