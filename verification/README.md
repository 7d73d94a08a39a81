# A verified model of the shard server's query, connection and notification core

The shard server streams PostgreSQL answers to its clients over gRPC, keeps a pool of connections and a store of
session connections, and fans notifications out to watching clients. This project models that core in Dafny and proves
what it keeps over every input, every run and every interleaving. `dafny verify dfyconfig.toml` checks all of it.

| file | models |
|---|---|
| `RawBatch.dfy` | the RPGB v1 batch format: the server's encoder, the client's decoder, round trip, truncation, size |
| `Chunks.dfy` | cutting rows into fetch slices and wire batches, the client's fold over chunks, what a stream means |
| `Postgres.dfy` | the transaction-block automaton of a session, result objects, transaction bracketing |
| `StreamingQuery.dfy` | the life of one query on one connection |
| `QueryStream.dfy` | the QueryStream call past request validation, with every exit |
| `StreamTheorems.dfy` | chunk grammar, end-to-end meaning, exact work, truthfulness of the trailer |
| `ConnectionPool.dfy` | the pool as a monitor and as an interleaving machine |
| `PoolUse.dfy` | what the calls of one query mean in every interleaving of the pool |
| `SessionStore.dfy` | the session store and its histories |
| `ChannelKey.dfy`, `NotifyRegistry.dfy`, `PublishRuns.dfy` | channel keys, the registry, interleaved publishing |
| `ListenTarget.dfy`, `SocketPath.dfy`, `Decimal.dfy` | the listen setting, the `..` test on socket paths, decimal printing |

## How the pieces fit

- **Environment.** Replies of PostgreSQL, cancellation, refused writes and exceptions are functions of a step number, and
  every theorem holds for all such functions. A PGresult is a handle; `Backend.Clear` and `StreamingQuery.Read` demand that it
  is still live, so no run clears a result twice or looks at one after clearing it.
- **From the call to the client.** `QueryStream.Serve` is the imperative call. Its contract says in `Emitted` which
  chunks were attempted and accepted, as the data chunks of a chain of row ranges. The lemmas of `StreamTheorems` take
  `Emitted` and say what the client makes of it, so every statement there is about every run of `Serve`.
- **From the call to the pool.** `Serve` records its calls on the pool; `PoolUse` maps them to steps of the pool's
  interleavings and states what becomes of the lease there.
- **From the monitor to interleavings.** Each method of `ConnectionManager` and of `NotifyRegistry` is one critical section
  and is tied to a function on values; the interleaving machines step with the same functions.

## Where the code does not do what one would expect

The model keeps these behaviours and states exactly when they happen.

- A failing DECLARE after a local BEGIN makes the thread lock a mutex that it already holds: the call never returns
  (`Open`, `Serve`: if and only if; `SelfDeadlock`).
- A pooled cursor query that fails to open, or hangs, keeps its lease for good (`Open`, `Serve`, `LeakedLease`); once every
  place is lost this way nobody is granted a connection again (`LeakedPoolNeverGrants`).
- A FETCH that fails with an empty error text ends the stream with status OK and a trailer that counts only the rows sent
  so far (`CountsTruthfully`, `SilentTruncation`).
- A cursor query without columns reports the row count of its first fetch only (`ZeroColumnCount`,
  `ZeroColumnMiscount`).
- A pooled direct statement that opens a transaction block gives its connection back as healthy with the block open, and a
  cursor query on it later neither commits nor ends that block (`ReturnsIdleIff`, `OpenBlockReturned`).
- Close runs inside the try block after the trailer has been written, so an exception there sends ERROR after TRAILER
  (`GrammarIff`, `ErrorAfterTrailer`).
- An error report or a cancellation leaves the last fetched PGresult uncleared: one if and only if a fetch had succeeded
  (`Serve`, `LeakedResult`).
- Warming the pool, or enlarging it, while a thread waits adds capacity without a notification (`WakeupsKeptIff`,
  `WarmLosesWakeup`).
- Channel keys are ambiguous as soon as a scope or a channel contains an inner colon (`AliasedIff`), and then a message can
  reach a client that never subscribed to its channel and scope (`MisdeliverableIff`, `OutOfScope`).
- A port that does not fit an int is stored modulo 2^32, so that the printed target may not parse back (`ListenRoundTripIff`,
  `WrappedPort`).

## Model

| member | source | states |
|---|---|---|
| RawBatch.U32RoundTrip | src/codec/raw_batch_encoder.cpp:9-17 | reading an appended little-endian uint32 gives the value back, wherever it sits in a buffer |
| RawBatch.EncodeRawPgBatch | src/codec/raw_batch_encoder.cpp:27-65 | the nested append loops produce exactly `BatchBytes` of the row range; a null result and an invalid range are errors |
| RawBatch.DecodeColumn | integration/lib/pg-binary-decode.js:195-219 | one pass of the column loop stores, in every row object, null for a NULL and the decoded bytes otherwise, and advances the offset over exactly those cells, or fails as the byte-level meaning does |
| RawBatch.DecodeRawPgBatch | integration/lib/pg-binary-decode.js:166-222 | the offset-advancing loops compute the meaning `DecodeBatch` of the payload: its rows, or the first error in reading order |
| RawBatch.CellRoundTrip | integration/lib/pg-binary-decode.js:199-217 | an encoded cell is read back as itself, NULL distinct from the empty value, and exactly its bytes are consumed |
| RawBatch.BatchCells | src/codec/raw_batch_encoder.cpp:46-62 | every cell of an encoded slice is recovered at its row and column |
| RawBatch.BatchEnds | integration/lib/pg-binary-decode.js:171-221 | the decoder accepts an encoding followed by any bytes, reads back its header, and stops exactly at its end |
| RawBatch.BatchRoundTrip | integration/lib/pg-binary-decode.js:166-222 | decoding an encoded slice gives the slice's row objects in order, whatever bytes follow it |
| RawBatch.BatchSize | src/codec/raw_batch_encoder.cpp:39-62 | an encoding has 16 bytes plus, summed row by row over its cells, 1 for NULL and 5 plus the length otherwise |
| RawBatch.PrefixAcceptedIffComplete | integration/lib/pg-binary-decode.js:171-221 | for every accepted payload, whoever made it, a non-empty prefix is accepted if and only if it keeps all consumed bytes, and then decodes to the same rows |
| RawBatch.TruncationDetected | integration/lib/pg-binary-decode.js:171-221 | every non-empty proper prefix of an encoding is rejected |
| RawBatch.RowKeepsLastColumn | integration/lib/pg-binary-decode.js:199-216 | in a row object a repeated column name holds its last column's value |
| RawBatch.RowKeys | integration/lib/pg-binary-decode.js:199-216 | the keys of a row object are exactly the column names |
| RawBatch.RowHoldsCell | integration/lib/pg-binary-decode.js:204-217 | a row object holds null for a NULL and only for a NULL, and the decoded bytes of every other value, the empty one included |
| RawBatch.BatchValues | integration/lib/pg-binary-decode.js:166-222 | the same of the rows decoded from an encoded slice, cell by cell |
| RawBatch.HeaderDecides | integration/lib/pg-binary-decode.js:167-189 | exactly which headers make the decoder return no rows, or reject a payload as too short, of a wrong magic, version or column count |
| RawBatch.WireFormat | src/codec/raw_batch_encoder.cpp:27-65 | the bytes of a two-by-two batch, spelled out |
| RawBatch.WireU32 | src/codec/raw_batch_encoder.cpp:9-17 | the lowest byte comes first |
| Chunks.CutsCover | src/service/mtdd_shard_service.cpp:226-300 | the batches of the two nested cutting loops cover the rows in order without gap, overlap or empty batch, none larger than either size |
| Chunks.CutsCount | src/service/mtdd_shard_service.cpp:226-300 | their number is floor(N/F)*ceil(F/W) + ceil((N mod F)/W) |
| Chunks.TagCounts | src/service/mtdd_shard_service.cpp:312-315 | the tag of a trailer is the command word, a space and the digits of the row count |
| Chunks.DecodeQueryStreamToPgResult | integration/lib/grpc-query-client.js:78-131 | the client's loop, with its early exits, computes the fold `ClientDecode` over the chunks |
| Chunks.ClientIgnores | integration/lib/grpc-query-client.js:83-120 | chunks of unknown kinds and trailers without content do not matter wherever they come |
| Chunks.ClientStops | integration/lib/grpc-query-client.js:85-92 | an ERROR chunk fails with its message, or without content ends the reading; nothing after it is looked at |
| Chunks.ClientNeedsSchema | integration/lib/grpc-query-client.js:104-108 | a BATCH before any SCHEMA with content makes the client fail |
| Chunks.ClientReports | integration/lib/grpc-query-client.js:93-119 | the last trailer and the last schema with content are the ones reported, and a SCHEMA chunk adds its rows |
| Chunks.DataFold | integration/lib/grpc-query-client.js:83-120 | after k data chunks of any chain of row ranges the client holds exactly the rows they cover, in order, and has not failed |
| Chunks.StreamMeaning | integration/lib/grpc-query-client.js:78-131 | what the client returns for data chunks followed by nothing, a trailer or an error |
| Chunks.EndToEnd | src/service/mtdd_shard_service.cpp:226-327 | for every answer and all fetch and wire sizes the client rebuilds exactly the answer's rows in order with their count |
| Postgres.BlockKept | src/pg/streaming_query.cpp:170-256 | any sequence of DECLARE, FETCH and CLOSE keeps the block open or closed as it was, possibly poisoned |
| Postgres.LostOnlyByDrop | src/pg/streaming_query.cpp:120-130 | a session becomes unusable only by a reply that drops the connection |
| Postgres.CursorQueryBrackets | src/pg/streaming_query.cpp:132-211 | a cursor query that began its own transaction leaves the session idle; inside a caller's transaction it issues no COMMIT or ROLLBACK and leaves that block; anything else takes a dropped connection |
| Postgres.TraceShape | src/pg/streaming_query.cpp:156-211 | the statements of a cursor query one by one, with COMMIT on a normal end and ROLLBACK otherwise, of an own transaction only |
| StreamingQuery.StreamingQuery.ReleaseConnection | src/pg/streaming_query.cpp:120-130 | a pooled lease is returned once, as broken if asked or if the session is lost; a session connection never reaches the pool; a second call does nothing |
| StreamingQuery.StreamingQuery.BeginIfNeeded | src/pg/streaming_query.cpp:132-154 | BEGIN is issued exactly in an idle session, a poisoned block is refused, and a local transaction is recorded exactly when BEGIN was accepted |
| StreamingQuery.StreamingQuery.EndTransaction | src/pg/streaming_query.cpp:156-168 | ends only a local transaction, and hangs exactly if the thread already holds the connection mutex |
| StreamingQuery.StreamingQuery.OpenCursor | src/pg/streaming_query.cpp:170-197 | outcome and statements for each transaction status, including the self-deadlock after a local BEGIN |
| StreamingQuery.StreamingQuery.ExecuteImmediate | src/pg/streaming_query.cpp:213-235 | hands out a result exactly when the statement is accepted with a known status, and clears it otherwise |
| StreamingQuery.StreamingQuery.Open | src/pg/streaming_query.cpp:258-278 | opens if and only if a connection was granted and the session can run it; hangs if and only if a local BEGIN is followed by a failing DECLARE; the statements and the error text in each case; a query that does not open keeps its lease if and only if it uses a cursor |
| StreamingQuery.StreamingQuery.AcquireConnection | src/pg/streaming_query.cpp:97-118 | the connection granted, a lease exactly for a query without a session, and the pool's or the store's text when there is none |
| StreamingQuery.StreamingQuery.Fetch | src/pg/streaming_query.cpp:237-298 | a cursor hands out the next at most fetch-size rows, a direct execution its whole answer once; failures leave the position and yield the error text |
| StreamingQuery.StreamingQuery.Close | src/pg/streaming_query.cpp:300-312 | closes what is open, commits only a local transaction, clears an unfetched result, returns the lease once; nothing is held afterwards, so a further call does nothing; an exception at any of its steps leaves exactly the later ones to Abort |
| StreamingQuery.StreamingQuery.Abort | src/pg/streaming_query.cpp:314-327 | as Close with ROLLBACK, and the lease goes back as broken |
| QueryStream.SliceBatch | src/service/mtdd_shard_service.cpp:288-291 | encoding rows of a fetched slice gives the same bytes as encoding those rows of the whole answer |
| QueryStream.SendBatchChunk | src/service/mtdd_shard_service.cpp:39-59 | sends one chunk, SCHEMA the first time and BATCH later, and nothing for an empty payload; refusal or cancellation leaves nothing accepted |
| QueryStream.SendSlice | src/service/mtdd_shard_service.cpp:288-299 | the batch loop sends exactly the next cuts of the slice, and on an early exit a prefix of them |
| QueryStream.NextResult | src/service/mtdd_shard_service.cpp:232-247 | each fetch clears the previous result before it keeps the new one, and the new one is the next slice |
| QueryStream.Inspect | src/service/mtdd_shard_service.cpp:249-282 | which results stop the loop, and under which schema state the others go on |
| QueryStream.Pump | src/service/mtdd_shard_service.cpp:226-300 | the fetch loop terminates; however it is left, the chunks sent are those of a prefix of the answer's batches, the FETCH count is exact, and the cause of the exit is the one named |
| QueryStream.Conclude | src/service/mtdd_shard_service.cpp:302-327 | an answer without rows gets one empty batch encoded from a live result; then the trailer follows with the number of rows sent |
| QueryStream.FetchCount | src/service/mtdd_shard_service.cpp:226-282 | an undisturbed cursor run issues ceil(N/F) + 1 FETCHes, 2 for an empty answer |
| QueryStream.RunOpened | src/service/mtdd_shard_service.cpp:225-344 | on every exit of an opened run, exceptions included, the query is closed or aborted, the lease is returned exactly once, and all results are cleared except at most the last on the other abort exits |
| QueryStream.Serve | src/service/mtdd_shard_service.cpp:207-345 | the whole call: chunks emitted and, undisturbed, all accepted; exactly when it hangs; statements and transaction block, opened or not; the lease returned once or lost; which result stays uncleared; FETCH count, the only silent truncation and what an error report implies about the replies; exactly when Close throws after the trailer; and that an undisturbed run streams the whole answer |
| StreamTheorems.RunGrammar | src/service/mtdd_shard_service.cpp:212-344 | every run's accepted chunks are SCHEMA BATCH* then at most one TRAILER or ERROR, or a lone one, if and only if no ERROR was accepted after a trailer because Close threw; a run that returns OK attempts a terminal chunk, exactly one except in that case; a cancelled one has none accepted |
| StreamTheorems.GrammarIff | src/service/mtdd_shard_service.cpp:225-344 | the grammar of every run of the call on its inputs: it can break only if an exception is raised at a step that the Close of an opened query comes to; on a call without cancellation, refused write or other exception it breaks if and only if that holds and PostgreSQL does not make the run report an error first |
| StreamTheorems.ReportedIffLoud | src/service/mtdd_shard_service.cpp:232-254 | a run that only PostgreSQL disturbs reports an error if and only if a FETCH that is needed is the first to fail, with a text, or the direct result cannot be used |
| StreamTheorems.RunMeaning | integration/lib/grpc-query-client.js:83-120 | what the client makes of every run, complete or cut short; it never meets a batch before the schema or a malformed batch |
| StreamTheorems.CompleteRun | src/service/mtdd_shard_service.cpp:226-327 | what a complete run sends is exactly the complete stream of its answer at its fetch and wire sizes |
| StreamTheorems.BatchSizesDoNotMatter | src/service/mtdd_shard_service.cpp:207-208 | two complete runs over the same answer give the client the same result whatever their fetch and wire sizes |
| StreamTheorems.ExactWork | src/service/mtdd_shard_service.cpp:226-310 | number of data chunks, rows per chunk and number of FETCHes of a complete run |
| StreamTheorems.ZeroColumnCount | src/service/mtdd_shard_service.cpp:259-273 | the trailer accepted for a cursor query without columns has the right count if and only if one fetch holds all rows |
| StreamTheorems.TrailerTruthfulIff | src/service/mtdd_shard_service.cpp:232-242 | the trailer of a streamed cursor run carries the answer's row count if and only if the replies do not make a FETCH before the last row the first to fail, with an empty error text |
| StreamTheorems.CountsTruthfully | src/service/mtdd_shard_service.cpp:225-334 | the same about every run of the call, on the replies alone; on an opened cursor query with columns that nothing else disturbs, such a FETCH occurs if and only if the run ends with status OK and a trailer that miscounts; without columns, the exact condition on the first FETCH |
| StreamTheorems.CommandReports | src/codec/query_meta.cpp:71-93 | every run of a direct statement without columns reports PostgreSQL's tag, and its affected-row count for a command or else the number of rows; on an undisturbed call every usable statement comes to that |
| StreamTheorems.OpeningErrors | src/service/mtdd_shard_service.cpp:212-217 | every run of a query that does not open sends one ERROR chunk with the text of the pool, the session store or PostgreSQL, text by text |
| StreamTheorems.ReturnsIdleIff | src/pg/streaming_query.cpp:300-312 | every run: a pooled connection goes back as healthy if and only if the run ended normally on a live session, and is then outside any transaction block if and only if a cursor query found it idle or a direct statement leaves it idle |
| StreamTheorems.SilentTruncation | src/service/mtdd_shard_service.cpp:312-327 | a concrete run that loses a row and still reports OK |
| StreamTheorems.SelfDeadlock | src/pg/streaming_query.cpp:182-190 | a concrete run that never returns, sends nothing and keeps its lease |
| StreamTheorems.LeakedLease | src/service/mtdd_shard_service.cpp:212-217 | a concrete run that reports an error and never returns its lease |
| StreamTheorems.ZeroColumnMiscount | src/service/mtdd_shard_service.cpp:259-273 | a concrete run in which two rows without columns are reported as one |
| StreamTheorems.OpenBlockReturned | src/pg/streaming_query.cpp:300-312 | a concrete run that gives a connection with an open transaction back as healthy |
| StreamTheorems.ErrorAfterTrailer | src/service/mtdd_shard_service.cpp:333-343 | a concrete run in which the client receives a TRAILER and then an ERROR |
| StreamTheorems.LeakedResult | src/service/mtdd_shard_service.cpp:232-240 | a concrete run that reports an error and leaves one result uncleared |
| ConnectionPool.ConnectionManager.Configure | src/pg/connection_manager.cpp:5-10 | the new pool state: size at least 1 |
| ConnectionPool.ConnectionManager.Warm | src/pg/connection_manager.cpp:17-30 | a connection made goes to the end of the idle queue, without a limit |
| ConnectionPool.ConnectionManager.AcquireLocked | src/pg/connection_manager.cpp:41-53 | waits if and only if nothing is idle and the pool is full, else takes the oldest idle connection or reserves a place |
| ConnectionPool.ConnectionManager.CreateFailed | src/pg/connection_manager.cpp:55-59 | a failed creation gives its place back |
| ConnectionPool.ConnectionManager.Release | src/pg/connection_manager.cpp:63-78 | gives the place back and keeps the connection only if it is neither broken nor unhealthy |
| ConnectionPool.LeaseSafety | src/pg/connection_manager.cpp:17-78 | over all interleavings: in_use_ is leases plus pending creations, no connection is idle twice, leased twice or idle while leased, and in_use_ + idle is at most the largest pool size so far plus the warm-up connections |
| ConnectionPool.FixedSizeSafety | src/pg/connection_manager.cpp:17-78 | the same with the pool size itself when it is never changed |
| ConnectionPool.BrokenNeverReturns | src/pg/connection_manager.cpp:71-74 | a connection released as broken is never idle or leased again |
| ConnectionPool.ClosedNeverReturns | src/pg/connection_manager.cpp:80-84 | a connection that is idle when the pool is closed is never handed out again |
| ConnectionPool.OldestFirst | src/pg/connection_manager.cpp:45-50 | of two idle connections no step takes the younger one first |
| ConnectionPool.NoLostWakeups | src/pg/connection_manager.cpp:41-78 | over all interleavings, stealing and spurious wake-ups included: while a thread waits, every Acquire that could proceed has a notified thread on its way, if no warm-up or enlargement happens while somebody waits |
| ConnectionPool.WaitersAreOwed | src/pg/connection_manager.cpp:41-78 | if threads wait and none is notified, nothing can be handed out and every place is a lease or a pending creation |
| ConnectionPool.StepWakesIff | src/pg/connection_manager.cpp:17-78 | a step keeps the wake-up property if and only if it is no warm-up or resize, nobody waits, or the threads already notified cover the capacity it adds: a condition on the state before the step |
| ConnectionPool.WakeupsKeptIff | src/pg/connection_manager.cpp:17-78 | over all interleavings: a run loses no wake-up if and only if each of its warm-ups and resizes was covered when it happened |
| ConnectionPool.WarmLosesWakeup | src/pg/connection_manager.cpp:26-29 | a concrete run in which a thread waits next to an idle connection |
| ConnectionPool.SignalledProceeds | src/pg/connection_manager.cpp:43-53 | a notified thread that re-enters while capacity is there gets a connection or a place |
| ConnectionPool.LeakedPoolNeverGrants | src/pg/connection_manager.cpp:41-53 | when all places are leaked leases, no interleaving grants a connection again unless a leaked one is returned, one is warmed up, or the pool grows beyond its leases |
| PoolUse.LeaseKept | src/pg/connection_manager.cpp:41-78 | a granted connection that is not returned is held by exactly one lease and is not idle, in every interleaving |
| PoolUse.ReturnedOnce | src/pg/connection_manager.cpp:63-78 | from grant to return a connection is leased alone; returned as broken it is never idle or leased again, else it goes to the end of the idle queue |
| PoolUse.LeaseInPool | src/pg/streaming_query.cpp:120-130 | every run of a pooled query in every interleaving that carries out its calls: held alone until returned, gone for good unless the run ended normally on a live session, and held for good if a cursor query does not open or hangs |
| SessionStore.SessionStore.constructor | src/pg/session_store.cpp:7 | the limit is at least 1 |
| SessionStore.SessionStore.GetOrCreate | src/pg/session_store.cpp:9-45 | answer and new map for each branch; an unhealthy session is gone even if no new one is made; other sessions are untouched |
| SessionStore.SessionStore.CloseAll | src/pg/session_store.cpp:47-50 | no session is left |
| SessionStore.SizeBounded | src/pg/session_store.cpp:26-44 | the map never exceeds the limit, over all histories |
| SessionStore.LimitRefusesIff | src/pg/session_store.cpp:18-31 | the limit refuses exactly the ids without a session when all places are taken; an id whose connection went bad always finds room |
| SessionStore.GetDecides | src/pg/session_store.cpp:13-44 | every call of every history: a healthy session is handed out again, an unhealthy one replaced by the new connection or dropped with the connect error, an id without one served if there is room, and no other session touched |
| SessionStore.Pinned | src/pg/session_store.cpp:18-24 | a session id keeps getting the same connection until that is found unhealthy or everything is closed |
| SessionStore.NeverShared | src/pg/session_store.cpp:33-44 | if every connect yields a new connection, two ids never get the same one at any two points of a history |
| ChannelKeys.KeySeparation | src/notify/channel_key.cpp:5-14 | for scopes without a colon two keys are equal if and only if channels and normalised scopes are |
| ChannelKeys.SameScopeIff | src/notify/channel_key.cpp:5-10 | two scopes are the same if and only if they are equal, or one is empty and the other is `__global__` |
| ChannelKeys.AliasedIff | src/notify/channel_key.cpp:12-14 | a key belongs to a second channel or scope if and only if the scope has a colon after its first character or the channel one before its last |
| NotifyRegistry.RelationFixesIndexes | src/notify/registry.cpp:34-56 | the relation of clients and keys determines both indexes: nothing stale or empty is stored |
| NotifyRegistry.NotifyRegistry.Subscribe | src/notify/registry.cpp:28-38 | adds exactly one pair and keeps the indexes mutually inverse; empty ids change nothing |
| NotifyRegistry.NotifyRegistry.RemoveClientFromKey | src/notify/registry.cpp:40-56 | removes exactly one pair from both indexes and drops emptied entries |
| NotifyRegistry.NotifyRegistry.Unsubscribe | src/notify/registry.cpp:58-67 | removes exactly one pair |
| NotifyRegistry.NotifyRegistry.UnsubscribeAll | src/notify/registry.cpp:69-84 | the loop removes exactly that client's pairs, in whatever order it walks the keys |
| NotifyRegistry.NotifyRegistry.RegisterWatch | src/notify/registry.cpp:122-130 | appends the stream; subscriptions are unchanged |
| NotifyRegistry.NotifyRegistry.UnregisterWatch | src/notify/registry.cpp:132-149 | removes every occurrence of the stream and an emptied entry; subscriptions are unchanged |
| NotifyRegistry.NotifyRegistry.Snapshot | src/notify/registry.cpp:95-110 | the targets are the streams of all subscribers of the key, each subscriber once |
| NotifyRegistry.NotifyRegistry.WriteAll | src/notify/registry.cpp:112-119 | sends exactly the accepted writes in order and returns the number of write indexes that are accepted |
| NotifyRegistry.NotifyRegistry.Publish | src/notify/registry.cpp:86-120 | an uninterrupted Publish delivers to exactly the accepting streams of the key's subscribers and returns the number of accepted writes |
| NotifyRegistry.AcceptedCount | src/notify/registry.cpp:113-118 | as many writes are recorded as are accepted |
| NotifyRegistry.AcceptedAt | src/notify/registry.cpp:114-118 | each accepted write is recorded for its own target, after the accepted ones before it |
| NotifyRegistry.WatchEffects | src/notify/registry.cpp:122-149 | registering appends the stream, unregistering removes all its registrations and no other; other clients and all subscriptions are untouched |
| NotifyRegistry.WatchRoundTrip | src/notify/registry.cpp:122-149 | unregistering undoes registering |
| NotifyRegistry.WithoutSplit | src/notify/registry.cpp:144-145 | removal keeps the order of the remaining streams |
| PublishRuns.WritesJustified | src/notify/registry.cpp:95-119 | over all interleavings: each accepted write goes to a stream that at its Publish's snapshot was registered for a client then subscribed to the key, with the published message |
| PublishRuns.DeliveredCounts | src/notify/registry.cpp:106-119 | the result is the number of accepted writes, no stream accepts more than it was registered times, and the total is at most the subscribers' streams |
| PublishRuns.DeliveredIsAccepted | src/notify/registry.cpp:113-119 | over all interleavings the result is the number of write steps of this Publish that a stream accepts |
| PublishRuns.WritesAgree | src/notify/registry.cpp:112-119 | the write steps of an uninterrupted Publish give the same result and the same entries in the same order as the class's loop |
| PublishRuns.OrderIrrelevant | src/notify/registry.cpp:101-109 | the iteration order of the subscriber set does not change which streams are written to, or how often |
| PublishRuns.ScopedRefinement | src/notify/registry.cpp:34-84 | for scopes without a colon the registry is the relation of clients, channels and normalised scopes that the calls so far stand for |
| PublishRuns.PublishStaysInScope | src/notify/registry.cpp:86-120 | a Publish reaches only streams of clients subscribed to that channel in that scope |
| PublishRuns.SubscriptionBehind | src/notify/registry.cpp:28-84 | whatever characters scopes contain, a subscriber of a key has subscribed to some channel and scope with that key |
| PublishRuns.MisdeliverableIff | src/notify/registry.cpp:86-120 | some run delivers a message published to a channel and scope to a stream none of whose clients is subscribed there if and only if another channel and scope have the same key |
| PublishRuns.OutOfScope | src/notify/channel_key.cpp:12-14 | a concrete channel and scope whose messages can reach a subscriber of another |
| ListenTarget.NormalizeUnixPath | src/config.cpp:62-73 | the loop leaves one slash for all leading ones; empty and relative paths are refused; the result is a fixed point |
| ListenTarget.ParseListen | src/config.cpp:75-101 | the configuration or error for every setting; a refused one never changes the path or the port |
| ListenTarget.PortRoundTrip | src/config.cpp:14-24 | a printed int is read back if and only if it is positive |
| ListenTarget.AcceptsIff | src/config.cpp:14-24 | a non-empty port text is accepted if and only if it is blanks, perhaps a plus sign, and digits of a positive value |
| ListenTarget.PortValue | src/config.cpp:19-23 | what is stored for it: the value saturated to 64 bits, then its low 32 |
| ListenTarget.UnixForm | src/config.cpp:62-90 | a unix setting with leading slashes gives the path with one |
| ListenTarget.TcpForm | src/config.cpp:93-100 | any other setting is split at its last colon into address and port |
| ListenTarget.OtherForms | src/config.cpp:75-96 | the default path, and the message of each refusal |
| ListenTarget.ListenRoundTripIff | src/config.cpp:181-186 | for every accepted setting the printed target parses back to the same target if and only if the port, modulo 2^32, is a positive int |
| ListenTarget.WrappedPort | src/config.cpp:23 | every positive multiple of 2^32 that fits a long is accepted as a port, stored as 0, and does not parse back |
| SocketPath.DotDotIffComponent | src/unix/unix_socket.cpp:34-42 | the four-pattern test is true if and only if a component between slashes is ".." |
| Decimal.PrintParse | src/config.cpp:185 | the value of a printed number is the number |
| Decimal.Canonical | src/config.cpp:185 | printed numbers have no leading zero |

## Left out

- Request validation, host-index and text-size checks of QueryStream (src/service/mtdd_shard_service.cpp:182-205): one-branch
  checks before anything is opened.
- `decodePgCell` and the numeric, date and uuid conversions: a cell decoder is an arbitrary total function of field and bytes,
  so a decoder that throws is not modelled.
- FlexBuffers metadata: schema, trailer and error metadata are opaque values that decode to what was encoded; the client's
  `command` and `oid` fields are not modelled.
- The command word and tag of a result are part of the answer, as `PQcmdStatus` gives them for the results that are fetched;
  `CommandFromStatus` is not modelled.
- `IsTupleStreamingSql` and `BuildParams`: whether a query uses a cursor is part of the request, and parameters are part of
  the statement.
- Overflow of `row_begin + wire_batch_rows` and of the encoder's reservation size: row arithmetic is unbounded, while counts
  and cell lengths are bounded as libpq's ints are. A negative cell length cannot arise.
- JavaScript details: property names such as `__proto__` and numbers above 2^53 are not treated specially.
- Exceptions are raised at the fetch, schema, encode and trailer steps and at each step of the final Close, before that step
  has an effect; Abort, and the pool while it takes a connection back, are taken not to throw.
- A session that is busy with another command (PQTRANS_ACTIVE), and two queries at once on one session: bracketing is claimed
  for exclusive use of the connection.
- Fairness and timing of the condition variable: which waiter is notified, and when it resumes, is arbitrary.
- Reconfiguring connection parameters, and what a connect attempt does: it succeeds with a new connection or fails.
- Lifetime of stream writers after Publish has dropped the lock: writers are identifiers.
- A NUL character inside the listen setting: settings are C strings, which cannot hold one. `long` has 64 bits and `int` 32.
- The Windows branches of the configuration, the remaining environment parsing, socket and filesystem calls, `QueryExecutor`,
  the health monitor, process startup and deployment files.
