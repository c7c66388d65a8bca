# Change data capture from PostgreSQL: a verified model

The program reads a PostgreSQL logical replication slot and hands every committed
change to a listener, after an optional initial snapshot that several instances take
together. This project models its protocol code in Dafny and proves what the rest of
the program relies on. `dafny verify dfyconfig.toml` checks all of it.

## What is modelled

* **The replication sink** (`StreamEngine.dfy`, `Stream.dfy`). `StreamEngine.dfy` gives
  the sink as a function `Step` on decoded events: the one-message look-ahead for
  BEGIN/COMMIT blocks, the per-XID buffers for streamed chunks, commit stamping. `Stream.dfy` has
  the objects of the source as classes (`Channel`, `MessageBuffer`, `StreamTxBuffer`,
  `Stream`); each method is proved against `Step`, `Run` or `Consume`.
* **What reaches the channel** (`StreamOutput.dfy`, `StreamTheorems.dfy`), for every
  well-formed stream of blocks, interleaved chunks, streamed commits and aborts.
* **Whole runs** (`ReplicationRuns.dfy`): server, slot, wire, sink, channel, late
  acknowledgements, status updates in flight, server restarts, reconnects and process
  restarts as one state machine, and what such a run can still reach
  (`ReplicationProgress.dfy`).
* **The pgoutput decoder** (`Bytes.dfy`, `Pgoutput.dfy`), against an encoder written
  from sections 55.4 and 55.9 of the PostgreSQL 16 documentation
  (`PgoutputEncoding.dfy`), with TOAST merging under every replica identity
  (`ReplicaIdentity.dfy`), what it does with messages it cannot read
  (`PgoutputErrors.dfy`), and the path from bytes to the sink (`WireToSink.dfy`,
  `SessionItems.dfy`).
* **The snapshot**: chunk arithmetic in int64 (`Chunks.dfy`), what the chunk queries
  read (`ChunkQueries.dfy`), the lease protocol with every SQL statement a step
  (`SnapshotProtocol.dfy`), its soundness (`SnapshotSoundness.dfy`), when it breaks
  (`SnapshotRuns.dfy`), leases (`LeaseSafety.dfy`), queries and protocol together
  (`SnapshotCoverage.dfy`), and what an attempt can reach (`SnapshotProgress.dfy`).
* **The handoff** from snapshot to stream (`Handoff.dfy`, `LsnText.dfy`), snapshot and
  stream together (`EndToEnd.dfy`), and the **publication** reconciliation
  (`Publication.dfy`).

## Main results

1. In every run the slot's position never passes the commit record of a transaction
   with a change that no listener was given, and a connection opened at 0/0 resends
   every such transaction (`NoChangeSkipped`); handed over means exactly that a listener
   was called with the row (`HandedIffGiven`). Every row given again after a reconnect is
   counted (`ReplayedIsCounted`, `ReplayNeverUndercounts`). From every moment of every run
   all owed changes can still be handed over (`EverythingCanBeHanded`), and an
   acknowledged transaction need not be sent again (`AcknowledgedIsNotResent`).
2. After any prefix of any well-formed stream the channel holds the rows of the finished
   transactions sent since their last abort, in commit order, plus all but the last row
   of an open block (`OutputAtEveryPrefix`), and these are exactly the committed rows as
   long as none survived an abort (`CommittedAtEveryPrefix`); streaming a transaction
   delivers the same messages as sending it plain (`StreamedRefinesPlain`).
3. Decoding what the server encodes gives back what was sent, for any number of columns
   and any lengths (`DecodeAfterEncode`, `ControlDecoded`, `XLogDataDecoded`), and over
   a whole session the sink does on the bytes what it does on events that say, message by
   message, what the server said: tables, values, times, XIDs and positions, under the
   latest Relation messages and with the right streaming flag (`BytesAreEvents`). So the
   bytes of a session of blocks, chunks, commits and aborts deliver what was committed
   (`SessionDeliversCommittedIff`). Changes of unannounced tables, unknown messages and
   short ones are rejected (`UnannouncedRejected`, `UnknownTypes`, `ShortMessages`) and
   dropped without a trace (`UnreadableDropped`).
4. For every strategy, every answer or failure of each catalog query (bounds, the count
   of the sparse check, blocks, the count of the offset plan) and every fallback, the
   coordinator panics, or the rows read are a proper part of the rows that meet the
   condition, or each of these is read exactly once, precisely as `TableFate` says from
   the answers (`TableReadOnceIff`).
5. When the job row says completed, every planned chunk was handed over under the job's
   own snapshot (`CompletionSound`), and with it every row of every table of the job that
   meets the condition (`CompletedJobCoversTheTables`). This needs that at an export
   nobody holds an older snapshot that can still be imported and no job row names one;
   without a job row that condition is exact (`ExportUnsoundIff`). An instance with an old
   job cannot complete a new chunk (`RestartIsolation`). A chunk is claimed again only when
   stale (`ClaimedAgainOnlyWhenStale`), and can be claimed as soon as it is
   (`ClaimableIff`). A plan can be stored exactly when no row for it is there
   (`PlanStoredIff`), and its job can then be completed (`AttemptCanComplete`).
6. Slot creation, LSN capture and export lose exactly the transactions of one window
   (`LosesExactlyTheWindow`). With that window empty, after a completed snapshot, each row
   of the tables was handed over and each change of each committed transaction is in the
   snapshot, was handed over, or will be resent (`NothingFallsBetween`,
   `NothingIsMissed`).
7. Publication reconciliation keeps, clears or replaces each live filter and adds tables
   as configured (`LiveTableBecomes`, `NewTableBecomes`); it is a fixpoint exactly when
   duplicate entries agree, and always from the second merge on (`MergeIsFixpointIff`,
   `SecondMergeSettles`). The LSN text form round-trips (`ParsePrint`).

## Where the code does not meet its promise

Each is proved with the condition under which it happens, most also with an example.

* A STREAM ABORT of a subtransaction drops the whole transaction's buffer, so rows that
  survive it are lost: the output is what was committed if and only if no committed
  transaction has such a row (`DeliversCommittedIff`, `SubtransactionAbortLosesARow`).
* The last-in-transaction flag is missing when the last message is a Relation or a
  Truncate (`LastMessageOnly`), and the XID of those two differs between streamed and
  plain delivery (`StreamedEqualsPlainIff`).
* An insert into a table without columns is rejected by the length guards and silently
  dropped (`InsertDecoded`, `NothingDroppedIff`).
* With a key replica identity and a changed key, an unchanged toasted column outside
  the key reaches the listener as NULL (`RestoredIff`, `UnrecoverableColumn`).
* The last integer range wraps near the largest int64 and then reads nothing
  (`RangeReadsOnceIff`, `WrappedEndLosesARow`). A span whose count overflows gets no
  chunks, and a count that is negative or beyond what `make` accepts panics
  (`RangeCountIs`, `RangeMakeIs`).
* Rows are missed after a failed catalog query when an explicit integer_range falls back
  to blocks, which have no further fallback, or when a failed count makes one offset
  chunk of limited size. The latter includes a sparse range whose first count was answered
  and whose block query then failed (`TableReadOnceIff`).
* The completion check and the job mark name only the slot. A job row written between
  another instance's check and its mark is marked completed unread: in every such state
  the mark is sound exactly when the job has no parts (`RaceSoundIff`,
  `RaceCompletesTheWrongJob`).
* `Prepare` called again by a coordinator that did not crash leaves its first exporting
  transaction open; losing only the session with the lock does the same. That alone does
  no harm. But if, when a plan with a part is exported and no job row is there, some
  instance holds an older snapshot that can still be imported, that instance can complete
  the new job under the old snapshot; if nobody does, nobody can (`ExportUnsoundIff`,
  `LeakIsFatal`, `StaleHolderCompletes`, `LeakCompletesUnderTheOldSnapshot`,
  `LostLockCompletesUnderTheOldSnapshot`). Restarts by crash never leave such a snapshot
  (`CrashRestartsAreClean`).
* A coordinator that dies between inserting chunks and inserting the job leaves rows
  that no later attempt removes: attempts fail as long as their plan repeats such a part,
  and can succeed when it repeats none (`OrphanChunksBlockForever`, `FreshPlanUnblocks`,
  `CrashLeavesOrphans`).
* A transaction whose commit record lies below the captured LSN but which is not yet
  visible when the snapshot is exported is in neither (`LosesExactlyTheWindow`,
  `WindowLosesATransaction`); waiting until they are visible would close the window
  (`WaitingClosesTheWindow`).
* Two length guards are one byte short: a BEGIN of 20 or a COMMIT of 25 bytes is read
  past its end (`ControlReadsInsideIff`). The guards of deletes, updates and Relation
  messages leave out the column count: at exactly their lengths it is read past the end
  (`ShortMessages`).
* A table that is not live yet and is configured twice costs one extra change when the
  two filters differ, and no more than one (`MergeIsFixpointIff`, `SecondMergeSettles`,
  `DuplicatesAreNotAFixpoint`).

## Assumptions

* WAL: a change's LSN is below its commit LSN, that below the end LSN, that not above
  the next commit LSN. START_REPLICATION resends every transaction whose commit LSN is
  not below the larger of the requested and the slot's position. These are `WalFacts`
  and `StartIndex`.
* The stream context is live. A consumer acknowledges at most the position of a message
  it was given. The server may apply a status update late, and may fall back to an
  older durable position when it restarts.
* In the run model streamed aborts leave no survivor in a committed transaction; the
  case where they do is the subject of `DeliversCommittedIff`.
* One SQL statement is atomic. Serial ids and snapshot ids are not reused. A crash ends
  an instance's lock and its exporting transactions together; the lock's session may also
  end alone.
* `make` refuses more than 2^48 bytes, as on a 64-bit platform.
* A decoded message is a value: stamping a message that sits in a buffer is replacing
  it, since no one else holds it before it is delivered.

## Model

| member | source | states |
|---|---|---|
| StreamEngine.RunConcat | pq/replication/stream.go:596-652 | the sink over two stretches of events is the sink over the first, then over the second from the memory the first left |
| StreamEngine.RowBeforeBegin | pq/replication/stream.go:462-476 | a connection starts with nothing held back and an all-zero commit context |
| StreamEngine.EndOfStreamed | pq/replication/stream.go:429-460 | a streamed commit or abort ends the chunk and removes only its own buffer, whatever came before |
| Stream.Channel.Send | pq/replication/stream.go:336-347 | a message joins the end of the channel |
| Stream.Channel.Receive | pq/replication/stream.go:840-857 | the oldest message leaves the channel |
| Stream.MessageBuffer.Flush | pq/replication/stream.go:350-356 | the held message goes out unchanged and nothing is held |
| Stream.MessageBuffer.FlushWithLsn | pq/replication/stream.go:360-371 | the held message goes out flagged, at the transaction-end LSN |
| Stream.MessageBuffer.Discard | pq/replication/stream.go:375-377 | nothing is held and nothing goes out |
| Stream.MessageBuffer.Buffer | pq/replication/stream.go:380-383 | the previous message goes out and the new one is held |
| Stream.StreamTxBuffer.StartTx | pq/replication/stream.go:404-410 | rows that follow belong to this XID; what is buffered stays |
| Stream.StreamTxBuffer.Append | pq/replication/stream.go:413-417 | the row joins the active transaction's buffer, no other buffer changes |
| Stream.StreamTxBuffer.StopTx | pq/replication/stream.go:420-422 | the chunk is closed |
| Stream.StreamTxBuffer.FlushTx | pq/replication/stream.go:429-455 | the transaction's rows go out in order, stamped with its commit context, the last at the end LSN, and only its buffer is removed |
| Stream.StreamTxBuffer.DiscardTx | pq/replication/stream.go:457-460 | only that transaction's buffer is removed, nothing goes out |
| Stream.Stream.UpdateXLogPos | pq/replication/stream.go:1050-1057 | the received position only grows |
| Stream.Stream.UpdateConfirmedXLogPos | pq/replication/stream.go:1065-1072 | the confirmed position only grows |
| Stream.Stream.UpdateDeliveredHighWaterMark | pq/replication/stream.go:1080-1087 | the delivered mark only grows |
| Stream.Stream.MarkReplayFloor | pq/replication/stream.go:1100-1107 | the floor rises to the delivered mark |
| Stream.Stream.DispatchMessage | pq/replication/stream.go:798-838 | buffers and channel change exactly as one step of the specification |
| Stream.Stream.HandleXLogData | pq/replication/stream.go:699-741 | positions first, then stamping by streaming state, then one step; a rejected payload changes no buffer |
| Stream.Stream.HandleFrame | pq/replication/stream.go:596-697 | a frame is one step or, for a keepalive, a position only |
| Stream.OneMoreFrame | pq/replication/stream.go:596-652 | every frame with a decoded payload is one event in its place, no other frame is |
| Stream.Stream.SinkLoop | pq/replication/stream.go:596-652 | the loop's effect is the run over the events of its frames |
| Stream.Stream.Attempt | pq/replication/stream.go:462-476 | one connection adds what a sink with fresh buffers outputs |
| Stream.Stream.ResetForReconnect | pq/replication/stream.go:312-322 | commit context, snapshot start and received position are cleared |
| Stream.Stream.Setup | pq/replication/stream.go:260-287 | the requested start is the snapshot LSN on the first open, else the received position |
| Stream.Stream.Reconnect | pq/replication/stream.go:508-592 | a reconnect asks for 0/0 and raises the replay floor |
| Stream.Stream.NextConnection | pq/replication/stream.go:462-476 | a reconnected loop starts from empty buffers |
| Stream.Stream.SinkOver | pq/replication/stream.go:462-500 | over any number of connections each contributes its own output, and every reconnect asks for 0/0 |
| Stream.OneMoreConnection | pq/replication/stream.go:462-500 | each connection adds what a sink with empty buffers makes of its own frames |
| Stream.Stream.IsHeartbeatMessage | pq/replication/stream.go:912-930 | nothing when heartbeats are off, else row changes whose schema and table are the configured ones |
| WireToSink.HeartbeatIs | pq/replication/stream.go:912-930 | on decoded messages a heartbeat is exactly an insert, update or delete in the configured table |
| Stream.Stream.Process | pq/replication/stream.go:840-910 | draining the channel calls the listener once for every message but the heartbeats, in order, confirms up to the highest heartbeat, raises the mark to the highest position handed over, and counts exactly those at or below the floor |
| Stream.ConsumedAre | pq/replication/stream.go:866-906 | the same five facts about any queue, without reference to a single step |
| StreamOutput.OutputAtEveryPrefix | pq/replication/stream.go:325-460 | after any prefix the channel holds the finished transactions' rows sent since their last abort, in commit order, all but the last row of an open block, and nothing of unfinished or aborted transactions |
| StreamOutput.WholeItems | pq/replication/stream.go:349-383 | between items nothing is held back, so the discard at BEGIN loses nothing, and the buffers hold the unfinished transactions' rows since their last abort |
| StreamOutput.EveryPrefix | pq/replication/stream.go:798-838 | every prefix of a well-formed stream is whole items and part of one |
| StreamOutput.BlockOut | pq/replication/stream.go:349-383 | inside a block all rows but the last received are out |
| StreamOutput.ChunkOut | pq/replication/stream.go:404-422 | a chunk puts nothing on the channel |
| StreamTheorems.BothOutputs | pq/replication/stream.go:360-371 | streamed and plain delivery of the same rows, each as delivered messages |
| StreamTheorems.StreamedRefinesPlain | pq/replication/stream.go:404-460 | streamed delivery equals plain delivery message by message: rows, positions, and for row changes commit context and flag |
| StreamTheorems.StreamedEqualsPlainIff | pq/replication/stream.go:760-785 | the two are equal exactly when no Relation or Truncate carries an XID |
| StreamTheorems.LastMessageOnly | pq/replication/stream.go:360-371 | only the last message has the end LSN; the flag is on it alone and only when it is a row change; every row change has the commit context |
| StreamTheorems.KeptLength | pq/replication/stream.go:822-824 | fewer messages than committed, by exactly the survivors of aborts |
| StreamTheorems.DeliversCommittedIff | pq/replication/stream.go:822-824 | the channel carries what was committed if and only if no committed transaction has a row that survived one of its own aborts |
| StreamTheorems.CommittedAtEveryPrefix | pq/replication/stream.go:325-460 | inside and after every item the channel carries the committed rows and what the open item released, exactly as long as no committed row survived an abort |
| StreamTheorems.LastDelivered | pq/replication/stream.go:360-371 | in a delivered transaction end LSN and flag are where they belong |
| StreamTheorems.TopLevelAbortsAreSafe | pq/replication/stream.go:457-460 | with top-level aborts only, no row is ever lost |
| StreamTheorems.SubtransactionAbortLosesARow | pq/replication/stream.go:822-824 | a stream in which a committed row is lost |
| ReplicationRuns.NextInv | pq/replication/stream.go:462-592 | every step of server, sink, channel, consumer or restart keeps the run invariant |
| ReplicationRuns.BehaviourInv | pq/replication/stream.go:462-592 | the run invariant holds at every moment of every run |
| ReplicationRuns.NoChangeSkipped | pq/replication/stream.go:312-322 | the slot never passes the commit record of a transaction with an unhanded change, and 0/0 resends it |
| ReplicationRuns.ReplayNeverUndercounts | pq/replication/stream.go:1080-1113 | the counter is never below the number of rows given again since the last reconnect, and floor never exceeds mark |
| ReplicationRuns.ReplayedIsCounted | pq/replication/stream.go:891-894 | each delivery of a row this process had delivered before its last reconnect raises the counter by one |
| ReplicationRuns.GivenAgainIsCounted | pq/replication/stream.go:891-894 | a row given before a reconnect and again at any later moment of the same process raises the counter by one |
| ReplicationRuns.DeliverGives | pq/replication/stream.go:875-906 | the head of the channel is confirmed when it is a heartbeat row, else given to the listener, and then its row alone becomes handed |
| ReplicationRuns.HandedIffGiven | pq/replication/stream.go:906 | in every run the rows that count as handed are exactly those some process called its listener with |
| ReplicationProgress.EverythingCanBeHanded | pq/replication/stream.go:462-592 | from every moment of every run a continuation hands over every owed change of every committed transaction |
| ReplicationProgress.StatusApplied | pq/replication/stream.go:1207-1216 | a status update raises the slot to its position, or puts it there, and changes nothing else |
| ReplicationProgress.AcknowledgedIsNotResent | pq/replication/stream.go:1207-1216 | from every moment of every run an acknowledgement can reach the slot, and a transaction acknowledged to its end lies before the start of every later connection |
| ReplicationProgress.RunsBegin | pq/replication/stream.go:260-287 | a run can begin from a snapshot or at the slot's position, and a restarted process begins with nothing confirmed, delivered, queued or counted |
| ReplicationProgress.SlotCanFallBack | pq/replication/stream.go:312-322 | a server restart can put the slot back, and the next connection then starts no later |
| ReplicationProgress.ReceivedRunsAhead | pq/replication/stream.go:312-322 | resuming from the received position instead of 0/0 would pass over every transaction committed below it |
| Bytes.BigEndianUint | pq/replication/wal.go:22-34 | the big-endian bytes of a number that fits read back as it |
| Bytes.HighByteFirst | pq/replication/wal.go:34-37 | the first byte of a number is its most significant one |
| Bytes.PgTimeRoundTrip | pq/message/format/time.go:8-10 | every int64 Unix time survives the conversion to microseconds since 2000, wrapping included |
| Bytes.PgTimeIs | pq/message/format/time.go:5-10 | raw time 0 is 2000-01-01, 30 years and 7 leap days after 1970-01-01, and any other is that plus the signed microseconds sent |
| Pgoutput.CopyOut | pq/message/tuple/data.go:77-81 | a payload copy has the announced length and the announced bytes when they are there |
| Pgoutput.DecodeColumnsInPlace | pq/message/tuple/data.go:65-88 | the column loop that fills a slice in place decodes exactly the column sequence and ends at its cursor |
| Pgoutput.DecodeTupleInPlace | pq/message/tuple/data.go:65-88 | column count, columns and end cursor of a tuple |
| Pgoutput.NewDataInPlace | pq/message/tuple/data.go:42-53 | the tuple is decoded exactly when the expected type byte precedes it |
| Pgoutput.DecodeRelationColumnsInPlace | pq/message/format/relation.go:68-87 | the relation column loop decodes exactly the column sequence |
| Pgoutput.DecodeRelationInPlace | pq/message/format/relation.go:30-90 | guards, XID prefix, names and columns of a Relation message |
| Pgoutput.MergeToastInPlace | pq/message/format/update.go:105-112 | unchanged columns are replaced by the old tuple's, by position, no other column changes, and a missing one is a run-time panic |
| Pgoutput.ReadOidsInPlace | pq/message/format/truncate.go:72-76 | the OID loop reads exactly the announced OIDs |
| Pgoutput.LookUpInPlace | pq/message/format/truncate.go:33-40 | every OID is resolved in order, or the message is rejected |
| Pgoutput.DecodeTruncateInPlace | pq/message/format/truncate.go:45-79 | guards, option bits, OIDs and resolved tables of a Truncate message |
| Pgoutput.Decoder.DecodeUpdateInPlace | pq/message/format/update.go:72-122 | key, old and new tuple branches with their cursor, merging and table lookup of an Update message |
| Pgoutput.Decoder.New | pq/message/message.go:44-76 | dispatch on the first byte; a decoded Relation replaces the cache entry of its OID and nothing else changes |
| PgoutputEncoding.ColumnDecoded | pq/message/tuple/data.go:71-85 | one encoded value is read back with the cursor after it |
| PgoutputEncoding.ColumnsDecoded | pq/message/tuple/data.go:70-86 | any number of encoded values is read back |
| PgoutputEncoding.TupleDecoded | pq/message/tuple/data.go:42-88 | an encoded tuple is read back with the cursor exactly at its end |
| PgoutputEncoding.StringDecoded | pq/message/format/relation.go:92-99 | a zero-terminated string is read back |
| PgoutputEncoding.RelationColumnsDecoded | pq/message/format/relation.go:68-87 | any number of relation columns is read back |
| PgoutputEncoding.RelationDecoded | pq/message/format/relation.go:30-90 | an encoded Relation message is read back, plain or streamed |
| PgoutputEncoding.InsertDecoded | pq/message/format/insert.go:59-85 | an encoded Insert is read back exactly when the table has a column, else rejected |
| PgoutputEncoding.DeleteDecoded | pq/message/format/delete.go:57-85 | an encoded Delete is read back |
| PgoutputEncoding.UpdateDecoded | pq/message/format/update.go:72-122 | an encoded Update is read back, with unchanged columns taken from the old image |
| PgoutputEncoding.MergeDecoded | pq/message/format/update.go:105-112 | merging on columns is merging on values |
| PgoutputEncoding.OidsDecoded | pq/message/format/truncate.go:72-76 | any number of OIDs is read back |
| PgoutputEncoding.TablesFound | pq/message/format/truncate.go:33-40 | announced tables are all found, in order |
| PgoutputEncoding.TruncateDecoded | pq/message/format/truncate.go:45-79 | an encoded Truncate is read back with its option bits |
| PgoutputEncoding.DecodeAfterEncode | pq/message/message.go:44-76 | every well-formed row-level message is read back as what it means, plain or streamed, unless it inserts into a table without columns |
| PgoutputEncoding.ControlDecoded | pq/message/format/stream.go:19-105 | every transaction control message is read back with positions, XIDs and time |
| PgoutputEncoding.ControlReadsInsideIff | pq/message/format/begin.go:25-38 | control decoding reads outside its buffer exactly for a BEGIN of 20 or a COMMIT of 25 bytes |
| PgoutputEncoding.TruncateReadsInside | pq/message/format/truncate.go:45-79 | Truncate decoding never reads outside its buffer |
| PgoutputErrors.StringIff | pq/message/format/relation.go:92-99 | a string is read up to its zero, is an error without one, and a panic when it starts outside the buffer |
| PgoutputErrors.LookUpIff | pq/message/format/truncate.go:33-40 | truncated tables are resolved when all are known, else the message is rejected |
| PgoutputErrors.MergePanicsIff | pq/message/format/update.go:105-112 | merging panics exactly when an unchanged column has no counterpart |
| PgoutputErrors.OptionBits | pq/message/format/truncate.go:45-79 | bit 0 of the option byte is CASCADE, bit 1 RESTART IDENTITY, whatever the other bits |
| PgoutputErrors.OtherTuples | pq/message/tuple/data.go:42-46 | an insert whose tuple is not new, and an update whose second tuple is not, are rejected |
| PgoutputErrors.ShortMessages | pq/message/format/delete.go:57-85 | where the length guards of row messages stand, and what is read outside the buffer at them |
| PgoutputErrors.ShortControl | pq/message/format/begin.go:25-38 | control messages below their guards are rejected |
| PgoutputErrors.UnknownTypes | pq/message/message.go:44-76 | messages of an unknown type are rejected, an empty one is a panic |
| PgoutputErrors.UnannouncedRejected | pq/message/format/insert.go:59-85 | a well-formed change of a table that was not announced is rejected |
| ReplicaIdentity.SeenColumns | pq/message/format/update.go:88-116 | what a listener sees of each column of an updated row, for every identity |
| ReplicaIdentity.RestoredIff | pq/message/format/update.go:105-112 | the new row is restored, with no unchanged column left, exactly when every unchanged toasted column is recoverable; always under FULL |
| ReplicaIdentity.UnrecoverableColumn | pq/message/format/update.go:105-112 | what an unrecoverable column becomes: NULL with an old key, unchanged without |
| WireToSink.XLogDataDecoded | pq/replication/wal.go:22-34 | positions, time and payload of an XLogData frame are read back |
| WireToSink.HandleBuffer | pq/replication/stream.go:699-741 | parsing, decoding with the streaming flag, caching relations and dispatching one frame on the stream's objects; the row message taken is the decoded one, nothing of it lost, with the frame's position and time |
| WireToSink.UnreadableDropped | pq/replication/stream.go:699-735 | a frame that does not parse or decode leaves the effect of all others as it is |
| WireToSink.LatestRelation | pq/message/message.go:65-70 | the cache holds the latest Relation message of each OID |
| WireToSink.AnnouncedKnown | pq/message/message.go:65-70 | an announced table is in the cache |
| WireToSink.DecodeSent | pq/replication/stream.go:716-720 | with the flag of its place in the session each message decodes to its meaning |
| WireToSink.StepSent | pq/replication/stream.go:699-741 | one sent message has the effect of its meaning |
| WireToSink.SessionEventsMean | pq/replication/stream.go:798-838 | every event of a session says what the server's message says: names of the latest Relation message, columns, old image, merged row, options, time, position and XID |
| WireToSink.BytesAreEvents | pq/replication/stream.go:699-741 | over a session the bytes act as events that say what the server's messages say, the flag says inside a chunk, the cache is the latest relations, and nothing panics |
| WireToSink.NothingDroppedIff | pq/replication/stream.go:716-720 | every sent message has its event exactly when no table without columns is inserted into |
| WireToSink.BytesDeliverCommittedIff | pq/replication/stream.go:798-838 | from the bytes of a session whose events are those of the given items, the channel carries what was committed if and only if no row survived an abort of its own transaction |
| SessionItems.EventsOfItems | pq/replication/stream.go:798-838 | a session of blocks, chunks, commits and aborts has the events of the items it means |
| SessionItems.ItemsAreMeant | pq/replication/stream.go:798-838 | those items have the XIDs, positions and times of their delimiters and the tables, values, times and XIDs of their row messages |
| SessionItems.SessionDeliversCommittedIff | pq/replication/stream.go:699-838 | the bytes of any such session deliver what was committed, with the values the server sent, if and only if no row survived an abort of its own transaction, and never panic |
| Chunks.CeilCountIs | pq/snapshot/coordinator.go:822-825 | the int64 count is the ceiling as long as it fits, and never positive when it does not |
| Chunks.RangeCountIs | pq/snapshot/coordinator.go:822-825 | the range count is right exactly when max - min + size fits; when it is negative |
| Chunks.MakeIs | pq/snapshot/coordinator.go:885-886 | when a count makes a list, when it is zero, and when make panics |
| Chunks.RangeMakeIs | pq/snapshot/coordinator.go:784-785 | the same for the span of an integer range |
| Chunks.PointersFit | pq/snapshot/coordinator.go:784-785 | make refuses a list of more than 2^48 bytes |
| Chunks.CreateRangeChunks | pq/snapshot/coordinator.go:759-818 | the range loop makes the chunks from min to max, with a wrapped end where it wraps, and panics on a count make refuses |
| Chunks.CreateCtidChunks | pq/snapshot/coordinator.go:839-931 | the block loop makes contiguous chunks from 0, the last unbounded, and its clamp never fires |
| Chunks.BlocksFillAChunk | pq/snapshot/coordinator.go:877-883 | at the estimated density, 100 rows a block without one, a chunk's blocks hold at most its size and one block more would exceed it |
| Chunks.CreateOffsetChunks | pq/snapshot/coordinator.go:961-1005 | the offset loop makes consecutive slices, one of them when the count is unknown |
| Chunks.CreateCtidOrOffsetChunks | pq/snapshot/coordinator.go:688-694 | blocks, or offsets when there are no block chunks |
| Chunks.SparseMeans | pq/snapshot/coordinator.go:829-836 | a range is sparse exactly when it has more than twice the chunks its rows need |
| Chunks.SparseAtTheEdges | pq/snapshot/coordinator.go:829-836 | without rows nothing is sparse; a row count that wraps makes everything beyond one chunk sparse |
| Chunks.CreateTableChunks | pq/snapshot/coordinator.go:654-740 | the choice of strategy with all its fallbacks |
| Chunks.PlansAreNumbered | pq/snapshot/coordinator.go:654-740 | the chunks of every plan are numbered 0 and up, carry the size, start where they should, and only a last block chunk is marked last |
| Chunks.ChunkTable.InsertChunkBatch | pq/snapshot/coordinator.go:1156-1178 | a batch is stored whole or not at all |
| Chunks.ChunkTable.SaveChunksBatch | pq/snapshot/coordinator.go:1137-1153 | all chunks are stored once in order by one insert for every thousand, or after a failure a prefix of whole batches |
| ChunkQueries.NoMoreThanWide | pq/snapshot/coordinator.go:507-520 | a range of a unique key holds no more rows than it is wide |
| ChunkQueries.RangeChunkReads | pq/snapshot/coordinator.go:507-520 | the LIMIT of a range query never cuts; a wrapped range reads nothing |
| ChunkQueries.RangesRead | pq/snapshot/coordinator.go:787-809 | the first k ranges read exactly the keys below the next |
| ChunkQueries.RangeReadsOnceIff | pq/snapshot/coordinator.go:787-809 | the ranges read every wanted row once if and only if the last end does not wrap or no wanted row lies in the last chunk; otherwise they read a proper part of the wanted rows |
| ChunkQueries.RangesTile | pq/snapshot/coordinator.go:787-809 | each key of the range lies in exactly one chunk |
| ChunkQueries.WrappedEndLosesARow | pq/snapshot/coordinator.go:789 | a key at the largest int64 is skipped |
| ChunkQueries.BlocksRead | pq/snapshot/coordinator.go:526-558 | the first k block chunks read exactly the blocks below the next |
| ChunkQueries.CtidReadsOnce | pq/snapshot/coordinator.go:863-920 | block chunks read every wanted row once, whatever block count and estimate the coordinator saw |
| ChunkQueries.OffsetsConcatenate | pq/snapshot/coordinator.go:560-575 | the slices in chunk order are the ordered wanted rows |
| ChunkQueries.OffsetReads | pq/snapshot/coordinator.go:961-1005 | with an exact count everything is read in order, with a failed count one slice |
| ChunkQueries.RangeWithoutKey | pq/snapshot/coordinator.go:507-520 | a range chunk without bounds or single key is read as a slice |
| ChunkQueries.OffsetPlanMeets | pq/snapshot/coordinator.go:961-1005 | what becomes of a table under offset chunks |
| ChunkQueries.BlockPlanMeets | pq/snapshot/coordinator.go:839-931 | what becomes of it under block chunks or the plan after them |
| ChunkQueries.RangePlanMeets | pq/snapshot/coordinator.go:759-818 | what becomes of it under range chunks or the plan after them |
| ChunkQueries.TableReadOnceIff | pq/snapshot/coordinator.go:654-740 | the coordinator panics, the rows read are a proper part of the wanted ones, or each is read exactly once, precisely as the catalog answers decide, for every strategy and fallback, the sparse check's count and the offset plan's count being separate answers |
| ChunkQueries.TableReadOnce | pq/snapshot/coordinator.go:654-740 | when all catalog queries succeed, each wanted row is read exactly once unless a range is used that make refuses or whose last chunk wraps over a wanted row |
| SnapshotProtocol.Update | pq/snapshot/worker.go:556-615 | a row update touches one row and never its part |
| SnapshotProtocol.Inserted | pq/snapshot/coordinator.go:1156-1178 | an insert adds one pending row per part under new ids |
| SnapshotSoundness.PhasesKept | pq/snapshot/coordinator.go:220-247 | only the lock holder prepares, and while it inserts its snapshot is the latest and has no job row |
| SnapshotSoundness.TasksKept | pq/snapshot/worker.go:153-225 | what a worker holds was planned no later than the snapshot it reads under |
| SnapshotSoundness.PreparingPlan | pq/snapshot/coordinator.go:77-97 | while a job row is open the chunk table holds its whole plan or nothing of it |
| SnapshotSoundness.CheckedMeansHanded | pq/snapshot/job.go:139-171 | a worker that sees only completed chunks sees the whole plan of the open job handed over |
| SnapshotSoundness.InvKept | pq/snapshot/snapshot.go:105-176 | every step keeps the protocol invariant |
| SnapshotSoundness.CompletionSound | pq/snapshot/snapshot.go:149-176 | a completed job had every planned part handed over under its own snapshot, in every run in which at each export nobody holds an importable older snapshot and no job row names one |
| SnapshotSoundness.RestartIsolation | pq/snapshot/worker.go:182-225 | a chunk is marked only by a reader of its own snapshot or a later one |
| SnapshotSoundness.CrashRestartsAreClean | pq/snapshot/coordinator.go:29-62 | as long as coordinators restart by crash and no lock is lost alone, every export finds older snapshots dead, so the condition of the completion theorem holds |
| SnapshotSoundness.OrphanChunksBlockForever | pq/snapshot/coordinator.go:34-47 | a chunk without a job row blocks every later attempt whose plan has its part |
| SnapshotRuns.FreshPlanUnblocks | pq/snapshot/coordinator.go:77-97 | an attempt whose plan repeats no part that is there can create its job |
| SnapshotRuns.RaceCompletesTheWrongJob | pq/snapshot/snapshot.go:149-165 | a run in which a job restarted between check and mark is marked completed unread |
| SnapshotRuns.RaceSoundIff | pq/snapshot/snapshot.go:149-165 | in every state a mark after a job row written since its check is sound exactly when that job has no parts |
| SnapshotRuns.AlwaysPlain | pq/snapshot/worker.go:421-484 | at every moment of every run rows in progress carry a heartbeat and held snapshots are ones a job was posted with |
| SnapshotRuns.StaleHolderCompletes | pq/snapshot/worker.go:153-200 | at every moment of every run an instance that can still import an older snapshot can complete an open job with an unread part |
| SnapshotRuns.LeakIsFatal | pq/snapshot/coordinator.go:49-60 | at every moment of every run an export beside a held live older snapshot can end in a job completed unread, for every plan with a part |
| SnapshotRuns.ExportUnsoundIff | pq/snapshot/coordinator.go:29-62 | after an export with no job row and a plan with a part, a job can be completed unread if and only if somebody holds an importable older snapshot at the export |
| SnapshotRuns.LeakCompletesUnderTheOldSnapshot | connector.go:525-553 | a run in which a second Prepare without a crash lets an old worker complete a new chunk |
| SnapshotRuns.LostLockCompletesUnderTheOldSnapshot | pq/snapshot/coordinator.go:1285-1303 | a run in which losing only the lock's session does the same |
| SnapshotRuns.CrashLeavesOrphans | pq/snapshot/coordinator.go:77-97 | a run in which a crash between chunk and job insert leaves the blocking state |
| LeaseSafety.ClaimedAgainOnlyWhenStale | pq/snapshot/worker.go:451-484 | a chunk is claimed again only uncompleted and when its last claim or heartbeat is older than the timeout, second-wide timestamps included |
| LeaseSafety.CompletedStaysCompleted | pq/snapshot/worker.go:451-484 | without a release a completed chunk stays so and is never claimed |
| LeaseSafety.AtMostOneClaim | pq/snapshot/worker.go:421-449 | a second claim of a chunk means its lease had expired |
| LeaseSafety.StaleIff | pq/snapshot/worker.go:451-466 | a row in progress is claimable exactly when the second after its heartbeat's plus the timeout has come |
| LeaseSafety.ClaimableIff | pq/snapshot/worker.go:451-484 | at every moment of every run a free instance can claim a chunk exactly when it is pending or its last touch is that long ago |
| LeaseSafety.ReleasedIsClaimable | pq/snapshot/worker.go:597-616 | a released chunk can be claimed at once, whatever the timeout, and no other row changes |
| LeaseSafety.HeartbeatRenews | pq/snapshot/worker.go:555-567 | a heartbeat can be written at any time, and until the timeout has passed nobody can claim the chunk |
| SnapshotCoverage.JobBatchesHold | pq/snapshot/coordinator.go:77-97 | a job plans exactly the chunks of its tables |
| SnapshotCoverage.PlanStays | pq/snapshot/coordinator.go:29-62 | what an export planned stays the plan of its snapshot at every later moment of every run |
| SnapshotCoverage.CompletedJobCoversTheTables | pq/snapshot/snapshot.go:105-176 | once the job planned at an export for any number of tables is completed, each wanted row of each table lies in a chunk handed over under that export's snapshot |
| SnapshotProgress.StoredIff | pq/snapshot/coordinator.go:1156-1178 | batches can all be inserted exactly when they name no part twice and none that is in the table |
| SnapshotProgress.PlanStoredIff | pq/snapshot/coordinator.go:77-97 | at every moment of every run a coordinator's plan can be stored exactly when the table has no row for any of its chunks |
| SnapshotProgress.BatchSizes | pq/snapshot/coordinator.go:1137-1153 | a table's batches are of a thousand chunks, the last of the rest |
| SnapshotProgress.AttemptCanComplete | pq/snapshot/snapshot.go:105-176 | such an attempt can have its job completed, every chunk handed over under its own snapshot |
| SnapshotProgress.RefusedInsertFails | pq/snapshot/coordinator.go:77-97 | a batch that repeats a part and a second job row change nothing and end the attempt |
| SnapshotProgress.MarkCompletes | pq/snapshot/worker.go:569-582 | a mark completes its row and touches no heartbeat, no other row and no job |
| SnapshotProgress.BrokenReadGoesOn | pq/snapshot/worker.go:182-225 | a read that broke off can be begun anew while its snapshot lives |
| SnapshotProgress.FailedMarkGoesOn | pq/snapshot/worker.go:569-595 | the two statements of a mark are sent again from the first |
| SnapshotProgress.ExitsReleaseAll | pq/snapshot/coordinator.go:1285-1303 | an instance that stops frees its own lock and snapshots and nobody else's |
| SnapshotProgress.CounterIs | pq/snapshot/worker.go:583-592 | completed_chunks is the number of increments since the job row was written |
| EndToEnd.NothingIsMissed | connector.go:525-553 | with an empty window and a completed job, each wanted row the exported snapshot sees was handed over, and at every moment of every run of the stream each later change was handed over or would be resent |
| Handoff.LosesExactlyTheWindow | connector.go:525-553 | snapshot and stream together miss exactly the transactions below the captured LSN that were invisible at the export |
| Handoff.TwiceIsVisibleInBetween | connector.go:525-553 | what is delivered twice was visible at the export |
| Handoff.WindowLosesATransaction | pq/snapshot/coordinator.go:230-240 | a run that loses a transaction |
| Handoff.WaitingClosesTheWindow | pq/snapshot/coordinator.go:230-240 | waiting until the transactions in the window are visible empties it |
| Handoff.FetchSnapshotLsn | pq/replication/stream.go:1135-1188 | the retry loop waits for a completed job row and starts at its position, or gives up |
| Handoff.EndsIff | pq/replication/stream.go:1160-1188 | the wait goes on exactly while every answer is retried; the first other one gives the position its text stands for, or is fatal |
| Handoff.StartsAtCapturedLsn | pq/replication/stream.go:1167-1188 | streaming starts at exactly the LSN stored with the completed job, and only once a row says completed |
| Handoff.NothingFallsBetween | connector.go:525-553 | with an empty window every change is in the snapshot, handed over, or still to be resent |
| LsnText.PrintedValue | pq/lsn.go:11-13 | the printed digits stand for the number |
| LsnText.PrintedDigit | pq/lsn.go:11-13 | digits are upper-case, in place, without a leading zero |
| LsnText.PrintIs | pq/lsn.go:11-13 | the upper 32 bits stand before the slash, the lower 32 after it |
| LsnText.DigitIs | pq/lsn.go:15-29 | hexadecimal digits of either case are read |
| LsnText.ParsePrint | pq/lsn.go:11-29 | every 64-bit position survives printing and parsing |
| LsnText.ParseMeans | pq/lsn.go:15-29 | what any accepted text of two numbers means, upper halves above 32 bits included |
| LsnText.ParseTooBig | pq/lsn.go:15-29 | a half beyond 64 bits is rejected |
| LsnText.ParseMalformed | pq/lsn.go:15-29 | a missing number and a missing slash are rejected |
| Publication.BuildMap | pq/publication/row_filter.go:59-62 | the map of configured tables, the last entry of a key winning |
| Publication.ResolveFilter | pq/publication/row_filter.go:81-90 | the filter of one live table under a configured one, as `LiveTableBecomes` says on the result |
| Publication.MergeLive | pq/publication/row_filter.go:65-97 | the pass over live tables and whether it dropped or altered any |
| Publication.MergeDesired | pq/publication/row_filter.go:58-112 | the desired list, and changed exactly when it differs from the live list |
| Publication.LookupIsLast | pq/publication/row_filter.go:59-62 | of several entries for one table the last one counts |
| Publication.SameKeyIff | pq/publication/row_filter.go:59-62 | two tables share a key exactly when schema and name agree |
| Publication.LiveTableBecomes | pq/publication/row_filter.go:65-94 | an empty filter leaves a live table as it is, "-" clears its filter, any other replaces it; schema, name, columns and place stay |
| Publication.NewTableBecomes | pq/publication/row_filter.go:99-109 | a table that is not live is added in the order of the configuration with its columns, without a filter for "" and "-", else with its own |
| Publication.DesiredKeys | pq/publication/row_filter.go:58-112 | the tables are the live and the configured ones, exactly the configured ones when pruning |
| Publication.UnmentionedUnchanged | pq/publication/row_filter.go:70-77 | a live table not configured keeps its columns and filter |
| Publication.MergeIsFixpointIff | pq/publication/row_filter.go:58-112 | a second merge with the same configuration changes nothing exactly when the entries that add one table agree on its filter, so always when no table is configured twice |
| Publication.SecondMergeSettles | pq/publication/row_filter.go:58-112 | whatever the configuration, a third merge changes nothing |
| Publication.DuplicatesAreNotAFixpoint | pq/publication/row_filter.go:102-109 | a configuration whose second merge changes once more |

## Left out

- Context cancellation, shutdown, `Close`, goroutine panics, retry and backoff timing, error classification, metrics and logging: run-time behaviour with no protocol content. After cancellation the look-ahead buffer can overwrite a message it failed to send (pq/replication/stream.go:349-356, 380-383), so the no-loss results are for a live context.
- The capacity of the message channel: a full channel delays the sink but does not reorder or drop.
- Stream.Stream.Process: drains what is queued; the interleaving with the sink and with late acknowledgements is in `ReplicationRuns`.
- ReplicationRuns.NoChangeSkipped: says handed to the listener, not acknowledged; the heartbeat's own acknowledgement can pass messages that an asynchronous consumer has not acknowledged yet (pq/replication/stream.go:875-880).
- ReplicationRuns.ReplayNeverUndercounts: no upper bound, because interleaved transactions may be counted although they are new.
- SnapshotRuns.ExportUnsoundIff: for a plan whose inserts succeed, as is LeakIsFatal; `OrphanChunksBlockForever` says when one fails. An export while a job row is there is covered by the sufficient condition of `CompletionSound` only.
- WireToSink.HandleBuffer: values are opaque bytes; decoding them by column type (DecodeWithColumn, pgtype) and its errors are not modelled.
- Decoding of Insert, Delete and the control messages is straight-line and given as functions of the buffer; only the decoders with loops or in-place changes are also methods.
- PgoutputEncoding.DecodeAfterEncode: well-formed messages only. On short tuples and relations the decoder may read outside its buffer, which the model shows as `Panic`; what happens below and at the length guards is in `ShortMessages`, and only the control messages and Truncate have a statement about every input.
- Message, Origin and Type messages, two-phase commit and the newer streaming options: the decoder rejects them and the model treats them as dropped.
- The worker loop, the heartbeat goroutine and the coordinator's statements are steps of a state machine instead of methods, because statements of other instances come between any two of them; aliasing inside one instance is not modelled.
- SnapshotSoundness.CompletionSound: needs that at an export nobody holds an older snapshot that can still be imported and the job row, if any, names none, and that no job row appears between a check and its mark; `ExportUnsoundIff` and `RaceSoundIff` show what happens without each. That completion is reached is shown as a possibility (`AttemptCanComplete`), not under a fairness assumption; that `completed_chunks` equals the number of completed chunks is not promised by the code.
- EndToEnd.NothingIsMissed: handed over for a snapshot row means that its chunk was read under the job's snapshot and its rows given to the listener; the listener's own failures are its own.
- ReplicationProgress.EverythingCanBeHanded: a possibility, not under a fairness assumption; how long the consumer, the server or the connection take is theirs.
- LeaseSafety.ClaimedAgainOnlyWhenStale: for runs without the unconditional release; times are those the instances wrote, so clock skew between them shows as a shorter or longer lease.
- Waiting for the coordinator and the connector's retry counts and delays: an instance may load the job at any time once its row exists, and may retry at any time.
- SnapshotProtocol.Inserted: the coordinator's plan is arbitrary lists of parts; its link to the chunk arithmetic is `CompletedJobCoversTheTables`, where a part is a table and the index of a chunk in it.
- Chunks.CreateTableChunks: catalog queries are parameters; row counts, block counts and bounds are what they returned.
- ChunkQueries.TableReadOnceIff: the table as the snapshot sees it; a condition is a flag on the row, column lists and the IsLast marker of a row are not modelled.
- The snapshot_only mode, resnapshot clean-up by another process, TimescaleDB lookup, the heartbeat table, schema migration, replica identity changes and the HTTP server: plumbing around the modelled parts.
- LsnText.ParsePrint: leading blanks, which the scanner skips, are not part of the text model.
- Publication.MergeDesired: tables are values; PostgreSQL's own rewriting of filter expressions is not modelled.
