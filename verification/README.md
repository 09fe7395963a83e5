# Verified model of ixo-blocksync-core

The indexer copies the blocks of a Cosmos chain into PostgreSQL, one height at a time. This project models
that path in Dafny, from the node's replies to the rows a reader gets back, and proves what every run
guarantees: every interleaving of the tasks of a transaction and of the readers that share its connection,
every timer, fault, lost answer, kill and restart.

Check it with `dafny verify dfyconfig.toml`.

## Files

| file | content |
|---|---|
| Prelude.dfy, RawData.dfy | optional values, calls that may throw, filter-maps; the data of the node and of the rows |
| FinalizeSplit.dfy, EventSync.dfy, TransactionSync.dfy, BlockSync.dfy | from the three replies for a height to the block to store, as loops proved against specifications |
| ReplyMeaning.dfy | the same in terms of the reply fields alone: what is stored, from where, in which order, and when |
| Database.dfy | tables with keys and foreign keys, statements, sessions, serial ids |
| BlockQuery.dfy, BlockStore.dfy, RowMeaning.dfy | reading a block back; what storing writes; every column of the rows, every field a reader gets, the round trip |
| CommitProtocol.dfy | one attempt as a state machine: a statement queue shared by the wrapper, two tasks and readers |
| ProtocolProofs.dfy | its invariant when no reader shares the connection |
| SharedClient.dfy | with readers: every interleaving mirrors one without, or loses the block; exactly when it does |
| ProtocolTheorems.dfy, ReaderViews.dfy | the guarantees of one attempt; what readers see meanwhile |
| Connection.dfy | the pool, `withTransaction`, `withQuery`, `dbQuery`, `insertBlock` on mutable clients |
| SyncLoop.dfy, SyncProofs.dfy, SyncTheorems.dfy | whole runs with restarts, their invariant, and the main results |
| Indexer.dfy | start-up and the sync loop on mutable state, proved to follow SyncLoop |

The main results are `SyncTheorems.Safety`, `EndToEnd`, `ReadsAreWhole`, `ProgressExactly`, `RetryBound`,
`CommitInDoubt`, `AmbiguousCommitHarmless`, `LeftoversHarmless`, `BlockLost` and `LostForever`,
`SharedClient.LostExactly`, and `ProtocolTheorems.AllOrNothing`, `RollbackIsFinal` and `ConnectionSafety`.

## Modelling assumptions

- One chain and one indexer process per database: `BlockCore` has no chain id.
- The node answers a request for height h with a block of height h and has fewer than 2^31 blocks
  (`SyncLoop.Honest`). Apart from the height, replies are arbitrary and may differ between retries.
- Statements on one connection execute in queue order, one sent at a time. A timer may reject a waiting
  activity at any moment and in any order; the statement may still execute, or be withdrawn.
- While `currentPool` is set, any number of readers may put their queries into the same queue at any moment
  (src/postgres/client.ts:83-86, src/app.ts:53-55). The server refuses a query whose parameter is not an integer
  in the range of the column, or for a reason of its own. The results on whole runs assume of readers only that
  no query is refused in the open transaction after both tasks have ended and before COMMIT (`SyncLoop.Honest`);
  it is enough that those that share the connection ask for such an integer and are answered
  (`SyncLoop.AnsweredHonest`). `BlockLost` shows what happens otherwise.
- Any statement may fail for reasons the model does not look into (NOT NULL, server timeouts, lost sockets).
- What a failed attempt left on a connection that is reused executes outside a transaction: the queue of the
  connection puts it before the next BEGIN. About left-over inserts of transactions and events it is assumed
  that they execute before their height is committed (`SyncLoop.Honest`); the loop relies on a sleep of two
  seconds for this (src/sync/sync_blocks.ts:155), and `LeftoverSpoils` shows what breaks otherwise.
  Nothing is assumed about left-over message inserts, which `LeftoversHarmless` proves harmless for ever.
- A COMMIT in flight on a connection that was given up takes effect at any later time, or never. Until then its
  transaction is assumed to hold its row locks: a statement of another attempt that needs the block row or the
  checkpoint row fails or times out. It may also wait and go on when the COMMIT is settled: nothing has happened
  in between, so that is the run in which the settlement comes before the iteration. What follows from the
  locks is proved (`BlockedAttempt`, `CommitInDoubt`).
- An attempt whose interleaving stops before its end is a process killed there.
- `INSERT … SELECT` draws serial ids in array order; ids may have gaps and are not given back by a rollback.
- The protobuf decoders, the attribute decoder and the list of indexed event types are arbitrary.
- Transactions of a block and messages of a transaction are read back in no promised order, so as multisets.

## What the proofs found

- With exactly one block committed the checkpoint is 1, which start-up cannot tell from a fresh chain. Block 1
  is then asked for again and refused by the primary key for ever (`StuckForever`). A run from an empty database
  gets there by one kill and restart (`StuckReached`), and `ProgressExactly` shows that this is the only such
  state. The comment at src/sync/sync_blocks.ts:27 says that a chain that has already synced starts from the
  next block; the model follows the code.
- That a rolled-back attempt stays rolled back does not rest on `Promise.all`, which leaves the other task
  running, but on the foreign keys (`LateInsertReached`, `RollbackIsFinal`). The surrogate ids make the
  protection of messages permanent (`LeftoversHarmless`); that of events ends when the height is stored.
- That no statement of an abandoned task slips into the transaction of a later attempt through the global
  `currentPool` rests on those tasks going on only after a success, which they never get
  (`NothingSentAfterThrow`).
- Both outcomes of a lost COMMIT, stored but reported as failed and still undecided, can happen at every height
  (`AmbiguityReached`, `DoubtfulReached`).
- A block can be lost. `dbQuery` sends a reader's query to the connection of the running transaction; the route
  of src/app.ts:53-55 passes any number on, and PostgreSQL refuses NaN, 1.5 or 99999999999 as an INTEGER and aborts
  the transaction. If that happens when both tasks have ended, COMMIT of the aborted transaction is answered
  without an error, `withTransaction` resolves and the loop goes on to the next height with nothing stored
  (`LossReached`). `LostExactly` proves that an attempt reported as a success has stored its block if and only if
  no read failed at that point. `BlockLost` gives, for every height and every refused query, a run from an empty
  database that loses that block and then stores the next; `LostForever` proves that it is never stored again. A
  read refused earlier only makes the attempt fail, and the retry stores the block.
- At height 2^31 the recorded height turns negative (`LowWordExact`).

## Model

| member | source | states |
|---|---|---|
| FinalizeSplit.ModeIsFirst | src/sync/sync_blocks.ts:81-91 | the mode of an event is v if and only if some attribute is `mode` with value v and no earlier one is `mode`; there is none if and only if no attribute is `mode` |
| FinalizeSplit.SplitFinalizeEvents | src/sync/sync_blocks.ts:73-92 | an event is kept as a begin event if and only if its first attribute with key `mode` has value `BeginBlock`, as an end event if and only if it has value `EndBlock`, and both lists keep the input order |
| FinalizeSplit.SplitMeaning | src/sync/sync_blocks.ts:81-91 | the same about the order-preserving filter that the loop computes |
| FinalizeSplit.BlockEvents | src/sync/sync_blocks.ts:73-96 | the split is used when there are finalize events, otherwise the node's own two lists |
| FinalizeSplit.SplitConserves | src/sync/sync_blocks.ts:73-96 | begin, end and dropped positions partition the input; both outputs are order-preserving subsequences; the three counts add up |
| EventSync.SyncEvents | src/sync_handlers/event_sync_handler.ts:7-33 | the three loops compute the order-preserving filter-map of begin, then transaction, then end events |
| EventSync.EventRows | src/sync_handlers/event_sync_handler.ts:35-57 | an event is dropped if and only if it is unlisted or undecodable; rows carry at most one block flag, and a transaction hash exactly when they carry none |
| EventSync.DecodedAttributes | src/util/proto.ts:93-113 | when decoding throws, and that decoded attributes line up one to one with the raw ones, untouched if the first value is text |
| TransactionSync.ScanMeaning | src/sync_handlers/transactions_sync_handler.ts:59-79 | over the flat list of attributes of `tx` events: the first fee payer or throwing item decides, otherwise the last `acc_seq` with a value, otherwise undefined |
| TransactionSync.BeforeSlash | src/sync_handlers/transactions_sync_handler.ts:67-72 | the longest slash-free prefix that ends at the first slash or at the end |
| TransactionSync.ExtractFeePayer | src/sync_handlers/transactions_sync_handler.ts:59-79 | the nested loops with early return compute the flat scan, including where they throw |
| TransactionSync.PayerMeaning | src/sync_handlers/transactions_sync_handler.ts:59-79 | over the raw events: the result is the value of the first `fee_payer` of a `tx` event; without one the part before the first slash of the last textual `acc_seq`; without that undefined; it throws if and only if an event without attributes or a non-text `acc_seq` comes before any fee payer |
| TransactionSync.SyncTransactions | src/sync_handlers/transactions_sync_handler.ts:5-53 | the nested loops compute the rows that `TransactionShape` describes, or throw where `ThrowsExactly` says |
| TransactionSync.ThrowsExactly | src/sync_handlers/transactions_sync_handler.ts:9-50 | handling a block's responses throws if and only if handling one of them does |
| TransactionSync.TransactionShape | src/sync_handlers/transactions_sync_handler.ts:9-52 | `txIndex` strictly increases, messages strictly increase in (`txIndex`, `index`), and both lists hold exactly the rows of the decodable items at their positions, every field given from the raw response |
| BlockSync.LowWordExact | src/sync/sync_blocks.ts:68 | the recorded low word is the height if and only if it fits in 32 signed bits, and differs by a multiple of 2^32 |
| BlockSync.SyncBlock | src/sync_handlers/block_sync_handler.ts:8-37 | the composed handlers give the specified block, or throw where it does |
| BlockSync.MakePlan | src/sync/sync_blocks.ts:56-107 | the loop body up to the transaction takes the branch that `PlanMeaning` describes and builds that job |
| ReplyMeaning.PlanMeaning | src/sync/sync_blocks.ts:56-107 | on the reply fields: when an iteration retries, waits for the ABCI layer, fails or goes on, with which height, and exactly when the transaction body throws or has a block to store |
| ReplyMeaning.EventsMeaning | src/sync_handlers/event_sync_handler.ts:7-57 | the stored events are exactly the rows of the listed, decodable events, in the order of their places in the replies (begin, transactions, end), with type, converted attributes, flags and hash given from the raw event |
| ReplyMeaning.StoreMeaning | src/sync_handlers/block_sync_handler.ts:8-37 | the block to store is that of the replies field by field: height, hash, time, transactions, messages, events; never when the block has transactions and the reply for them has none |
| BlockSync.SyncedLinked | src/sync_handlers/transactions_sync_handler.ts:9-52 | every message has its parent among the transactions, with its position and hash; without transactions there are no messages |
| Database.LateInsertExact | src/postgres/migrations/00000000000000000_init.sql:71-78 | outside a transaction a child insert fails and changes nothing if and only if a parent row is missing; the foreign key of messages in force is that of 20260519120000000_tx-surrogate-pk.sql:36-37 |
| BlockStore.IdMapLast | src/postgres/block.ts:73-76 | a position is mapped if and only if some returned row has it, and to the id of the last such row |
| BlockStore.ParentLinks | src/postgres/block.ts:73-89 | every id look-up succeeds and yields the row of the very transaction the message came from, even when transactions share a hash |
| BlockStore.WithBlockConsistent | src/postgres/migrations/20260519120000000_tx-surrogate-pk.sql:32-37 | storing a block keeps every foreign key and id order |
| BlockStore.NewBlockHeld | src/postgres/block.ts:62-103 | the tables after storing a block hold it: its events in order, its transactions, and under each exactly its own messages |
| RowMeaning.NewRowsStored | src/postgres/block.ts:41-60 | storing a block adds exactly its rows, by position, with every column given from the block, and each message's parent; one checkpoint moves to it and nothing else changes |
| RowMeaning.OldRowsStored | src/postgres/block.ts:41-60 | every column of every other stored block stays as it was |
| BlockStore.OldBlockHeld | src/postgres/block.ts:62-103 | storing a block leaves every other stored block as it was |
| RowMeaning.SpecViewShows | src/postgres/query_block.ts:30-88 | the expected view field by field: events in order with their type, attributes and hash, each transaction with its fields, each of its messages as often as it occurs, a null entry exactly where there is none |
| RowMeaning.StoreThenRead | src/postgres/query_block.ts:30-88 | round trip: a height that read as null reads, after its block is stored, as that block field by field, flattened and relinked through generated ids |
| BlockStore.PlaceholderOnly | src/postgres/query_block.ts:30-58 | the all-null entry appears if and only if there is no message (or event), and then alone |
| SharedClient.StepKeeps | src/postgres/client.ts:83-86 | every step of every interleaving, readers' statements included, keeps the invariant: the attempt mirrors one that has its connection to itself, or its block is lost |
| SharedClient.LostExactly | src/postgres/client.ts:60-64 | an attempt reported as a success has stored its block if and only if no read was refused in the open transaction after the last statement of both tasks and before COMMIT; a read refused in it before that point rules a reported success out |
| SharedClient.AnsweredSpared | src/app.ts:53-55 | it is enough that every reader asks for an integer in the range of the column and is answered |
| ProtocolTheorems.AllOrNothing | src/postgres/client.ts:50-78 | in every state of every interleaving with any number of readers the committed tables are those from before, or those with the whole block and its checkpoint; success is reported in the second case only, or in the first if a read has failed in the open transaction; a COMMIT in flight can only lead to the second |
| ProtocolTheorems.HopelessAttempt | src/postgres/migrations/00000000000000000_init.sql:14-20 | an attempt at a stored height, or whose body throws, changes nothing and is never reported as a success |
| ProtocolTheorems.RollbackIsFinal | src/postgres/client.ts:65-86 | after the wrapper has thrown with no COMMIT in flight, nothing the abandoned tasks still send or the server still executes changes the committed tables |
| ProtocolTheorems.LeftoversHaveNoParent | src/postgres/block.ts:66-99 | everything left on a connection that returned to the pool is a child insert without a committed parent, or a read |
| ProtocolTheorems.NothingSentAfterThrow | src/postgres/client.ts:83-86 | after the wrapper has thrown no task of the attempt sends anything: but for readers every step at most takes statements away, so all of its own were sent while `currentPool` was its client |
| ProtocolTheorems.AbandonedFatherless | src/postgres/migrations/20260519120000000_tx-surrogate-pk.sql:32-37 | of what is left on a reused connection every message insert has a message whose parent id was drawn and is not committed, or has no parent id |
| ProtocolTheorems.BlockedAttempt | src/sync/sync_blocks.ts:98-114 | an attempt that does not get the locks on its block row and the checkpoint row is a run of the protocol that commits nothing, sends no COMMIT, is not reported as a success and leaves nothing over |
| ProtocolTheorems.CommitOnlyWhenWhole | src/postgres/client.ts:61-63 | COMMIT only executes when both tasks have ended, on the open transaction that holds the complete block or, if and only if a read has failed in it, on an aborted one |
| ProtocolTheorems.LossReached | src/postgres/client.ts:60-64 | for every refused query there is a schedule without any other fault whose wrapper resolves with nothing stored |
| ProtocolTheorems.ConnectionSafety | src/postgres/client.ts:54-77 | one release per acquired client; a reused client has no open or aborted transaction, then or later; destroyed if and only if its ROLLBACK was rejected, with at most the statement under way left; the caller sees the first rejection |
| ProtocolTheorems.SmoothCommits | src/postgres/client.ts:60-64 | a block with a new height and hash is committed when nothing fails |
| ProtocolTheorems.AmbiguousCommitReached | src/postgres/client.ts:63-73 | a COMMIT can take effect and be reported as failed |
| ProtocolTheorems.DoubtReached | src/postgres/client.ts:63-75 | a COMMIT can still be under way, with the whole block, when its client is destroyed |
| ProtocolTheorems.LateInsertReached | src/postgres/block.ts:93-99 | an event insert can end up waiting behind the ROLLBACK on a released, healthy connection, by the timer of the statement under way |
| ProtocolTheorems.LateTransactionsReached | src/postgres/block.ts:66-71 | so can an insert of transactions, if timers fire out of order |
| ProtocolTheorems.LeftoverAfterCommit | src/sync/sync_blocks.ts:149-155 | a leftover insert of events or transactions that outlives the commit of its height succeeds and the block no longer reads back |
| ReaderViews.StoredBlocksVisible | src/postgres/query_block.ts:59-88 | in every state of an attempt both the committed tables and the open transaction hold every block whole that was stored before |
| Connection.Pool.MapIds | src/postgres/block.ts:73-76 | the loop builds the map from position to generated id, later pairs winning |
| Connection.Pool.DbQuery | src/postgres/client.ts:83-86 | a statement runs on the transaction's client when one is set, otherwise commits on its own |
| Connection.Pool.RunBody | src/sync/sync_blocks.ts:98-114 | both tasks in the order in which the connection executes their statements: on success the open transaction is the whole block with its checkpoint, a refused statement has aborted it, and the failure is the first rejection |
| Connection.Pool.InsertRows | src/postgres/block.ts:66-99 | the inserts after the block row follow the protocol to their end, or fail with one more rejection and an aborted transaction |
| Connection.Pool.WithTransaction | src/postgres/client.ts:50-78 | the run is one of the protocol's interleavings; on return the whole block if every reader before COMMIT was answered, and nothing if one was refused; unchanged on a throw unless a COMMIT that took effect was timed out; one release; destroyed if and only if its ROLLBACK failed, else back to the pool without a transaction; the first rejection is thrown; other clients untouched |
| Connection.Pool.WithQuery | src/postgres/client.ts:90-104 | for every list of statements a callback sends and either way it ends: the client is released once, destroyed if and only if the callback throws, and the pool stays sound if and only if no transaction is handed back |
| Indexer.IndexerProcess.Start | src/sync/sync_chain.ts:12-39 | start-up finds or creates the checkpoint row and sets the loop variables as specified, for every outcome of its statements |
| Indexer.IndexerProcess.StoreBlock | src/sync/sync_blocks.ts:98-114 | an attempt changes database and history as its interleaving does, under the locks of a COMMIT in doubt if there is one, and leaves the loop variables alone |
| Indexer.IndexerProcess.StartSync | src/sync/sync_blocks.ts:21-164 | the loop with its counters, retries and exits follows the run specification step by step |
| SyncProofs.NextKeeps | src/sync/sync_blocks.ts:35-163 | every step of a run keeps the invariant tying tables, checkpoint, loop counter, commit in doubt and left-over statements together, with any readers that are not refused just before a COMMIT |
| SyncProofs.HeightInStep | src/sync/sync_blocks.ts:46-112 | at every step of every run the recorded height equals the requested one |
| SyncTheorems.Safety | src/sync/sync_blocks.ts:21-164 | over every run with any number of readers, none of them refused between the last task statement and COMMIT, committed heights are exactly 1..n and the checkpoint is max(1, n) |
| SyncTheorems.BlockLost | src/app.ts:53-55 | that condition is needed: every refused query can lose any block n+1 in a run from an empty database, after which n+2 is stored and the checkpoint has passed the gap |
| SyncTheorems.LostForever | src/sync/sync_blocks.ts:24-28 | a height that is missing below the checkpoint, as after such a loss, is never stored by any further run that keeps the conditions above, restarts included, and reads as null |
| SyncTheorems.NeverDecreases | src/postgres/chain.ts:35-44 | committed blocks are never taken back or replaced, the checkpoint never decreases, and the rows of other chains stay as they are |
| SyncTheorems.UniqueHashes | src/postgres/migrations/00000000000000000_init.sql:60 | over every run whatever the node sends no two stored blocks have the same hash |
| SyncTheorems.EndToEnd | src/sync_handlers/block_sync_handler.ts:16-33 | under the same condition on readers: every committed height has a block that is field by field that of replies really received for it, every column of its rows is stored, and reading gives it field by field and in order; any other height reads as null |
| SyncTheorems.ReadsAreWhole | src/postgres/query_block.ts:59-88 | with any steps of a run between its two queries, and each of them on the committed tables or in the open transaction of an attempt, a read of a stored height gives the complete block |
| SyncTheorems.IterationMeaning | src/sync/sync_blocks.ts:56-162 | one iteration on the reply fields: a missing reply is counted and the 21st in a row is an error; transactions in the block but none in the reply for them change nothing whatever; what a stored block, a failed attempt and an interruption do to the loop variables |
| SyncTheorems.BootMeaning | src/sync/sync_chain.ts:18-34 | one start-up on its answers: exactly when the loop starts and at which height, and exactly when the checkpoint row is made, with 1 |
| SyncTheorems.ResumeExact | src/sync/sync_blocks.ts:24-28 | start-up resumes at the first missing height if and only if n is not 1 |
| SyncTheorems.StuckForever | src/sync/sync_blocks.ts:24-28 | with one block committed and block 1 asked for again no run changes the database any more |
| SyncTheorems.StuckReached | src/sync/sync_blocks.ts:24-28 | from every empty database some run ends in that state, with the process up |
| SyncTheorems.ProgressExactly | src/sync/sync_blocks.ts:24-28 | some run commits a further block if and only if the world is not in that state |
| SyncTheorems.AmbiguousCommit | src/sync/sync_blocks.ts:149-162 | a commit executed but reported as failed leaves the process asking for the height just committed |
| SyncTheorems.CommitInDoubt | src/postgres/client.ts:60-77 | over every run, restarts included, a commit still in flight keeps everything unchanged and unreported until settled; settled as committed it stores its own block and leaves the process behind, settled as lost it leaves everything as it was. That its transaction keeps its row locks is a modelling assumption |
| SyncTheorems.AmbiguityReached | src/sync/sync_blocks.ts:149-162 | at every height some run stores the next block and leaves the process asking for it |
| SyncTheorems.DoubtfulReached | src/sync/sync_blocks.ts:149-162 | at every height some run leaves a COMMIT in doubt |
| SyncTheorems.LeftoversHarmless | src/postgres/block.ts:73-89 | however late and after whatever run it executes, a left-over message insert changes nothing; one of transactions or events changes nothing as long as its height is not stored |
| SyncTheorems.LeftoverSpoils | src/sync/sync_blocks.ts:149-155 | the timing promise about the others is needed: a failed attempt leaves one behind, the retry stores the block, which reads back, then the left-over insert executes and it no longer does |
| SyncTheorems.LeftoverEventsSpoil | src/sync/sync_blocks.ts:149-155 | such a run from an empty database with an insert of events |
| SyncTheorems.LeftoverTransactionsSpoil | src/sync/sync_blocks.ts:149-155 | such a run from an empty database with an insert of transactions |
| SyncTheorems.BehindForever | src/postgres/migrations/00000000000000000_init.sql:14-20 | a process asking for a committed height never changes the database until it is restarted |
| SyncTheorems.AmbiguousCommitHarmless | src/sync/sync_blocks.ts:149-162 | after it nothing changes, 84 counted iterations end the loop, and a restart resumes at n+1 for every n but 1 |
| SyncTheorems.RetryBound | src/sync/sync_blocks.ts:33-162 | 21·(3−errorCount)+(20−count) is a variant: the loop survives at most 83 counted iterations without a reported commit |
| SyncTheorems.RetryBoundTight | src/sync/sync_blocks.ts:138-162 | 83 are survived and the 84th ends the loop |

## Left out

- gRPC and RPC clients, protobuf registry decoding, `Uint8ArrayToJS`: code of an SDK; decoders are arbitrary partial functions and replies are arbitrary.
- `signerInfos` and `nonCriticalExtensionOptions` of a transaction: plain copies into two columns that no query reads.
- What a read that shares the open transaction sees of the block being stored: it can see a part of it. `ReadsAreWhole` is about the blocks stored before.
- `pool.connect()` that rejects (src/postgres/client.ts:16-19): the loop sees an error as from BEGIN, but no client is acquired or released.
- Connection.Pool.WithTransaction: timers run out only on BEGIN, COMMIT and ROLLBACK and the tasks' statements are all answered, and readers come between the tasks' last statement and COMMIT; the other interleavings, timers and readers are in CommitProtocol.
- Connection.Pool.WithQuery: the callback is the list of statements it sends, one after the other, and how it ends; nothing in the program calls it.
- What ends with the loop: src/index.ts has no catch after `startSync`, and whether the process exits is not part of this model. A restart is `Boot`.
- The sync loop runs for ever; `Indexer.IndexerProcess.StartSync` is about every finite stretch of it.
- Two indexer processes on one database, and the migrations of existing rows.
- Hex and base64 conversion, time zones and JSON encoding: values are kept as they are.
- The HTTP server, rate limiting, error reporting, timers, logging and memory figures: no state worth proving.
- src/sync/sync_custom.ts: all of it is commented out.
