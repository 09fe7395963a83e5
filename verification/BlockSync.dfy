/** From the node's three replies for one height to the block that is to be stored
    (src/sync_handlers/block_sync_handler.ts and the loop body of src/sync/sync_blocks.ts). */
module BlockSync {
  import opened Prelude
  import opened RawData
  import opened FinalizeSplit
  import EventSync
  import TransactionSync

  datatype Header = Header(height: int, time: Option<int>)

  /** A block reply. `blockId` may be missing, or present without a hash; `txCount` is the
      number of transactions in the block's data section, 0 when there is no such section. */
  datatype BlockReply = BlockReply(header: Option<Header>, blockId: Option<Option<string>>, txCount: nat)

  datatype TxsReply = TxsReply(txCount: nat, txResponses: seq<TxResponse>)

  /** What the three requests for one height brought back. */
  datatype Fetch = Fetch(block: Option<BlockReply>, txs: Option<TxsReply>, results: Option<BlockResults>)

  /** The body of the transaction: it throws before starting a task, or its block task throws before
      its first statement, or it stores a block. */
  datatype Body = FnThrows | BlockThrows | Store(core: BlockCore)

  datatype Job = Job(chainId: string, height: int, body: Body)

  /** What one loop iteration does with its replies. */
  datatype Plan = Retry | AbciBehind | Malformed | Proceed(job: Job)

  const TWO31 := 0x8000_0000
  const TWO32 := 0x1_0000_0000

  /** The low signed 32-bit word of a 64-bit integer. */
  function LowWord(h: int): (w: int)
    ensures -TWO31 <= w < TWO31
  {
    (h + TWO31) % TWO32 - TWO31
  }

  /** The recorded height is the block's height exactly while that fits in 32 signed bits; at 2^31
      it turns into -2^31. */
  lemma LowWordExact(h: int)
    ensures LowWord(h) == h <==> -TWO31 <= h < TWO31
    ensures LowWord(TWO31) == -TWO31
    ensures exists k: int :: h - LowWord(h) == k * TWO32
  {
    var q := (h + TWO31) / TWO32;
    assert h - LowWord(h) == q * TWO32;
  }

  function SyncBlockSpec(reg: Registry, height: int, hash: Option<string>, time: int, responses: seq<TxResponse>,
                         begin: seq<Event>, end: seq<Event>): Result<BlockCore>
  {
    match TransactionSync.SyncTransactionsSpec(reg, responses)
    case Threw => Threw
    case Returned(synced) =>
      if hash.None? then Threw else
      Returned(BlockCore(height, hash.value, time, synced.allTransactions, synced.allMessages,
                         EventSync.SyncEventsSpec(reg, begin, responses, end)))
  }

  method SyncBlock(reg: Registry, height: int, hash: Option<string>, time: int, responses: seq<TxResponse>,
                   begin: seq<Event>, end: seq<Event>) returns (r: Result<BlockCore>)
    ensures r == SyncBlockSpec(reg, height, hash, time, responses, begin, end)
  {
    var events := EventSync.SyncEvents(reg, begin, responses, end);
    var synced := TransactionSync.SyncTransactions(reg, responses);
    if synced.Threw? || hash.None? {
      return Threw;
    }
    r := Returned(BlockCore(height, hash.value, time, synced.value.allTransactions, synced.value.allMessages, events));
  }

  function BodySpec(reg: Registry, height: int, block: BlockReply, header: Header, txs: TxsReply, results: BlockResults)
    : Body
  {
    if block.blockId.None? || header.time.None? then FnThrows else
    var (begin, end) := BlockEventsSpec(results);
    match SyncBlockSpec(reg, height, block.blockId.value, header.time.value, txs.txResponses, begin, end)
    case Returned(core) => Store(core)
    case Threw => BlockThrows
  }

  function PlanSpec(reg: Registry, chainId: string, f: Fetch): Plan {
    if f.block.None? || f.txs.None? || f.results.None? then Retry
    else if f.block.value.txCount > 0 && f.txs.value.txCount == 0 then AbciBehind
    else if f.block.value.header.None? then Malformed
    else
      var header := f.block.value.header.value;
      var height := LowWord(header.height);
      Proceed(Job(chainId, height, BodySpec(reg, height, f.block.value, header, f.txs.value, f.results.value)))
  }

  /** The part of a loop iteration between the fetch and the transaction. */
  method MakePlan(reg: Registry, chainId: string, f: Fetch) returns (plan: Plan)
    ensures plan == PlanSpec(reg, chainId, f)
  {
    if f.block.None? || f.txs.None? || f.results.None? {
      return Retry;
    }
    var block, txs := f.block.value, f.txs.value;
    if block.txCount > 0 && txs.txCount == 0 {
      return AbciBehind;
    }
    if block.header.None? {
      return Malformed;
    }
    var blockHeight := LowWord(block.header.value.height);
    var begin, end := BlockEvents(f.results.value);
    var body := FnThrows;
    if block.blockId.Some? && block.header.value.time.Some? {
      var core := SyncBlock(reg, blockHeight, block.blockId.value, block.header.value.time.value, txs.txResponses,
          begin, end);
      body := match core case Returned(c) => Store(c) case Threw => BlockThrows;
    }
    plan := Proceed(Job(chainId, blockHeight, body));
  }

  /** A block whose messages all have a parent: the transactions have distinct positions, and the
      transaction at a message's position is the one it came from. */
  ghost predicate Linked(core: BlockCore) {
    && (forall i, j :: 0 <= i < j < |core.transactions| ==> core.transactions[i].txIndex < core.transactions[j].txIndex)
    && (forall m :: m in core.messages ==>
          exists t :: t in core.transactions && t.txIndex == m.txIndex && t.hash == m.transactionHash)
  }

  /** The job of a plan carries the recorded height, and a block to store is linked. */
  lemma PlanLinked(reg: Registry, chainId: string, f: Fetch)
    requires PlanSpec(reg, chainId, f).Proceed?
    ensures var job := PlanSpec(reg, chainId, f).job;
            && f.block.Some? && f.block.value.header.Some?
            && job.chainId == chainId && job.height == LowWord(f.block.value.header.value.height)
            && (job.body.Store? ==> job.body.core.height == job.height && Linked(job.body.core))
  {
    var job := PlanSpec(reg, chainId, f).job;
    if job.body.Store? {
      SyncedLinked(reg, f.txs.value.txResponses);
    }
  }

  /** Every message of a synced block has its parent among the transactions; a block without
      transactions has no messages, so skipping the messages then loses nothing. */
  lemma SyncedLinked(reg: Registry, responses: seq<TxResponse>)
    requires TransactionSync.SyncTransactionsSpec(reg, responses).Returned?
    ensures var out := TransactionSync.SyncTransactionsSpec(reg, responses).value;
            && (forall i, j :: 0 <= i < j < |out.allTransactions| ==>
                  out.allTransactions[i].txIndex < out.allTransactions[j].txIndex)
            && (forall m :: m in out.allMessages ==>
                  exists t :: t in out.allTransactions && t.txIndex == m.txIndex && t.hash == m.transactionHash)
            && (out.allTransactions == [] ==> out.allMessages == [])
  {
    TransactionSync.TransactionShape(reg, responses);
    TransactionSync.ThrowsExactly(reg, responses);
    var out := TransactionSync.SyncTransactionsSpec(reg, responses).value;
    forall m | m in out.allMessages
      ensures exists t :: t in out.allTransactions && t.txIndex == m.txIndex && t.hash == m.transactionHash
    {
      assert TransactionSync.MessageFrom(reg, responses, m);
      var tr := responses[m.txIndex];
      assert !TransactionSync.Breaks(reg, tr);
      var t := TransactionSync.TransactionOf(reg.decodeTx(tr.tx).value, tr, m.txIndex);
      TransactionSync.PayerMeaning(tr.events, t.feePayer);
      assert TransactionSync.TransactionFrom(reg, responses, t);
      assert t in out.allTransactions;
    }
    if out.allMessages != [] {
      assert out.allMessages[0] in out.allMessages;
    }
  }
}
