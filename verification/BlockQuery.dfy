/** Reading one block back (src/postgres/query_block.ts). */
module BlockQuery {
  import opened Prelude
  import opened RawData
  import opened Database

  datatype MessageView = MessageView(typeUrl: string, value: Json, index: nat)

  datatype EventView = EventView(typ: string, attributes: seq<Attribute>, transactionHash: Option<string>)

  /** `None` among messages or events is the object whose fields are all null. */
  datatype TxView = TxView(
    hash: string, code: int, fee: Json, gasUsed: string, gasWanted: string, memo: string,
    messages: multiset<Option<MessageView>>)

  datatype BlockView = BlockView(
    height: int, time: int, transactions: multiset<TxView>, events: seq<Option<EventView>>)

  function TxAt(height: int): TxRow -> Option<TxRow> {
    (r: TxRow) => if r.blockHeight == height then Some(r) else None
  }

  function MessageOf(transactionId: nat): MessageRow -> Option<MessageView> {
    (m: MessageRow) => if m.transactionId == transactionId then Some(MessageView(m.typeUrl, m.value, m.index)) else None
  }

  function EventAt(height: int): EventRow -> Option<EventView> {
    (r: EventRow) => if r.blockHeight == height then Some(ViewEvent(r.event)) else None
  }

  function ViewEvent(e: EventCore): EventView {
    EventView(e.typ, e.attributes, e.transactionHash)
  }

  /** The right-hand sides of a left outer join for one left row: its matches, or one null row. */
  function LeftJoined<A>(matches: seq<A>): seq<Option<A>> {
    if matches == [] then [None] else seq(|matches|, i requires 0 <= i < |matches| => Some(matches[i]))
  }

  /** One group of the joined query: a transaction row and what the join found for it. */
  function ViewTx(t: Tables, row: TxRow): TxView {
    TxView(row.tx.hash, row.tx.code, row.tx.fee, row.tx.gasUsed, row.tx.gasWanted, row.tx.memo,
           multiset(LeftJoined(FilterMap(MessageOf(row.id), t.messages))))
  }

  function TxViews(t: Tables, rows: seq<TxRow>): seq<TxView> {
    seq(|rows|, i requires 0 <= i < |rows| => ViewTx(t, rows[i]))
  }

  /** Grouping by transaction id gives one row per transaction, in no promised order. */
  function QueryTransactions(t: Tables, height: int): multiset<TxView> {
    multiset(TxViews(t, FilterMap(TxAt(height), t.txs)))
  }

  function QueryEvents(t: Tables, height: int): Option<(int, seq<Option<EventView>>)> {
    if height !in t.blocks then None
    else Some((t.blocks[height].time, LeftJoined(FilterMap(EventAt(height), t.events))))
  }

  /** The two queries run one after the other; each sees the committed tables of its own moment. */
  function GetCoreBlock(first: Tables, second: Tables, height: int): Option<BlockView> {
    match QueryEvents(first, height)
    case None => None
    case Some((time, events)) => Some(BlockView(height, time, QueryTransactions(second, height), events))
  }
}
