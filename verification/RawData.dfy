/** What the node sends and what the handlers produce from it. */
module RawData {
  import opened Prelude

  /** JSON text, never looked into. */
  type Json = string

  /** A dynamically typed attribute key or value. */
  datatype Value = Text(text: string) | Bytes(bytes: seq<nat>) | Undefined

  datatype Attribute = Attribute(key: Value, value: Value)

  datatype Event = Event(typ: string, attributes: Option<seq<Attribute>>)

  datatype AnyMessage = AnyMessage(typeUrl: string, payload: seq<nat>)

  datatype TxBody = TxBody(messages: seq<AnyMessage>, memo: string)

  datatype AuthInfo = AuthInfo(fee: Json)

  datatype DecodedTx = DecodedTx(body: Option<TxBody>, authInfo: Option<AuthInfo>)

  datatype TxResponse = TxResponse(
    tx: seq<nat>, txhash: string, code: int, gasUsed: string, gasWanted: string, events: seq<Event>)

  /** The SDK's decoders, as arbitrary partial functions, and the list of indexed event types. */
  datatype Registry = Registry(
    decodeTx: seq<nat> -> Option<DecodedTx>,
    decodeMessage: AnyMessage -> Option<Json>,
    toJs: Value -> Option<Value>,
    listed: set<string>)

  datatype EventCore = EventCore(
    typ: string, attributes: seq<Attribute>,
    beginBlockEvent: bool, endBlockEvent: bool, transactionHash: Option<string>)

  datatype MessageCore = MessageCore(
    typeUrl: string, value: Json, transactionHash: string, index: nat, txIndex: nat)

  datatype TransactionCore = TransactionCore(
    hash: string, code: int, fee: Json, memo: string, gasUsed: string, gasWanted: string,
    feePayer: Value, txIndex: nat)

  datatype BlockCore = BlockCore(
    height: int, hash: string, time: int,
    transactions: seq<TransactionCore>, messages: seq<MessageCore>, events: seq<EventCore>)
}
