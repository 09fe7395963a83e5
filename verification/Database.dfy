/** The PostgreSQL side: five tables with their keys and foreign keys, statements, and one
    server session per connection (src/postgres/migrations, src/postgres/block.ts, chain.ts). */
module Database {
  import opened Prelude
  import opened RawData

  datatype BlockRow = BlockRow(hash: string, time: int)

  datatype TxRow = TxRow(id: nat, tx: TransactionCore, time: int, blockHeight: int)

  datatype MessageRow = MessageRow(
    id: nat, typeUrl: string, value: Json, transactionHash: string, transactionId: nat, blockHeight: int, index: nat)

  datatype EventRow = EventRow(id: nat, event: EventCore, time: int, blockHeight: int)

  datatype Tables = Tables(
    chains: map<string, int>, blocks: map<int, BlockRow>,
    txs: seq<TxRow>, messages: seq<MessageRow>, events: seq<EventRow>)

  /** The next values of the three id sequences. They are not transactional. */
  datatype Serials = Serials(tx: nat, message: nat, event: nat)

  /** A message with the id of its parent row; `None` is an undefined id, stored as NULL. */
  datatype LinkedMessage = LinkedMessage(
    typeUrl: string, value: Json, transactionHash: string, transactionId: Option<nat>, index: nat)

  datatype Stmt =
    | Begin
    | Commit
    | Rollback
    | InsertBlock(height: int, hash: string, time: int)
    | InsertTransactions(txs: seq<TransactionCore>, time: int, height: int)
    | InsertMessages(messages: seq<LinkedMessage>, height: int)
    | InsertEvents(events: seq<EventCore>, time: int, height: int)
    | CreateChain(chainId: string, height: int)
    | UpdateChain(chainId: string, height: int)
    | Read(request: Request)

  /** A reader's query: its parameter (`None` is a number that is no integer), and whether the server gives the
      query up for a reason of its own. */
  datatype Request = Request(parameter: Option<int>, outage: bool)

  /** The server answers a query whose parameter fits the INTEGER column. */
  predicate Answerable(r: Request) {
    r.parameter.Some? && -0x8000_0000 <= r.parameter.value < 0x8000_0000 && !r.outage
  }

  predicate Control(stmt: Stmt) {
    stmt.Begin? || stmt.Commit? || stmt.Rollback?
  }

  function TxRows(txs: seq<TransactionCore>, from: nat, time: int, height: int): seq<TxRow> {
    seq(|txs|, i requires 0 <= i < |txs| => TxRow(from + i, txs[i], time, height))
  }

  /** A message without a parent id never becomes a row: the column is NOT NULL. */
  function MessageRows(messages: seq<LinkedMessage>, from: nat, height: int): seq<MessageRow> {
    seq(|messages|, i requires 0 <= i < |messages| =>
      var m := messages[i];
      var parent := if m.transactionId.Some? then m.transactionId.value else 0;
      MessageRow(from + i, m.typeUrl, m.value, m.transactionHash, parent, height, m.index))
  }

  function EventRows(events: seq<EventCore>, from: nat, time: int, height: int): seq<EventRow> {
    seq(|events|, i requires 0 <= i < |events| => EventRow(from + i, events[i], time, height))
  }

  function TxIds(txs: seq<TxRow>): set<nat> {
    set t | t in txs :: t.id
  }

  predicate HashTaken(blocks: map<int, BlockRow>, hash: string) {
    exists h :: h in blocks && blocks[h].hash == hash
  }

  /** The tables after a data statement, or `None` when a key or foreign key rejects it. */
  function Change(t: Tables, n: Serials, stmt: Stmt): Option<Tables>
    requires !Control(stmt)
  {
    match stmt
    case InsertBlock(height, hash, time) =>
      if height in t.blocks || HashTaken(t.blocks, hash) then None
      else Some(t.(blocks := t.blocks[height := BlockRow(hash, time)]))
    case InsertTransactions(txs, time, height) =>
      if txs != [] && height !in t.blocks then None
      else Some(t.(txs := t.txs + TxRows(txs, n.tx, time, height)))
    case InsertMessages(messages, height) =>
      if exists m :: m in messages && (m.transactionId.None? || m.transactionId.value !in TxIds(t.txs)) then None
      else Some(t.(messages := t.messages + MessageRows(messages, n.message, height)))
    case InsertEvents(events, time, height) =>
      if events != [] && height !in t.blocks then None
      else Some(t.(events := t.events + EventRows(events, n.event, time, height)))
    case CreateChain(chainId, height) =>
      if chainId in t.chains then None else Some(t.(chains := t.chains[chainId := height]))
    case UpdateChain(chainId, height) =>
      Some(if chainId in t.chains then t.(chains := t.chains[chainId := height]) else t)
    case Read(request) => if Answerable(request) then Some(t) else None
  }

  /** Ids are drawn whether or not the statement succeeds. */
  function Drawn(n: Serials, stmt: Stmt): Serials {
    match stmt
    case InsertTransactions(txs, _, _) => n.(tx := n.tx + |txs|)
    case InsertMessages(messages, _) => n.(message := n.message + |messages|)
    case InsertEvents(events, _, _) => n.(event := n.event + |events|)
    case _ => n
  }

  /** The (txIndex, id) pairs an insert of transactions returns. */
  function Returning(n: Serials, stmt: Stmt): seq<(nat, nat)> {
    match stmt
    case InsertTransactions(txs, _, _) => seq(|txs|, i requires 0 <= i < |txs| => (txs[i].txIndex, n.tx + i))
    case _ => []
  }

  datatype Session = Idle | Open(work: Tables) | Failed

  datatype Server = Server(committed: Tables, session: Session, serials: Serials)

  datatype Reply = Ok(rows: seq<(nat, nat)>) | Error

  /** Executing one statement on the session. `fault` makes it fail for a reason the model does not
      look into; a faulty COMMIT rolls back. */
  function Exec(s: Server, stmt: Stmt, fault: bool): (Server, Reply) {
    match stmt
    case Begin =>
      if fault || s.session.Failed? then (s, Error)
      else if s.session.Idle? then (s.(session := Open(s.committed)), Ok([]))
      else (s, Ok([]))
    case Commit =>
      if fault then (s.(session := Idle), Error)
      else if s.session.Open? then (s.(committed := s.session.work, session := Idle), Ok([]))
      else (s.(session := Idle), Ok([]))
    case Rollback =>
      if fault then (s, Error) else (s.(session := Idle), Ok([]))
    case _ =>
      var s' := s.(serials := Drawn(s.serials, stmt));
      match s.session
      case Failed => (s', Error)
      case Idle =>
        var change := if fault then None else Change(s.committed, s.serials, stmt);
        (match change
         case Some(t) => (s'.(committed := t), Ok(Returning(s.serials, stmt)))
         case None => (s', Error))
      case Open(work) =>
        var change := if fault then None else Change(work, s.serials, stmt);
        (match change
         case Some(t) => (s'.(session := Open(t)), Ok(Returning(s.serials, stmt)))
         case None => (s'.(session := Failed), Error))
  }

  /** Foreign keys hold, ids are below their sequences and increase down each table. */
  ghost predicate Consistent(t: Tables, n: Serials) {
    && (forall r :: r in t.txs ==> r.blockHeight in t.blocks && r.id < n.tx)
    && (forall i, j :: 0 <= i < j < |t.txs| ==> t.txs[i].id < t.txs[j].id)
    && (forall m :: m in t.messages ==> m.transactionId in TxIds(t.txs))
    && (forall r :: r in t.events ==> r.blockHeight in t.blocks && r.id < n.event)
    && (forall i, j :: 0 <= i < j < |t.events| ==> t.events[i].id < t.events[j].id)
  }

  ghost predicate SerialsLeq(a: Serials, b: Serials) {
    a.tx <= b.tx && a.message <= b.message && a.event <= b.event
  }

  /** A statement inserting at least one child row. */
  ghost predicate ChildInsert(stmt: Stmt) {
    || (stmt.InsertTransactions? && stmt.txs != [])
    || (stmt.InsertMessages? && stmt.messages != [])
    || (stmt.InsertEvents? && stmt.events != [])
  }

  /** Some row the statement inserts refers to a parent that `t` does not have. */
  ghost predicate ParentMissing(t: Tables, stmt: Stmt) {
    || ((stmt.InsertTransactions? || stmt.InsertEvents?) && stmt.height !in t.blocks)
    || (stmt.InsertMessages? &&
        exists m :: m in stmt.messages && (m.transactionId.None? || m.transactionId.value !in TxIds(t.txs)))
  }

  /** Outside a transaction a child insert leaves the committed tables alone exactly when some parent row
      it refers to is not committed. This is what makes statements that arrive behind a ROLLBACK harmless,
      and also how far that protection goes. */
  lemma LateInsertExact(s: Server, stmt: Stmt)
    requires s.session.Idle? && ChildInsert(stmt)
    ensures Exec(s, stmt, false).0.committed == s.committed <==> ParentMissing(s.committed, stmt)
    ensures Exec(s, stmt, true).0.committed == s.committed
    ensures Exec(s, stmt, false).1.Error? <==> ParentMissing(s.committed, stmt)
  {
    if !ParentMissing(s.committed, stmt) {
      var t := Change(s.committed, s.serials, stmt).value;
      assert |t.txs| > |s.committed.txs| || |t.messages| > |s.committed.messages| || |t.events| > |s.committed.events|;
    }
  }
}
