/** What readers see while an attempt is under way, in the committed tables or, sharing the transaction's client,
    in the open transaction. */
module ReaderViews {
  import opened Prelude
  import opened RawData
  import opened Database
  import opened BlockSync
  import opened BlockQuery
  import opened BlockStore
  import opened CommitProtocol
  import opened ProtocolProofs
  import opened SharedClient
  import opened ProtocolTheorems

  ghost predicate BlocksAdded(base: map<int, BlockRow>, blocks: map<int, BlockRow>, height: int) {
    && (forall h :: h in base ==> h in blocks && blocks[h] == base[h])
    && (forall h :: h in blocks && h !in base ==> h == height)
  }

  ghost predicate TxsAdded(base: seq<TxRow>, txs: seq<TxRow>, height: int, free: bool) {
    base <= txs && forall i :: |base| <= i < |txs| ==> txs[i].blockHeight == height && free
  }

  ghost predicate MessagesAdded(base: seq<MessageRow>, messages: seq<MessageRow>, from: nat) {
    base <= messages && forall i :: |base| <= i < |messages| ==> messages[i].transactionId >= from
  }

  ghost predicate EventsAdded(base: seq<EventRow>, events: seq<EventRow>, height: int, free: bool) {
    base <= events && forall i :: |base| <= i < |events| ==> events[i].blockHeight == height && free
  }

  /** `t` is `base` with nothing changed, and rows of one block added that `base` does not have. */
  ghost predicate Extends(base: Tables, n: Serials, height: int, t: Tables) {
    && BlocksAdded(base.blocks, t.blocks, height)
    && TxsAdded(base.txs, t.txs, height, height !in base.blocks)
    && MessagesAdded(base.messages, t.messages, n.tx)
    && EventsAdded(base.events, t.events, height, height !in base.blocks)
  }

  lemma AddedNone<A, B>(f: A -> Option<B>, s: seq<A>, t: seq<A>)
    requires s <= t && forall i :: |s| <= i < |t| ==> f(t[i]).None?
    ensures FilterMap(f, t) == FilterMap(f, s)
  {
    assert t == s + t[|s|..];
    FilterMapConcat(f, s, t[|s|..]);
    FilterMapNone(f, t[|s|..]);
  }

  lemma ExtendsView(base: Tables, n: Serials, height: int, t: Tables, row: TxRow)
    requires Consistent(base, n) && Extends(base, n, height, t) && row in base.txs
    ensures ViewTx(t, row) == ViewTx(base, row)
  {
    AddedNone(MessageOf(row.id), base.messages, t.messages);
  }

  /** Blocks that `base` holds are held. */
  lemma ExtendsHolds(base: Tables, n: Serials, height: int, t: Tables, kept: BlockCore)
    requires Consistent(base, n) && Extends(base, n, height, t) && Holds(base, kept)
    ensures Holds(t, kept)
  {
    var h := kept.height;
    AddedNone(TxAt(h), base.txs, t.txs);
    AddedNone(EventAt(h), base.events, t.events);
    var rows := FilterMap(TxAt(h), base.txs);
    forall k | 0 <= k < |rows| ensures ViewTx(t, rows[k]) == ViewTx(base, rows[k]) {
      FilterMapSource(TxAt(h), base.txs, k);
      ExtendsView(base, n, height, t, rows[k]);
    }
    assert TxViews(t, rows) == TxViews(base, rows);
  }

  // ------------------------------------------------ the statements of an attempt

  /** The statement writes rows of the attempt's own block only. */
  ghost predicate StmtOwn(base: Tables, n: Serials, height: int, stmt: Stmt) {
    match stmt
    case InsertBlock(h, _, _) => h == height
    case InsertTransactions(_, _, h) => h == height && height !in base.blocks
    case InsertEvents(_, _, h) => h == height && height !in base.blocks
    case InsertMessages(messages, _) =>
      forall m :: m in messages ==> m.transactionId.Some? ==> m.transactionId.value >= n.tx
    case CreateChain(_, _) => false
    case _ => true
  }

  ghost predicate SendsOwn(job: Job, base: Tables, n: Serials, a: Attempt) {
    forall e :: e in a.queue ==> StmtOwn(base, n, job.height, e.stmt)
  }

  ghost predicate WorkOwn(job: Job, base: Tables, n: Serials, a: Attempt) {
    a.server.session.Open? ==> Extends(base, n, job.height, a.server.session.work)
  }

  lemma MessagesExtend(base: Tables, n: Serials, height: int, t: Tables, next: Serials, stmt: Stmt)
    requires Extends(base, n, height, t) && StmtOwn(base, n, height, stmt) && stmt.InsertMessages?
    ensures var r := Change(t, next, stmt); r.Some? ==> Extends(base, n, height, r.value)
  {
    if Change(t, next, stmt).Some? {
      var rows := MessageRows(stmt.messages, next.message, stmt.height);
      forall i | 0 <= i < |rows| ensures rows[i].transactionId >= n.tx {
        assert stmt.messages[i] in stmt.messages;
      }
    }
  }

  lemma TransactionsExtend(base: Tables, n: Serials, height: int, t: Tables, next: Serials, stmt: Stmt)
    requires Extends(base, n, height, t) && StmtOwn(base, n, height, stmt) && stmt.InsertTransactions?
    ensures var r := Change(t, next, stmt); r.Some? ==> Extends(base, n, height, r.value)
  {
    var rows := TxRows(stmt.txs, next.tx, stmt.time, stmt.height);
    assert forall i :: 0 <= i < |rows| ==> rows[i].blockHeight == height;
  }

  lemma EventsExtend(base: Tables, n: Serials, height: int, t: Tables, next: Serials, stmt: Stmt)
    requires Extends(base, n, height, t) && StmtOwn(base, n, height, stmt) && stmt.InsertEvents?
    ensures var r := Change(t, next, stmt); r.Some? ==> Extends(base, n, height, r.value)
  {
    var rows := EventRows(stmt.events, next.event, stmt.time, stmt.height);
    assert forall i :: 0 <= i < |rows| ==> rows[i].blockHeight == height;
  }

  lemma ChangeExtends(base: Tables, n: Serials, height: int, t: Tables, next: Serials, stmt: Stmt)
    requires Extends(base, n, height, t) && StmtOwn(base, n, height, stmt) && !Control(stmt)
    ensures var r := Change(t, next, stmt); r.Some? ==> Extends(base, n, height, r.value)
  {
    match stmt
    case InsertTransactions(_, _, _) => TransactionsExtend(base, n, height, t, next, stmt);
    case InsertMessages(_, _) => MessagesExtend(base, n, height, t, next, stmt);
    case InsertEvents(_, _, _) => EventsExtend(base, n, height, t, next, stmt);
    case _ =>
  }

  lemma MessagesOwn(base: Tables, n: Serials, messages: seq<MessageCore>, rows: seq<(nat, nat)>, height: int)
    requires forall i :: 0 <= i < |rows| ==> n.tx <= rows[i].1
    ensures StmtOwn(base, n, height, InsertMessages(Link(messages, IdMap(rows)), height))
  {
    IdMapFrom(rows, n.tx);
  }

  lemma SendsMain(job: Job, base: Tables, n: Serials, a: Attempt, stmt: Stmt, reply: Reply)
    requires JobOk(job) && SendsOwn(job, base, n, a)
    ensures SendsOwn(job, base, n, Resume(job, a, Main, stmt, reply))
  {}

  lemma SendsInserter(job: Job, base: Tables, n: Serials, a: Attempt, stmt: Stmt, reply: Reply)
    requires JobOk(job) && SendsOwn(job, base, n, a)
    requires reply.Ok? ==> forall i :: 0 <= i < |reply.rows| ==> n.tx <= reply.rows[i].1
    requires PastBlock(Resume(job, a, Inserter, stmt, reply).insert) ==> job.height !in base.blocks
    ensures SendsOwn(job, base, n, Resume(job, a, Inserter, stmt, reply))
  {
    if reply.Ok? && a.insert == AwaitTransactions && job.body.Store? {
      MessagesOwn(base, n, job.body.core.messages, reply.rows, job.height);
    }
  }

  lemma SendsResume(job: Job, base: Tables, n: Serials, a: Attempt, w: Waiter, stmt: Stmt, reply: Reply)
    requires JobOk(job) && SendsOwn(job, base, n, a)
    requires reply.Ok? ==> forall i :: 0 <= i < |reply.rows| ==> n.tx <= reply.rows[i].1
    requires PastBlock(Resume(job, a, w, stmt, reply).insert) ==> job.height !in base.blocks
    ensures SendsOwn(job, base, n, Resume(job, a, w, stmt, reply))
    ensures Resume(job, a, w, stmt, reply).server == a.server
  {
    match w
    case Main => SendsMain(job, base, n, a, stmt, reply);
    case Inserter => SendsInserter(job, base, n, a, stmt, reply);
    case _ =>
  }

  /** A transaction begins on the committed tables, which are `base`. */
  lemma BeginsOnBase(job: Job, base: Tables, n: Serials, a: Attempt)
    requires SharedInv(job, base, n, a) && a.queue != [] && a.queue[0].stmt.Begin?
    ensures a.server.committed == base && a.server.session.Idle?
  {
    if Lost(job, base, n, a) {
      OwnHead(a.queue);
    } else {
      var b :| Inv(job, base, n, b) && Mirrors(a, b);
      OwnHeadOk(job, base, n, a, b);
    }
  }

  lemma ExecOwn(base: Tables, n: Serials, height: int, s: Server, stmt: Stmt, fault: bool)
    requires s.session.Open? ==> Extends(base, n, height, s.session.work)
    requires SerialsLeq(n, s.serials) && StmtOwn(base, n, height, stmt)
    requires stmt.Begin? ==> s.session.Idle? && s.committed == base
    ensures var (s1, reply) := Exec(s, stmt, fault);
            && (s1.session.Open? ==> Extends(base, n, height, s1.session.work))
            && (reply.Ok? ==> forall i :: 0 <= i < |reply.rows| ==> n.tx <= reply.rows[i].1)
  {
    if !Control(stmt) && s.session.Open? {
      ChangeExtends(base, n, height, s.session.work, s.serials, stmt);
    }
  }

  lemma ExecutedOwn(job: Job, base: Tables, n: Serials, a: Attempt, fault: bool, gap: Serials)
    requires SharedInv(job, base, n, a) && SerialsLeq(n, a.server.serials)
    requires SendsOwn(job, base, n, a) && WorkOwn(job, base, n, a) && a.queue != []
    ensures var (a1, reply) := Executed(a, fault, gap);
            && SendsOwn(job, base, n, a1) && WorkOwn(job, base, n, a1)
            && (reply.Ok? ==> forall i :: 0 <= i < |reply.rows| ==> n.tx <= reply.rows[i].1)
  {
    var stmt := a.queue[0].stmt;
    assert a.queue[0] in a.queue;
    if stmt.Begin? { BeginsOnBase(job, base, n, a); }
    if stmt.Read? {
      ExecOwn(base, n, job.height, a.server, stmt, false);
    } else {
      ExecOwn(base, n, job.height, a.server.(serials := Skip(a.server.serials, gap)), stmt, fault);
    }
  }

  lemma PastBlockFresh(job: Job, base: Tables, n: Serials, a: Attempt)
    requires SharedInv(job, base, n, a) && PastBlock(a.insert)
    ensures job.height !in base.blocks
  {}

  lemma OwnExecutes(job: Job, base: Tables, n: Serials, a: Attempt, fault: bool, gap: Serials)
    requires JobOk(job) && SharedInv(job, base, n, a) && SerialsLeq(n, a.server.serials)
    requires SendsOwn(job, base, n, a) && WorkOwn(job, base, n, a) && a.queue != []
    requires PastBlock(Step(job, a, Execute(fault, gap)).insert) ==> job.height !in base.blocks
    ensures var b := Step(job, a, Execute(fault, gap)); SendsOwn(job, base, n, b) && WorkOwn(job, base, n, b)
  {
    var (a1, reply) := Executed(a, fault, gap);
    ExecutedOwn(job, base, n, a, fault, gap);
    SendsResume(job, base, n, a1, a.queue[0].waiter, a.queue[0].stmt, reply);
  }

  lemma OwnExpires(job: Job, base: Tables, n: Serials, a: Attempt, k: nat, withdraw: bool)
    requires JobOk(job) && k < |a.queue| && a.queue[k].waiter != Nobody
    requires SendsOwn(job, base, n, a) && WorkOwn(job, base, n, a)
    requires PastBlock(Step(job, a, Expire(k, withdraw)).insert) ==> job.height !in base.blocks
    ensures var b := Step(job, a, Expire(k, withdraw)); SendsOwn(job, base, n, b) && WorkOwn(job, base, n, b)
  {
    ExpiredSends(job, base, n, a, k, withdraw);
    SendsResume(job, base, n, Expired(a, k, withdraw), a.queue[k].waiter, a.queue[k].stmt, Error);
  }

  lemma OwnAsks(job: Job, base: Tables, n: Serials, a: Attempt, c: Choice)
    requires SendsOwn(job, base, n, a) && WorkOwn(job, base, n, a) && (c.Ask? || c.Continue?)
    ensures SendsOwn(job, base, n, Step(job, a, c)) && WorkOwn(job, base, n, Step(job, a, c))
  {}

  lemma OwnStep(job: Job, base: Tables, n: Serials, a: Attempt, c: Choice)
    requires JobOk(job) && SharedInv(job, base, n, a) && SerialsLeq(n, a.server.serials)
    requires SendsOwn(job, base, n, a) && WorkOwn(job, base, n, a)
    requires PastBlock(Step(job, a, c).insert) ==> job.height !in base.blocks
    ensures SendsOwn(job, base, n, Step(job, a, c)) && WorkOwn(job, base, n, Step(job, a, c))
  {
    if c.Ask? || c.Continue? {
      OwnAsks(job, base, n, a, c);
    } else if c.Execute? && a.queue != [] {
      OwnExecutes(job, base, n, a, c.fault, c.gap);
    } else if c.Expire? && c.k < |a.queue| && a.queue[c.k].waiter != Nobody {
      OwnExpires(job, base, n, a, c.k, c.withdraw);
    } else {
      assert Step(job, a, c) == a;
    }
  }

  lemma ExpiredSends(job: Job, base: Tables, n: Serials, a: Attempt, k: nat, withdraw: bool)
    requires SendsOwn(job, base, n, a) && k < |a.queue|
    ensures SendsOwn(job, base, n, Expired(a, k, withdraw))
  {
    ExpiredEntries(a, k, withdraw);
    assert a.queue[k] in a.queue;
  }

  lemma {:induction false} OwnRun(job: Job, base: Tables, n: Serials, choices: seq<Choice>)
    requires JobOk(job) && Consistent(base, n)
    ensures var a := Run(job, Start(base, n), choices); SendsOwn(job, base, n, a) && WorkOwn(job, base, n, a)
  {
    if choices == [] {
    } else {
      var front := choices[..|choices| - 1];
      var a := Run(job, Start(base, n), front);
      OwnRun(job, base, n, front);
      RunKeeps(job, base, n, front);
      SharedOutcome(job, base, n, a);
      RunKeeps(job, base, n, choices);
      if PastBlock(Run(job, Start(base, n), choices).insert) {
        PastBlockFresh(job, base, n, Run(job, Start(base, n), choices));
      }
      OwnStep(job, base, n, a, choices[|choices| - 1]);
    }
  }

  /** Whatever an attempt has done so far, a query on the committed tables and one on its open transaction both
      find every block whole that was stored before. */
  lemma StoredBlocksVisible(job: Job, base: Tables, n: Serials, choices: seq<Choice>, kept: BlockCore)
    requires JobOk(job) && Consistent(base, n) && Holds(base, kept)
    ensures var s := Run(job, Start(base, n), choices).server;
            Holds(s.committed, kept) && (s.session.Open? ==> Holds(s.session.work, kept))
  {
    var a := Run(job, Start(base, n), choices);
    OwnRun(job, base, n, choices);
    AllOrNothing(job, base, n, choices);
    if a.applied { OldBlockHeld(base, n, job.chainId, job.body.core, a.at, a.server.serials, kept); }
    if a.server.session.Open? { ExtendsHolds(base, n, job.height, a.server.session.work, kept); }
  }
}
